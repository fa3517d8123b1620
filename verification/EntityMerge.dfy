/** Fuzzy entity resolution and the merging of entities (`CanonicalizationService`). */
module EntityMerge {
  import opened Foundation
  import opened Sequences
  import opened Sorting

  /** Aliases are stored as a list or, by older writers, as a dictionary of which only the values count. */
  datatype Aliases = Listed(names: seq<string>) | Keyed(values: seq<string>) {
    function All(): seq<string> {
      match this
      case Listed(names) => names
      case Keyed(values) => values
    }

    /** What `merge_entities` carries over: a dictionary is treated as no aliases at all. */
    function Carried(): seq<string> {
      if Listed? then names else []
    }
  }

  datatype Entity = Entity(
    tenantId: nat, entityType: string, name: string, aliases: Aliases, metadata: map<string, Opaque>)

  /** The entity table by id. */
  type Registry = map<nat, Entity>

  type Similarity = (string, string) -> real

  /** `compute_similarity`: both texts are normalised (lower-cased and stripped) before their ratio is taken. */
  function ComputeSimilarity(norm: string -> string, ratio: Similarity): Similarity {
    (a: string, b: string) => ratio(norm(a), norm(b))
  }

  /** What is used of `SequenceMatcher.ratio`: it lies between 0 and 1, and is 1 for equal texts and no others. */
  ghost predicate ProperRatio(ratio: Similarity) {
    forall a, b :: 0.0 <= ratio(a, b) <= 1.0 && (ratio(a, b) == 1.0 <==> a == b)
  }

  function Texts(e: Entity): seq<string> {
    [e.name] + e.aliases.All()
  }

  predicate Selected(e: Entity, tenantId: nat, entityType: string) {
    e.tenantId == tenantId && e.entityType == entityType
  }

  /** Every text a query of this tenant and type is compared with. */
  function NamesOf(reg: Registry, tenantId: nat, entityType: string): set<string> {
    set id, n | id in reg && Selected(reg[id], tenantId, entityType) && n in Texts(reg[id]) :: n
  }

  // ---- Resolution ----

  predicate Hit(sim: Similarity, query: string, threshold: real, n: string) {
    sim(query, n) >= threshold && sim(query, n) > 0.0
  }

  /** The resolved flag and best score for a set of texts: the best text at or above the threshold, if any. */
  ghost predicate Resolves(names: set<string>, sim: Similarity, query: string, threshold: real, resolved: bool,
                           best: real)
  {
    if resolved then
      && (exists n :: n in names && Hit(sim, query, threshold, n) && best == sim(query, n))
      && (forall n :: n in names && Hit(sim, query, threshold, n) ==> sim(query, n) <= best)
    else
      best == 0.0 && forall n :: n in names ==> !Hit(sim, query, threshold, n)
  }

  /** The flag and the score depend only on the set of texts. */
  lemma ResolutionIsUnique(names: set<string>, sim: Similarity, query: string, threshold: real, r: bool, b: real,
                           r': bool, b': real)
    requires Resolves(names, sim, query, threshold, r, b) && Resolves(names, sim, query, threshold, r', b')
    ensures r == r' && b == b'
  {
  }

  /** The best similarity over a non-empty list of texts. */
  function BestOf(sim: Similarity, query: string, texts: seq<string>): real
    requires texts != []
  {
    var n := |texts| - 1;
    if n == 0 then sim(query, texts[0])
    else
      var front, last := BestOf(sim, query, texts[..n]), sim(query, texts[n]);
      if last > front then last else front
  }

  lemma {:induction false} BestOfIsMaximum(sim: Similarity, query: string, texts: seq<string>)
    requires texts != []
    ensures forall n :: n in texts ==> sim(query, n) <= BestOf(sim, query, texts)
    ensures exists n :: n in texts && sim(query, n) == BestOf(sim, query, texts)
  {
    var front, last := texts[..|texts| - 1], texts[|texts| - 1];
    InFrontOrLast(texts);
    var best := last;
    if front != [] {
      BestOfIsMaximum(sim, query, front);
      var m :| m in front && sim(query, m) == BestOf(sim, query, front);
      best := if sim(query, last) > sim(query, m) then last else m;
    }
    assert best in texts && sim(query, best) == BestOf(sim, query, texts);
  }

  lemma InFrontOrLast(texts: seq<string>)
    requires texts != []
    ensures forall n :: n in texts <==> n in texts[..|texts| - 1] || n == texts[|texts| - 1]
  {
    assert texts == texts[..|texts| - 1] + [texts[|texts| - 1]];
  }

  function ScoreOf(sim: Similarity, query: string, e: Entity): real {
    BestOf(sim, query, Texts(e))
  }

  method ScoreEntity(sim: Similarity, query: string, e: Entity) returns (score: real)
    ensures score == ScoreOf(sim, query, e)
  {
    score := sim(query, e.name);
    var aliases, texts := e.aliases.All(), Texts(e);
    for i := 0 to |aliases|
      invariant score == BestOf(sim, query, texts[..i + 1])
    {
      assert texts[..i + 2][..i + 1] == texts[..i + 1] && texts[i + 1] == aliases[i];
      var aliasScore := sim(query, aliases[i]);
      score := if aliasScore > score then aliasScore else score;
    }
    assert texts[..|aliases| + 1] == texts;
  }

  ghost predicate NoneAbove(rows: seq<Entity>, sim: Similarity, query: string, threshold: real, best: real) {
    forall e :: e in rows && ScoreOf(sim, query, e) >= threshold ==> ScoreOf(sim, query, e) <= best
  }

  /** The rows scanned so far have left the best positive candidate and its score. */
  ghost predicate BestSoFar(rows: seq<Entity>, sim: Similarity, query: string, threshold: real, found: Option<Entity>,
                            best: real)
  {
    && NoneAbove(rows, sim, query, threshold, best)
    && if found.Some? then
         found.value in rows && best == ScoreOf(sim, query, found.value) && best >= threshold && best > 0.0
       else best == 0.0
  }

  lemma BestAfterOneMore(rows: seq<Entity>, e: Entity, sim: Similarity, query: string, threshold: real,
                         found: Option<Entity>, best: real)
    requires BestSoFar(rows, sim, query, threshold, found, best)
    ensures var score := ScoreOf(sim, query, e);
      if score >= threshold && score > best then BestSoFar(rows + [e], sim, query, threshold, Some(e), score)
      else BestSoFar(rows + [e], sim, query, threshold, found, best)
  {
    assert forall x :: x in rows + [e] <==> x in rows || x == e;
  }

  ghost predicate Covers(names: set<string>, rows: seq<Entity>) {
    && (forall e, n :: e in rows && n in Texts(e) ==> n in names)
    && (forall n :: n in names ==> exists e :: e in rows && n in Texts(e))
  }

  /** Picking the best entity is picking the best text. */
  lemma BestEntityResolves(rows: seq<Entity>, names: set<string>, sim: Similarity, query: string, threshold: real,
                           found: Option<Entity>, best: real)
    requires Covers(names, rows) && BestSoFar(rows, sim, query, threshold, found, best)
    ensures Resolves(names, sim, query, threshold, found.Some?, best)
  {
    forall n | n in names && Hit(sim, query, threshold, n)
      ensures found.Some? && sim(query, n) <= best
    {
      var e :| e in rows && n in Texts(e);
      BestOfIsMaximum(sim, query, Texts(e));
    }
    if found.Some? {
      BestOfIsMaximum(sim, query, Texts(found.value));
    }
  }

  /** The best match and best score after the rows are scanned in order. */
  function Scan(rows: seq<Entity>, sim: Similarity, query: string, threshold: real): (Option<Entity>, real) {
    if rows == [] then (None, 0.0)
    else
      var (found, best) := Scan(rows[..|rows| - 1], sim, query, threshold);
      var e := rows[|rows| - 1];
      if ScoreOf(sim, query, e) >= threshold && ScoreOf(sim, query, e) > best then (Some(e), ScoreOf(sim, query, e))
      else (found, best)
  }

  lemma {:induction false} ScanFindsBest(rows: seq<Entity>, sim: Similarity, query: string, threshold: real)
    ensures var (found, best) := Scan(rows, sim, query, threshold); BestSoFar(rows, sim, query, threshold, found, best)
  {
    if rows != [] {
      var front, e := rows[..|rows| - 1], rows[|rows| - 1];
      ScanFindsBest(front, sim, query, threshold);
      var (found, best) := Scan(front, sim, query, threshold);
      BestAfterOneMore(front, e, sim, query, threshold, found, best);
      assert rows == front + [e];
    }
  }

  /** Among equally good entities the first one scanned is returned. */
  ghost predicate FirstBest(rows: seq<Entity>, sim: Similarity, query: string, threshold: real, e: Entity) {
    exists i :: 0 <= i < |rows| && rows[i] == e && forall j :: 0 <= j < i ==>
      (ScoreOf(sim, query, rows[j]) < threshold || ScoreOf(sim, query, rows[j]) < ScoreOf(sim, query, e))
  }

  lemma {:induction false} ScanFindsFirstBest(rows: seq<Entity>, sim: Similarity, query: string, threshold: real)
    ensures var found := Scan(rows, sim, query, threshold).0;
      found.Some? ==> FirstBest(rows, sim, query, threshold, found.value)
  {
    if rows != [] {
      var n := |rows| - 1;
      var front, e := rows[..n], rows[n];
      ScanFindsFirstBest(front, sim, query, threshold);
      ScanFindsBest(front, sim, query, threshold);
      var (before, best) := Scan(front, sim, query, threshold);
      if ScoreOf(sim, query, e) >= threshold && ScoreOf(sim, query, e) > best {
        forall j | 0 <= j < n
          ensures ScoreOf(sim, query, rows[j]) < threshold || ScoreOf(sim, query, rows[j]) < ScoreOf(sim, query, e)
        {
          assert rows[j] == front[j] && front[j] in front;
        }
        assert FirstBest(rows, sim, query, threshold, e);
      } else if before.Some? {
        var i :| 0 <= i < n && front[i] == before.value && forall j :: 0 <= j < i ==>
          (ScoreOf(sim, query, front[j]) < threshold
           || ScoreOf(sim, query, front[j]) < ScoreOf(sim, query, before.value));
        assert rows[i] == front[i] && forall j :: 0 <= j < i ==> rows[j] == front[j];
      }
    }
  }

  // ---- Candidates ----

  /** A candidate carries its similarity as rounded for display; that is what candidates are ordered by. */
  datatype Candidate = Candidate(entity: Entity, similarity: real)

  type Rounding = real -> real

  function CandidateFinder(sim: Similarity, round: Rounding, query: string, threshold: real): Entity -> seq<Candidate> {
    (e: Entity) =>
      if ScoreOf(sim, query, e) >= threshold then [Candidate(e, round(ScoreOf(sim, query, e)))] else []
  }

  function Candidates(rows: seq<Entity>, sim: Similarity, round: Rounding, query: string, threshold: real)
    : seq<Candidate>
  {
    FlatMap(CandidateFinder(sim, round, query, threshold), rows)
  }

  function HigherFirst(): (Candidate, Candidate) -> bool {
    (x: Candidate, y: Candidate) => x.similarity >= y.similarity
  }

  const SHOWN := 5

  /** `sorted(candidates, key=..., reverse=True)[:5]`, which keeps the row order among equals. */
  function TopFive(candidates: seq<Candidate>): seq<Candidate> {
    var ranked := Sort(HigherFirst(), candidates);
    ranked[..Min(SHOWN, |ranked|)]
  }

  /** The texts a query is compared with: names and aliases, in either form, of the tenant's entities of the type. */
  lemma NamesAndAliases(reg: Registry, tenantId: nat, entityType: string, n: string)
    ensures n in NamesOf(reg, tenantId, entityType) <==> exists id ::
      && id in reg && reg[id].tenantId == tenantId && reg[id].entityType == entityType
      && match reg[id].aliases
         case Listed(names) => n == reg[id].name || n in names
         case Keyed(values) => n == reg[id].name || n in values
  {
    if id :| id in reg && Selected(reg[id], tenantId, entityType) && n in Texts(reg[id]) {
      assert n == reg[id].name || n in reg[id].aliases.All();
    }
    if id :| id in reg && Selected(reg[id], tenantId, entityType) && (n == reg[id].name || n in reg[id].aliases.All()) {
      assert Texts(reg[id])[0] == reg[id].name;
      assert n in Texts(reg[id]);
    }
  }

  /** What is shown: five candidates or all of them, best first, and no other candidate is better. */
  lemma TopFiveAreBest(candidates: seq<Candidate>) returns (rest: seq<Candidate>)
    ensures var top := TopFive(candidates);
      && |top| == (if |candidates| < 5 then |candidates| else 5)
      && multiset(top + rest) == multiset(candidates)
      && SortedBy(HigherFirst(), top)
      && forall x, y :: x in top && y in rest ==> x.similarity >= y.similarity
  {
    var ranked, top := Sort(HigherFirst(), candidates), TopFive(candidates);
    SortIsPermutation(HigherFirst(), candidates);
    SortSorts(HigherFirst(), candidates);
    assert |ranked| == |multiset(ranked)| == |candidates|;
    rest := ranked[|top|..];
    assert top + rest == ranked;
    SortedSplits(ranked, |top|);
  }

  lemma SortedSplits(ranked: seq<Candidate>, k: nat)
    requires SortedBy(HigherFirst(), ranked) && k <= |ranked|
    ensures SortedBy(HigherFirst(), ranked[..k])
    ensures forall x, y :: x in ranked[..k] && y in ranked[k..] ==> x.similarity >= y.similarity
  {
    forall x, y | x in ranked[..k] && y in ranked[k..]
      ensures x.similarity >= y.similarity
    {
      var i :| 0 <= i < k && ranked[i] == x;
      var j :| k <= j < |ranked| && ranked[j] == y;
      assert HigherFirst()(ranked[i], ranked[j]);
    }
  }

  method ScanEntities(rows: seq<Entity>, sim: Similarity, round: Rounding, query: string, threshold: real)
    returns (found: Option<Entity>, best: real, candidates: seq<Candidate>)
    ensures (found, best) == Scan(rows, sim, query, threshold)
    ensures candidates == Candidates(rows, sim, round, query, threshold)
  {
    found, best, candidates := None, 0.0, [];
    ghost var finder := CandidateFinder(sim, round, query, threshold);
    for i := 0 to |rows|
      invariant (found, best) == Scan(rows[..i], sim, query, threshold)
      invariant candidates == FlatMap(finder, rows[..i])
    {
      FlatMapStep(finder, rows, i);
      assert rows[..i + 1][..i] == rows[..i];
      var score := ScoreEntity(sim, query, rows[i]);
      if score >= threshold {
        candidates := candidates + [Candidate(rows[i], round(score))];
        if score > best {
          best, found := score, Some(rows[i]);
        }
      }
    }
    assert rows[..|rows|] == rows;
  }

  /** `rows` is the result of the entity query, in whatever order the database returns it. */
  method ResolveEntity(rows: seq<Entity>, sim: Similarity, round: Rounding, query: string, threshold: real,
                       ghost names: set<string>)
    returns (found: Option<Entity>, best: real, shown: seq<Candidate>)
    requires Covers(names, rows)
    ensures Resolves(names, sim, query, threshold, found.Some?, best)
    ensures found.Some? ==> found.value in rows && best == ScoreOf(sim, query, found.value)
    ensures found.Some? ==> FirstBest(rows, sim, query, threshold, found.value)
    ensures shown == TopFive(Candidates(rows, sim, round, query, threshold))
  {
    var candidates;
    found, best, candidates := ScanEntities(rows, sim, round, query, threshold);
    ScanFindsBest(rows, sim, query, threshold);
    ScanFindsFirstBest(rows, sim, query, threshold);
    BestEntityResolves(rows, names, sim, query, threshold, found, best);
    shown := TopFive(candidates);
  }

  // ---- Which sets of texts resolve alike ----

  function Normal(norm: string -> string, names: set<string>): set<string> {
    set n | n in names :: norm(n)
  }

  /** Every query and threshold gets the same flag and score from both sets of texts. */
  ghost predicate ResolveAlike(norm: string -> string, ratio: Similarity, a: set<string>, b: set<string>) {
    forall query: string, threshold: real, resolved: bool, best: real ::
      Resolves(a, ComputeSimilarity(norm, ratio), query, threshold, resolved, best)
      <==> Resolves(b, ComputeSimilarity(norm, ratio), query, threshold, resolved, best)
  }

  /** A text is found at full similarity exactly when it is there, up to normalisation. */
  lemma FullMatchFinds(norm: string -> string, ratio: Similarity, names: set<string>, n: string)
    requires ProperRatio(ratio)
    ensures Resolves(names, ComputeSimilarity(norm, ratio), n, 1.0, true, 1.0) <==> norm(n) in Normal(norm, names)
  {
    var sim := ComputeSimilarity(norm, ratio);
    forall m
      ensures Hit(sim, n, 1.0, m) <==> norm(m) == norm(n)
      ensures sim(n, m) <= 1.0 && (sim(n, m) == 1.0 <==> norm(m) == norm(n))
    {
    }
    if m :| m in names && norm(m) == norm(n) {
      assert Hit(sim, n, 1.0, m);
    }
  }

  lemma ResolvesByNormalTexts(norm: string -> string, ratio: Similarity, a: set<string>, b: set<string>, query: string,
                              threshold: real, resolved: bool, best: real)
    requires Normal(norm, a) == Normal(norm, b)
    requires Resolves(a, ComputeSimilarity(norm, ratio), query, threshold, resolved, best)
    ensures Resolves(b, ComputeSimilarity(norm, ratio), query, threshold, resolved, best)
  {
    var sim := ComputeSimilarity(norm, ratio);
    forall n | n in b
      ensures exists m :: m in a && norm(m) == norm(n)
    {
      assert norm(n) in Normal(norm, a);
    }
    if resolved {
      var n :| n in a && Hit(sim, query, threshold, n) && best == sim(query, n);
      assert norm(n) in Normal(norm, b);
      var m :| m in b && norm(m) == norm(n);
      assert Hit(sim, query, threshold, m) && best == sim(query, m);
    }
    forall n | n in b && Hit(sim, query, threshold, n)
      ensures resolved && sim(query, n) <= best
    {
      var m :| m in a && norm(m) == norm(n);
      assert Hit(sim, query, threshold, m);
    }
  }

  /** Two sets of texts resolve alike exactly when they agree up to normalisation. */
  lemma ResolveAlikeIff(norm: string -> string, ratio: Similarity, a: set<string>, b: set<string>)
    requires ProperRatio(ratio)
    ensures ResolveAlike(norm, ratio, a, b) <==> Normal(norm, a) == Normal(norm, b)
  {
    if ResolveAlike(norm, ratio, a, b) {
      forall n: string
        ensures norm(n) in Normal(norm, a) <==> norm(n) in Normal(norm, b)
      {
        FullMatchFinds(norm, ratio, a, n);
        FullMatchFinds(norm, ratio, b, n);
      }
    }
    if Normal(norm, a) == Normal(norm, b) {
      forall query: string, threshold: real, resolved: bool, best: real
        ensures Resolves(a, ComputeSimilarity(norm, ratio), query, threshold, resolved, best)
          <==> Resolves(b, ComputeSimilarity(norm, ratio), query, threshold, resolved, best)
      {
        if Resolves(a, ComputeSimilarity(norm, ratio), query, threshold, resolved, best) {
          ResolvesByNormalTexts(norm, ratio, a, b, query, threshold, resolved, best);
        }
        if Resolves(b, ComputeSimilarity(norm, ratio), query, threshold, resolved, best) {
          ResolvesByNormalTexts(norm, ratio, b, a, query, threshold, resolved, best);
        }
      }
    }
  }

  // ---- Merging ----

  datatype MergeResult = SourceNotFound | TargetNotFound | Merged(registry: Registry)

  predicate Found(reg: Registry, id: nat, tenantId: nat) {
    id in reg && reg[id].tenantId == tenantId
  }

  function CarriedNames(source: Entity, target: Entity): set<string> {
    (set n | n in target.aliases.Carried()) + (set n | n in source.aliases.Carried()) + {source.name}
  }

  /** `order` is the order in which the set of combined aliases happens to be listed. The target row is rewritten
      before the source row is deleted, so merging an entity into itself deletes it. */
  function MergeEntities(reg: Registry, sourceId: nat, targetId: nat, tenantId: nat, order: seq<string>): MergeResult {
    if !Found(reg, sourceId, tenantId) then SourceNotFound
    else if !Found(reg, targetId, tenantId) then TargetNotFound
    else
      var source, target := reg[sourceId], reg[targetId];
      var merged := target.(aliases := Listed(order), metadata := target.metadata + source.metadata);
      Merged(reg[targetId := merged] - {sourceId})
  }

  /** The table after a merge, row by row: the source is gone; the target keeps its name, takes the combined aliases,
      and of two metadata entries with one key has the source's; every other row is as it was. */
  lemma RowsAfterMerge(reg: Registry, sourceId: nat, targetId: nat, tenantId: nat, order: seq<string>)
    requires sourceId in reg && reg[sourceId].tenantId == tenantId
    requires targetId in reg && reg[targetId].tenantId == tenantId
    ensures MergeEntities(reg, sourceId, targetId, tenantId, order).Merged?
    ensures var after := MergeEntities(reg, sourceId, targetId, tenantId, order).registry;
      && (forall id :: id in after <==> id in reg && id != sourceId)
      && (forall id :: id in after && id != targetId ==> after[id] == reg[id])
      && (sourceId != targetId ==>
        var source, target, merged := reg[sourceId], reg[targetId], after[targetId];
        && merged.name == target.name && merged.entityType == target.entityType && merged.tenantId == tenantId
        && merged.aliases == Listed(order)
        && forall key ::
          && (key in merged.metadata <==> key in source.metadata || key in target.metadata)
          && (key in source.metadata ==> merged.metadata[key] == source.metadata[key])
          && (key in target.metadata && key !in source.metadata ==> merged.metadata[key] == target.metadata[key]))
  {
  }

  /** The combined aliases: the listed aliases of both and the source's name; dictionary aliases are not among them. */
  lemma CombinedAliases(reg: Registry, sourceId: nat, targetId: nat, tenantId: nat, order: seq<string>, n: string)
    requires ProperMerge(reg, sourceId, targetId, tenantId, order)
    ensures var source, target := reg[sourceId], reg[targetId];
      n in order <==>
        || n == source.name
        || (source.aliases.Listed? && n in source.aliases.names)
        || (target.aliases.Listed? && n in target.aliases.names)
  {
    assert n in order <==> n in CarriedNames(reg[sourceId], reg[targetId]);
  }

  /** Both entities are found, and `order` lists the combined aliases. */
  ghost predicate ProperMerge(reg: Registry, sourceId: nat, targetId: nat, tenantId: nat, order: seq<string>) {
    && Found(reg, sourceId, tenantId) && Found(reg, targetId, tenantId)
    && (forall n :: n in order <==> n in CarriedNames(reg[sourceId], reg[targetId]))
  }

  function TextSet(e: Entity): set<string> {
    set n | n in Texts(e)
  }

  /** The texts of a type that survive whatever the two entities hold. */
  function OthersNames(reg: Registry, sourceId: nat, targetId: nat, tenantId: nat, entityType: string): set<string> {
    NamesOf(reg - {sourceId, targetId}, tenantId, entityType)
  }

  /** What the two entities contribute to a type. */
  function TheirNames(reg: Registry, sourceId: nat, targetId: nat, entityType: string): set<string>
    requires sourceId in reg && targetId in reg
  {
    (if reg[sourceId].entityType == entityType then TextSet(reg[sourceId]) else {})
    + if reg[targetId].entityType == entityType then TextSet(reg[targetId]) else {}
  }

  /** The texts a type still has after the merge, told from the table before it. Everything carried goes to the type of
      the target; an entity merged into itself carries nothing. */
  function KeptNames(reg: Registry, sourceId: nat, targetId: nat, tenantId: nat, entityType: string): set<string>
    requires sourceId in reg && targetId in reg
  {
    OthersNames(reg, sourceId, targetId, tenantId, entityType)
    + if sourceId == targetId || reg[targetId].entityType != entityType then {}
      else CarriedNames(reg[sourceId], reg[targetId]) + {reg[targetId].name}
  }

  /** What a caller can check beforehand, up to normalisation: every text of the two entities, dictionary aliases
      included, is carried over or belongs to some other entity of the type ... */
  predicate LosesNoName(norm: string -> string, reg: Registry, sourceId: nat, targetId: nat, tenantId: nat,
                        entityType: string)
    requires sourceId in reg && targetId in reg
  {
    Normal(norm, TheirNames(reg, sourceId, targetId, entityType))
      <= Normal(norm, KeptNames(reg, sourceId, targetId, tenantId, entityType))
  }

  /** ... and every text carried over was known in the type before. */
  predicate GainsNoName(norm: string -> string, reg: Registry, sourceId: nat, targetId: nat, tenantId: nat,
                        entityType: string)
    requires sourceId in reg && targetId in reg
  {
    Normal(norm, KeptNames(reg, sourceId, targetId, tenantId, entityType))
      <= Normal(norm, OthersNames(reg, sourceId, targetId, tenantId, entityType)
                      + TheirNames(reg, sourceId, targetId, entityType))
  }

  lemma NamesAfterMerge(reg: Registry, sourceId: nat, targetId: nat, tenantId: nat, order: seq<string>, ty: string)
    requires ProperMerge(reg, sourceId, targetId, tenantId, order)
    ensures var after := MergeEntities(reg, sourceId, targetId, tenantId, order).registry;
      NamesOf(after, tenantId, ty) == KeptNames(reg, sourceId, targetId, tenantId, ty)
  {
    var after, rest := MergeEntities(reg, sourceId, targetId, tenantId, order).registry, reg - {sourceId, targetId};
    var moved := if sourceId == targetId || reg[targetId].entityType != ty then {}
                 else CarriedNames(reg[sourceId], reg[targetId]) + {reg[targetId].name};
    forall n
      ensures n in NamesOf(after, tenantId, ty) <==> n in NamesOf(rest, tenantId, ty) || n in moved
    {
      if n in NamesOf(after, tenantId, ty) {
        var id :| id in after && Selected(after[id], tenantId, ty) && n in Texts(after[id]);
        if id != targetId {
          assert id in rest && rest[id] == after[id];
        } else {
          assert n == reg[targetId].name || n in order;
        }
      }
      if n in NamesOf(rest, tenantId, ty) {
        var id :| id in rest && Selected(rest[id], tenantId, ty) && n in Texts(rest[id]);
        assert id in after && after[id] == rest[id];
      }
      if n in moved {
        assert Texts(after[targetId]) == [reg[targetId].name] + order;
        assert n in Texts(after[targetId]) by { assert n == reg[targetId].name || n in order; }
      }
    }
  }

  lemma NamesBeforeMerge(reg: Registry, sourceId: nat, targetId: nat, tenantId: nat, ty: string)
    requires Found(reg, sourceId, tenantId) && Found(reg, targetId, tenantId)
    ensures NamesOf(reg, tenantId, ty)
      == OthersNames(reg, sourceId, targetId, tenantId, ty) + TheirNames(reg, sourceId, targetId, ty)
  {
    var rest := reg - {sourceId, targetId};
    forall n
      ensures n in NamesOf(reg, tenantId, ty) <==>
        n in NamesOf(rest, tenantId, ty) || n in TheirNames(reg, sourceId, targetId, ty)
    {
      if n in NamesOf(reg, tenantId, ty) {
        var id :| id in reg && Selected(reg[id], tenantId, ty) && n in Texts(reg[id]);
        if id != sourceId && id != targetId {
          assert id in rest;
        }
      }
      if n in NamesOf(rest, tenantId, ty) {
        var id :| id in rest && Selected(rest[id], tenantId, ty) && n in Texts(rest[id]);
        assert id in reg;
      }
    }
  }

  lemma CarriedNamesAreTexts(source: Entity, target: Entity)
    ensures CarriedNames(source, target) + {target.name} <= TextSet(source) + TextSet(target)
  {
    assert Texts(target)[0] == target.name && Texts(source)[0] == source.name;
  }

  lemma NormalOfUnion(norm: string -> string, a: set<string>, b: set<string>)
    ensures Normal(norm, a + b) == Normal(norm, a) + Normal(norm, b)
  {
  }

  /** For every type of the tenant: a merge leaves every resolution unchanged exactly when the type loses no name and
      gains none. */
  lemma MergeKeepsResolutionIff(norm: string -> string, ratio: Similarity, reg: Registry, sourceId: nat, targetId: nat,
                                tenantId: nat, order: seq<string>, ty: string)
    requires ProperRatio(ratio) && ProperMerge(reg, sourceId, targetId, tenantId, order)
    ensures var after := MergeEntities(reg, sourceId, targetId, tenantId, order).registry;
      ResolveAlike(norm, ratio, NamesOf(reg, tenantId, ty), NamesOf(after, tenantId, ty)) <==>
        && LosesNoName(norm, reg, sourceId, targetId, tenantId, ty)
        && GainsNoName(norm, reg, sourceId, targetId, tenantId, ty)
  {
    var after := MergeEntities(reg, sourceId, targetId, tenantId, order).registry;
    NamesAfterMerge(reg, sourceId, targetId, tenantId, order, ty);
    NamesBeforeMerge(reg, sourceId, targetId, tenantId, ty);
    ResolveAlikeIff(norm, ratio, NamesOf(reg, tenantId, ty), NamesOf(after, tenantId, ty));
    var others, theirs := OthersNames(reg, sourceId, targetId, tenantId, ty), TheirNames(reg, sourceId, targetId, ty);
    var kept := KeptNames(reg, sourceId, targetId, tenantId, ty);
    NormalOfUnion(norm, others, theirs);
    assert others <= kept;
    assert Normal(norm, others) <= Normal(norm, kept);
  }

  /** Within one type nothing is gained, so only lost names matter. */
  lemma SameTypeMergeGainsNoName(norm: string -> string, reg: Registry, sourceId: nat, targetId: nat, tenantId: nat,
                                 ty: string)
    requires Found(reg, sourceId, tenantId) && Found(reg, targetId, tenantId)
    requires reg[sourceId].entityType == reg[targetId].entityType
    ensures GainsNoName(norm, reg, sourceId, targetId, tenantId, ty)
  {
    CarriedNamesAreTexts(reg[sourceId], reg[targetId]);
    assert KeptNames(reg, sourceId, targetId, tenantId, ty)
      <= OthersNames(reg, sourceId, targetId, tenantId, ty) + TheirNames(reg, sourceId, targetId, ty);
  }

  /** `merge_entities` does not ask for equal types. Across types the source's type keeps its resolutions exactly when
      all texts of the source belong to other entities of that type, and the target's type exactly when it keeps the
      target's texts and already knew everything the source brings. */
  lemma CrossTypeMergeKeepsResolutionIff(norm: string -> string, ratio: Similarity, reg: Registry, sourceId: nat,
                                         targetId: nat, tenantId: nat, order: seq<string>)
    requires ProperRatio(ratio) && ProperMerge(reg, sourceId, targetId, tenantId, order)
    requires reg[sourceId].entityType != reg[targetId].entityType
    ensures var ty := reg[sourceId].entityType;
      var after := MergeEntities(reg, sourceId, targetId, tenantId, order).registry;
      ResolveAlike(norm, ratio, NamesOf(reg, tenantId, ty), NamesOf(after, tenantId, ty)) <==>
        Normal(norm, TextSet(reg[sourceId])) <= Normal(norm, OthersNames(reg, sourceId, targetId, tenantId, ty))
    ensures var ty := reg[targetId].entityType;
      var after := MergeEntities(reg, sourceId, targetId, tenantId, order).registry;
      var others := OthersNames(reg, sourceId, targetId, tenantId, ty);
      var carried := CarriedNames(reg[sourceId], reg[targetId]);
      ResolveAlike(norm, ratio, NamesOf(reg, tenantId, ty), NamesOf(after, tenantId, ty)) <==>
        && Normal(norm, TextSet(reg[targetId])) <= Normal(norm, others + carried + {reg[targetId].name})
        && Normal(norm, carried) <= Normal(norm, others + TextSet(reg[targetId]))
  {
    var source, target := reg[sourceId], reg[targetId];
    MergeKeepsResolutionIff(norm, ratio, reg, sourceId, targetId, tenantId, order, source.entityType);
    MergeKeepsResolutionIff(norm, ratio, reg, sourceId, targetId, tenantId, order, target.entityType);
    assert TheirNames(reg, sourceId, targetId, source.entityType) == TextSet(source);
    assert TheirNames(reg, sourceId, targetId, target.entityType) == TextSet(target);
    var others := OthersNames(reg, sourceId, targetId, tenantId, target.entityType);
    var carried := CarriedNames(source, target);
    assert KeptNames(reg, sourceId, targetId, tenantId, target.entityType) == others + carried + {target.name};
    KnownPartsAreKnown(norm, others, carried, TextSet(target), target.name);
    assert Texts(target)[0] == target.name;
  }

  lemma KnownPartsAreKnown(norm: string -> string, others: set<string>, carried: set<string>, texts: set<string>,
                           name: string)
    requires name in texts
    ensures Normal(norm, others + carried + {name}) <= Normal(norm, others + texts)
      <==> Normal(norm, carried) <= Normal(norm, others + texts)
  {
    NormalOfUnion(norm, others + carried, {name});
    NormalOfUnion(norm, others, carried);
    NormalOfUnion(norm, others, texts);
    assert norm(name) in Normal(norm, texts);
  }

  /** No other tenant and no other type notices. */
  lemma MergeIsLocal(reg: Registry, sourceId: nat, targetId: nat, tenantId: nat, order: seq<string>, otherTenant: nat,
                     otherType: string)
    requires ProperMerge(reg, sourceId, targetId, tenantId, order)
    requires otherTenant != tenantId || otherType !in {reg[sourceId].entityType, reg[targetId].entityType}
    ensures NamesOf(MergeEntities(reg, sourceId, targetId, tenantId, order).registry, otherTenant, otherType)
      == NamesOf(reg, otherTenant, otherType)
  {
    var after := MergeEntities(reg, sourceId, targetId, tenantId, order).registry;
    forall id
      ensures id in reg && Selected(reg[id], otherTenant, otherType)
        <==> id in after && Selected(after[id], otherTenant, otherType)
      ensures id in reg && Selected(reg[id], otherTenant, otherType) ==> after[id] == reg[id]
    {
    }
  }

  // ---- Sequences of merges ----

  datatype MergeCall = MergeCall(sourceId: nat, targetId: nat, tenantId: nat, order: seq<string>)

  function ApplyMerge(reg: Registry, c: MergeCall): Registry {
    var r := MergeEntities(reg, c.sourceId, c.targetId, c.tenantId, c.order);
    if r.Merged? then r.registry else reg
  }

  function ApplyMerges(reg: Registry, calls: seq<MergeCall>): Registry {
    if calls == [] then reg else ApplyMerge(ApplyMerges(reg, calls[..|calls| - 1]), calls[|calls| - 1])
  }

  /** `list(set(names))`: every name once, in no particular order. */
  method ListOfSet(names: set<string>) returns (order: seq<string>)
    ensures Distinct(order) && forall n :: n in order <==> n in names
  {
    order := [];
    var rest := names;
    while rest != {}
      invariant rest <= names && Distinct(order)
      invariant forall n :: n in order <==> n in names && n !in rest
      decreases rest
    {
      var n :| n in rest;
      order, rest := order + [n], rest - {n};
    }
  }

  class EntityTable {
    var rows: Registry

    constructor (rows: Registry)
      ensures this.rows == rows
    {
      this.rows := rows;
    }

    /** Rewrites the target row, then deletes the source row. */
    method Merge(sourceId: nat, targetId: nat, tenantId: nat) returns (ok: bool, order: seq<string>)
      modifies this
      ensures ok <==> Found(old(rows), sourceId, tenantId) && Found(old(rows), targetId, tenantId)
      ensures ok ==> ProperMerge(old(rows), sourceId, targetId, tenantId, order) && Distinct(order)
      ensures rows == ApplyMerge(old(rows), MergeCall(sourceId, targetId, tenantId, order))
    {
      if !Found(rows, sourceId, tenantId) || !Found(rows, targetId, tenantId) {
        return false, [];
      }
      var source, target := rows[sourceId], rows[targetId];
      var combined := target.aliases.Carried() + source.aliases.Carried() + [source.name];
      order := ListOfSet(set n | n in combined);
      rows := rows[targetId := target.(aliases := Listed(order), metadata := target.metadata + source.metadata)];
      rows := rows - {sourceId};
      ok := true;
    }
  }

  ghost predicate AllListed(reg: Registry) {
    forall id :: id in reg ==> reg[id].aliases.Listed?
  }

  /** Two different entities of one type; a call that finds no source or no target changes nothing. */
  ghost predicate DistinctMerge(reg: Registry, c: MergeCall) {
    MergeEntities(reg, c.sourceId, c.targetId, c.tenantId, c.order).Merged? ==>
      && c.sourceId != c.targetId && reg[c.sourceId].entityType == reg[c.targetId].entityType
      && ProperMerge(reg, c.sourceId, c.targetId, c.tenantId, c.order)
  }

  ghost predicate DistinctMerges(reg: Registry, calls: seq<MergeCall>) {
    forall i :: 0 <= i < |calls| ==> DistinctMerge(ApplyMerges(reg, calls[..i]), calls[i])
  }

  /** With aliases stored as lists, any sequence of merges of distinct entities of one type leaves every resolution of
      every tenant and type unchanged. */
  lemma MergesKeepResolution(norm: string -> string, ratio: Similarity, reg: Registry, calls: seq<MergeCall>,
                             tenantId: nat, entityType: string)
    requires ProperRatio(ratio) && AllListed(reg) && DistinctMerges(reg, calls)
    ensures AllListed(ApplyMerges(reg, calls))
    ensures ResolveAlike(norm, ratio, NamesOf(reg, tenantId, entityType),
                         NamesOf(ApplyMerges(reg, calls), tenantId, entityType))
  {
    MergesKeepNames(reg, calls, tenantId, entityType);
    ResolveAlikeIff(norm, ratio, NamesOf(reg, tenantId, entityType),
                    NamesOf(ApplyMerges(reg, calls), tenantId, entityType));
  }

  lemma {:induction false} MergesKeepNames(reg: Registry, calls: seq<MergeCall>, tenantId: nat, entityType: string)
    requires AllListed(reg) && DistinctMerges(reg, calls)
    ensures AllListed(ApplyMerges(reg, calls))
    ensures NamesOf(reg, tenantId, entityType) == NamesOf(ApplyMerges(reg, calls), tenantId, entityType)
  {
    if calls != [] {
      var front, c := calls[..|calls| - 1], calls[|calls| - 1];
      forall i | 0 <= i < |front|
        ensures DistinctMerge(ApplyMerges(reg, front[..i]), front[i])
      {
        assert front[..i] == calls[..i];
      }
      MergesKeepNames(reg, front, tenantId, entityType);
      DistinctMergeKeepsNames(ApplyMerges(reg, front), c, tenantId, entityType);
    }
  }

  lemma DistinctMergeKeepsNames(reg: Registry, c: MergeCall, tenantId: nat, entityType: string)
    requires AllListed(reg) && DistinctMerge(reg, c)
    ensures AllListed(ApplyMerge(reg, c))
    ensures NamesOf(reg, tenantId, entityType) == NamesOf(ApplyMerge(reg, c), tenantId, entityType)
  {
    if MergeEntities(reg, c.sourceId, c.targetId, c.tenantId, c.order).Merged? {
      if tenantId == c.tenantId && entityType == reg[c.sourceId].entityType {
        var source, target := reg[c.sourceId], reg[c.targetId];
        NamesAfterMerge(reg, c.sourceId, c.targetId, c.tenantId, c.order, entityType);
        NamesBeforeMerge(reg, c.sourceId, c.targetId, c.tenantId, entityType);
        CarriedNamesAreTexts(source, target);
        assert TextSet(source) + TextSet(target) <= CarriedNames(source, target) + {target.name};
      } else {
        MergeIsLocal(reg, c.sourceId, c.targetId, c.tenantId, c.order, tenantId, entityType);
      }
    }
  }
}
