/** Links from a work order to incidents, and the conflicts found along them (`WorkOrderIncidentLinker`). */
module IncidentLinks {
  import opened Foundation
  import opened MarginModel
  import opened Sequences

  /** The scheduling side of a work order. `start` is its scheduled date or, failing that, its scheduled start. */
  datatype ScheduledWork = ScheduledWork(
    workOrderId: string, location: string, siteId: string, description: string, start: Option<int>, end: Option<int>,
    assignedTo: string, priority: string)

  datatype Link = Link(
    sourceId: string, targetId: string, confidence: real, serviceMatch: bool, locationMatch: bool, timeMatch: bool)

  const HOUR := 3_600_000_000
  const WINDOW := 48 * HOUR

  // ---- Signals ----

  predicate ServiceNamed(tools: TextTools, wo: ScheduledWork, service: string) {
    var s := tools.strip(tools.lower(service));
    s != "" && (Occurs(s, tools.lower(tools.strip(wo.description))) || Occurs(s, tools.lower(tools.strip(wo.location))))
  }

  predicate ServiceMatched(tools: TextTools, wo: ScheduledWork, inc: Incident) {
    exists i :: 0 <= i < |inc.affectedServices| && ServiceNamed(tools, wo, inc.affectedServices[i])
  }

  predicate SameSite(tools: TextTools, wo: ScheduledWork, inc: Incident) {
    var a, b := tools.strip(wo.siteId), tools.strip(inc.siteId);
    a != "" && b != "" && tools.lower(a) == tools.lower(b)
  }

  function LocationSimilarity(tools: TextTools, wo: ScheduledWork, inc: Incident): real {
    TextSimilarity(tools, tools.strip(wo.location), tools.strip(inc.location))
  }

  predicate LocationMatched(tools: TextTools, wo: ScheduledWork, inc: Incident) {
    SameSite(tools, wo, inc) || LocationSimilarity(tools, wo, inc) >= SIMILARITY_THRESHOLD
  }

  /** The incident falls between two days before the start and the later of the end and two days after the start. */
  predicate TimeMatched(start: Option<int>, end: Option<int>, created: Option<int>) {
    && start.Some? && created.Some?
    && start.value - WINDOW <= created.value <= Max(end.GetOr(start.value + WINDOW), start.value + WINDOW)
  }

  function MaxReal(a: real, b: real): real {
    if a >= b then a else b
  }

  function DescriptionSimilarity(tools: TextTools, wo: ScheduledWork, inc: Incident): real {
    var desc := tools.strip(wo.description);
    MaxReal(TextSimilarity(tools, desc, tools.strip(inc.description)),
            TextSimilarity(tools, desc, tools.strip(inc.title)))
  }

  function LocationWeight(tools: TextTools, wo: ScheduledWork, inc: Incident): real {
    if SameSite(tools, wo, inc) then 0.30 else 0.30 * LocationSimilarity(tools, wo, inc)
  }

  function Signals(tools: TextTools, wo: ScheduledWork, inc: Incident): seq<real> {
    When(ServiceMatched(tools, wo, inc), 0.35)
    + When(LocationMatched(tools, wo, inc), LocationWeight(tools, wo, inc))
    + When(TimeMatched(wo.start, wo.end, inc.createdAt), 0.25)
    + When(DescriptionSimilarity(tools, wo, inc) >= SIMILARITY_THRESHOLD, 0.10 * DescriptionSimilarity(tools, wo, inc))
  }

  function Identity(): real -> real {
    (x: real) => x
  }

  function Total(signals: seq<real>): real {
    SumOf(Identity(), signals)
  }

  function LinkFinder(tools: TextTools, wo: ScheduledWork): Incident -> seq<Link> {
    (inc: Incident) =>
      var signals := Signals(tools, wo, inc);
      if |signals| < 2 then []
      else
        [Link(tools.strip(wo.workOrderId), tools.strip(inc.incidentId),
              if Total(signals) <= 1.0 then Total(signals) else 1.0, ServiceMatched(tools, wo, inc),
              LocationMatched(tools, wo, inc), TimeMatched(wo.start, wo.end, inc.createdAt))]
  }

  method AnyServiceNamed(tools: TextTools, wo: ScheduledWork, inc: Incident) returns (service: bool)
    ensures service == ServiceMatched(tools, wo, inc)
  {
    service := false;
    var i := 0;
    while i < |inc.affectedServices| && !service
      invariant 0 <= i <= |inc.affectedServices|
      invariant service <==> exists j :: 0 <= j < i && ServiceNamed(tools, wo, inc.affectedServices[j])
    {
      service := ServiceNamed(tools, wo, inc.affectedServices[i]);
      i := i + 1;
    }
  }

  method LocationSignal(tools: TextTools, wo: ScheduledWork, inc: Incident) returns (signals: seq<real>, location: bool)
    ensures location == LocationMatched(tools, wo, inc)
    ensures signals == When(location, LocationWeight(tools, wo, inc))
  {
    signals, location := [], false;
    var similarity := LocationSimilarity(tools, wo, inc);
    if SameSite(tools, wo, inc) {
      location, signals := true, [0.30];
    } else if tools.strip(wo.location) != "" && tools.strip(inc.location) != "" && similarity >= SIMILARITY_THRESHOLD {
      location, signals := true, [0.30 * similarity];
    }
  }

  method WithinWindow(wo: ScheduledWork, inc: Incident) returns (time: bool)
    ensures time == TimeMatched(wo.start, wo.end, inc.createdAt)
  {
    time := false;
    if wo.start.Some? && inc.createdAt.Some? {
      var s, created := wo.start.value, inc.createdAt.value;
      var effectiveEnd := if wo.end.Some? then Max(wo.end.value, s + WINDOW) else s + WINDOW;
      time := s - WINDOW <= created <= effectiveEnd;
    }
  }

  method CollectSignals(tools: TextTools, wo: ScheduledWork, inc: Incident)
    returns (signals: seq<real>, service: bool, location: bool, time: bool)
    ensures signals == Signals(tools, wo, inc)
    ensures service == ServiceMatched(tools, wo, inc) && location == LocationMatched(tools, wo, inc)
    ensures time == TimeMatched(wo.start, wo.end, inc.createdAt)
  {
    service := AnyServiceNamed(tools, wo, inc);
    signals := When(service, 0.35);
    var place: seq<real>;
    place, location := LocationSignal(tools, wo, inc);
    signals := signals + place;
    time := WithinWindow(wo, inc);
    signals := signals + When(time, 0.25);
    var text := DescriptionSimilarity(tools, wo, inc);
    signals := signals + When(text >= SIMILARITY_THRESHOLD, 0.10 * text);
  }

  method LinkIncidents(tools: TextTools, wo: ScheduledWork, incidents: seq<Incident>) returns (links: seq<Link>)
    ensures links == FlatMap(LinkFinder(tools, wo), incidents)
  {
    links := [];
    for i := 0 to |incidents|
      invariant links == FlatMap(LinkFinder(tools, wo), incidents[..i])
    {
      FlatMapStep(LinkFinder(tools, wo), incidents, i);
      var signals, service, location, time := CollectSignals(tools, wo, incidents[i]);
      if |signals| >= 2 {
        var confidence := if Total(signals) <= 1.0 then Total(signals) else 1.0;
        links := links + [Link(tools.strip(wo.workOrderId), tools.strip(incidents[i].incidentId), confidence, service,
                               location, time)];
      }
    }
    assert incidents[..|incidents|] == incidents;
  }

  lemma TotalOfWhen(condition: bool, x: real)
    ensures Total(When(condition, x)) == if condition then x else 0.0
  {
    if condition {
      assert SumOf(Identity(), [x]) == SumOf(Identity(), [x][..0]) + Identity()(x);
    }
  }

  /** Two signals are worth at least 0.22, and all four together never exceed 1, so the clamp does nothing. */
  lemma ConfidenceRange(tools: TextTools, wo: ScheduledWork, inc: Incident)
    requires SimilarityInRange(tools)
    ensures Total(Signals(tools, wo, inc)) <= 1.0
    ensures |Signals(tools, wo, inc)| >= 2 ==> Total(Signals(tools, wo, inc)) >= 0.22
  {
    var location := LocationWeight(tools, wo, inc);
    var text := DescriptionSimilarity(tools, wo, inc);
    var a := When(ServiceMatched(tools, wo, inc), 0.35);
    var b := When(LocationMatched(tools, wo, inc), location);
    var c := When(TimeMatched(wo.start, wo.end, inc.createdAt), 0.25);
    var d := When(text >= SIMILARITY_THRESHOLD, 0.10 * text);
    SumSplits(Identity(), a + b + c, d);
    SumSplits(Identity(), a + b, c);
    SumSplits(Identity(), a, b);
    TotalOfWhen(ServiceMatched(tools, wo, inc), 0.35);
    TotalOfWhen(LocationMatched(tools, wo, inc), location);
    TotalOfWhen(TimeMatched(wo.start, wo.end, inc.createdAt), 0.25);
    TotalOfWhen(text >= SIMILARITY_THRESHOLD, 0.10 * text);
    assert Total(Signals(tools, wo, inc)) == Total(a) + Total(b) + Total(c) + Total(d);
  }

  // ---- Conflicts along links ----

  datatype LinkConflict = Timing(severity: Severity) | Ownership | SeverityAlignment

  function TimingConflict(start: Option<int>, end: Option<int>, created: Option<int>): Option<Severity> {
    if start.None? || created.None? then None
    else if created.value > start.value then
      if created.value - start.value > WINDOW then Some(Warning) else None
    else if end.Some? && created.value < end.value then None
    else if end.Some? && created.value > end.value then Some(Error)
    else None
  }

  function ExpectedPriorities(severity: string): set<string> {
    match severity
    case "p1" => {"emergency", "critical", "high"}
    case "p2" => {"high", "urgent"}
    case "p3" => {"normal", "medium"}
    case "p4" => {"low"}
    case _ => {}
  }

  function PairConflicts(tools: TextTools, wo: ScheduledWork, inc: Incident): seq<LinkConflict> {
    var timing := TimingConflict(wo.start, wo.end, inc.createdAt);
    var mine, theirs := tools.strip(wo.assignedTo), tools.strip(inc.assignedTo);
    var expected := ExpectedPriorities(tools.strip(inc.severity));
    (if timing.Some? then [Timing(timing.value)] else [])
    + (if mine != "" && theirs != "" && tools.lower(mine) != tools.lower(theirs) then [Ownership] else [])
    + (if expected != {} && tools.lower(tools.strip(wo.priority)) !in expected then [SeverityAlignment] else [])
  }

  /** The last incident of the list under each non-empty id. */
  function IncidentMap(tools: TextTools, incidents: seq<Incident>): map<string, Incident> {
    if incidents == [] then map[]
    else
      var front, last := IncidentMap(tools, incidents[..|incidents| - 1]), incidents[|incidents| - 1];
      var id := tools.strip(last.incidentId);
      if id != "" then front[id := last] else front
  }

  function ConflictFinder(tools: TextTools, wo: ScheduledWork, known: map<string, Incident>)
    : Link -> seq<LinkConflict>
  {
    (link: Link) => if link.targetId in known then PairConflicts(tools, wo, known[link.targetId]) else []
  }

  method DetectConflicts(tools: TextTools, links: seq<Link>, wo: ScheduledWork, incidents: seq<Incident>)
    returns (conflicts: seq<LinkConflict>)
    ensures conflicts == FlatMap(ConflictFinder(tools, wo, IncidentMap(tools, incidents)), links)
  {
    var known: map<string, Incident> := map[];
    for i := 0 to |incidents|
      invariant known == IncidentMap(tools, incidents[..i])
    {
      assert incidents[..i + 1][..i] == incidents[..i];
      var id := tools.strip(incidents[i].incidentId);
      if id != "" {
        known := known[id := incidents[i]];
      }
    }
    assert incidents[..|incidents|] == incidents;

    conflicts := [];
    for i := 0 to |links|
      invariant conflicts == FlatMap(ConflictFinder(tools, wo, known), links[..i])
    {
      FlatMapStep(ConflictFinder(tools, wo, known), links, i);
      if links[i].targetId in known {
        conflicts := conflicts + PairConflicts(tools, wo, known[links[i].targetId]);
      }
    }
    assert links[..|links|] == links;
  }

  // ---- Signals and conflicts in numbers and words ----

  ghost predicate IsRatio(tools: TextTools, a: string, b: string, x: real) {
    x == if a == "" || b == "" then 0.0 else tools.similarity(tools.strip(tools.lower(a)), tools.strip(tools.lower(b)))
  }

  /** An affected service that the order's description or location mentions. */
  ghost predicate MentionsService(tools: TextTools, wo: ScheduledWork, inc: Incident) {
    exists s :: s in inc.affectedServices && var name := tools.strip(tools.lower(s));
      && name != ""
      && (Occurs(name, tools.lower(tools.strip(wo.description))) || Occurs(name, tools.lower(tools.strip(wo.location))))
  }

  predicate OnOneSite(tools: TextTools, wo: ScheduledWork, inc: Incident) {
    && tools.strip(wo.siteId) != "" && tools.strip(inc.siteId) != ""
    && tools.lower(tools.strip(wo.siteId)) == tools.lower(tools.strip(inc.siteId))
  }

  /** From 48 hours before the start until 48 hours after it or, if that is later, until the end. */
  predicate InTime(wo: ScheduledWork, inc: Incident) {
    && wo.start.Some? && inc.createdAt.Some?
    && var since := inc.createdAt.value - wo.start.value;
      && -172_800_000_000 <= since
      && (since <= 172_800_000_000 || (wo.end.Some? && inc.createdAt.value <= wo.end.value))
  }

  /** The signals and what each is worth; `place`, `text` and `title` are how alike the locations and the texts are. */
  lemma SignalsInNumbers(tools: TextTools, wo: ScheduledWork, inc: Incident, place: real, text: real, title: real)
    requires IsRatio(tools, tools.strip(wo.location), tools.strip(inc.location), place)
    requires IsRatio(tools, tools.strip(wo.description), tools.strip(inc.description), text)
    requires IsRatio(tools, tools.strip(wo.description), tools.strip(inc.title), title)
    ensures Signals(tools, wo, inc) ==
      var best := if text >= title then text else title;
      When(MentionsService(tools, wo, inc), 0.35)
      + (if OnOneSite(tools, wo, inc) then [0.30] else When(place >= 0.55, 0.30 * place))
      + When(InTime(wo, inc), 0.25)
      + When(best >= 0.55, 0.10 * best)
  {
    assert MentionsService(tools, wo, inc) <==> ServiceMatched(tools, wo, inc) by {
      assert forall s ::
        s in inc.affectedServices <==> exists i :: 0 <= i < |inc.affectedServices| && inc.affectedServices[i] == s;
    }
    assert LocationSimilarity(tools, wo, inc) == place;
    assert DescriptionSimilarity(tools, wo, inc) == if text >= title then text else title;
  }

  /** The conflicts of a pair. Timing: created more than 48 hours after the start, a warning, or after the end but not
      after the start, an error. Ownership: two named owners that differ. Alignment: a priority the severity does not
      accept. */
  lemma PairConflictIff(tools: TextTools, wo: ScheduledWork, inc: Incident, c: LinkConflict)
    ensures c in PairConflicts(tools, wo, inc) <==>
      match c
      case Timing(severity) =>
        && wo.start.Some? && inc.createdAt.Some?
        && ((severity == Warning && inc.createdAt.value > wo.start.value + 172_800_000_000)
            || (severity == Error && wo.end.Some? && wo.end.value < inc.createdAt.value <= wo.start.value))
      case Ownership =>
        && tools.strip(wo.assignedTo) != "" && tools.strip(inc.assignedTo) != ""
        && tools.lower(tools.strip(wo.assignedTo)) != tools.lower(tools.strip(inc.assignedTo))
      case SeverityAlignment =>
        var severity, priority := tools.strip(inc.severity), tools.lower(tools.strip(wo.priority));
        || (severity == "p1" && priority !in {"emergency", "critical", "high"})
        || (severity == "p2" && priority !in {"high", "urgent"})
        || (severity == "p3" && priority !in {"normal", "medium"})
        || (severity == "p4" && priority != "low")
  {
    match c
    case Timing(severity) => TimingConflictFound(tools, wo, inc, severity);
    case Ownership =>
    case SeverityAlignment => AcceptedPriorities(tools.strip(inc.severity), tools.lower(tools.strip(wo.priority)));
  }

  lemma AcceptedPriorities(severity: string, priority: string)
    ensures ExpectedPriorities(severity) != {} && priority !in ExpectedPriorities(severity) <==>
      || (severity == "p1" && priority !in {"emergency", "critical", "high"})
      || (severity == "p2" && priority !in {"high", "urgent"})
      || (severity == "p3" && priority !in {"normal", "medium"})
      || (severity == "p4" && priority != "low")
  {
    assert "emergency" in {"emergency", "critical", "high"} && "high" in {"high", "urgent"};
    assert "normal" in {"normal", "medium"} && "low" in {"low"};
  }

  // ---- When a time-matched link can conflict on timing ----

  predicate SoundSchedule(start: int, end: Option<int>) {
    end.Some? ==> start <= end.value <= start + WINDOW
  }

  ghost predicate MatchedYetConflicting(start: int, end: Option<int>, created: int) {
    TimeMatched(Some(start), end, Some(created)) && TimingConflict(Some(start), end, Some(created)).Some?
  }

  /** A schedule allows a time-matched incident with a timing conflict exactly when it ends before it starts or more
      than two days after. */
  lemma MatchAndConflictExcludeIffSound(start: int, end: Option<int>)
    ensures (forall created :: !MatchedYetConflicting(start, end, created)) <==> SoundSchedule(start, end)
  {
    if !SoundSchedule(start, end) {
      assert MatchedYetConflicting(start, end, if end.value < start then start else end.value);
    }
  }

  /** The post-completion branch is reachable only for a schedule that ends before it starts. */
  lemma PostCompletionReachableIff(start: int, end: Option<int>)
    ensures (exists created :: TimingConflict(Some(start), end, Some(created)) == Some(Error))
      <==> end.Some? && end.value < start
  {
    if end.Some? && end.value < start {
      assert TimingConflict(Some(start), end, Some(start)) == Some(Error);
    }
  }

  // ---- End to end: linking, then conflict detection ----

  function IdOf(tools: TextTools, inc: Incident): string {
    tools.strip(inc.incidentId)
  }

  /** `j` is the last position whose incident has the id of incident `i`: the one `incident_map` holds. */
  ghost predicate LastBearer(tools: TextTools, incidents: seq<Incident>, i: int, j: int) {
    && 0 <= i < |incidents| && 0 <= j < |incidents|
    && IdOf(tools, incidents[i]) == IdOf(tools, incidents[j])
    && forall k :: j < k < |incidents| ==> IdOf(tools, incidents[k]) != IdOf(tools, incidents[j])
  }

  lemma {:induction false} IncidentMapHoldsLastBearer(tools: TextTools, incidents: seq<Incident>, i: nat)
    returns (j: nat)
    requires i < |incidents| && IdOf(tools, incidents[i]) != ""
    ensures LastBearer(tools, incidents, i, j)
    ensures IdOf(tools, incidents[i]) in IncidentMap(tools, incidents)
    ensures IncidentMap(tools, incidents)[IdOf(tools, incidents[i])] == incidents[j]
  {
    var n := |incidents| - 1;
    if IdOf(tools, incidents[n]) == IdOf(tools, incidents[i]) {
      j := n;
    } else {
      j := IncidentMapHoldsLastBearer(tools, incidents[..n], i);
      assert LastBearer(tools, incidents[..n], i, j);
      forall k | j < k < |incidents|
        ensures IdOf(tools, incidents[k]) != IdOf(tools, incidents[j])
      {
        if k < n {
          assert incidents[..n][k] == incidents[k];
        }
      }
    }
  }

  lemma {:induction false} BlankIdIsUnknown(tools: TextTools, incidents: seq<Incident>)
    ensures "" !in IncidentMap(tools, incidents)
  {
    if incidents != [] {
      BlankIdIsUnknown(tools, incidents[..|incidents| - 1]);
    }
  }

  /** The incident shares two signals with the work order and can be found again by its id. */
  ghost predicate Linked(tools: TextTools, wo: ScheduledWork, inc: Incident) {
    |Signals(tools, wo, inc)| >= 2 && IdOf(tools, inc) != ""
  }

  /** Incident `i` is linked, and the last incident with its id makes the pair conflict in this way. */
  ghost predicate ConflictsAlong(tools: TextTools, wo: ScheduledWork, incidents: seq<Incident>, i: int, j: int,
                                 c: LinkConflict)
  {
    && LastBearer(tools, incidents, i, j)
    && Linked(tools, wo, incidents[i]) && c in PairConflicts(tools, wo, incidents[j])
  }

  ghost predicate Reported(tools: TextTools, wo: ScheduledWork, incidents: seq<Incident>, c: LinkConflict) {
    c in FlatMap(ConflictFinder(tools, wo, IncidentMap(tools, incidents)), FlatMap(LinkFinder(tools, wo), incidents))
  }

  lemma LinkYieldsIffConflicting(tools: TextTools, wo: ScheduledWork, incidents: seq<Incident>, i: nat, c: LinkConflict)
    requires i < |incidents|
    ensures Yields(LinkFinder(tools, wo), ConflictFinder(tools, wo, IncidentMap(tools, incidents)), incidents[i], c)
      <==> exists j :: ConflictsAlong(tools, wo, incidents, i, j, c)
  {
    BlankIdIsUnknown(tools, incidents);
    var links := LinkFinder(tools, wo)(incidents[i]);
    if links != [] {
      assert links[0] in links;
    }
    if IdOf(tools, incidents[i]) != "" {
      var j := IncidentMapHoldsLastBearer(tools, incidents, i);
      assert forall m :: LastBearer(tools, incidents, i, m) ==> m == j;
      assert ConflictsAlong(tools, wo, incidents, i, j, c) <==>
        Linked(tools, wo, incidents[i]) && c in PairConflicts(tools, wo, incidents[j]);
    }
  }

  /** For every list of incidents: a conflict is reported exactly when some incident shares two signals with the work
      order, has an id, and the last incident with that id conflicts in this way. */
  lemma ReportedIffConflicting(tools: TextTools, wo: ScheduledWork, incidents: seq<Incident>, c: LinkConflict)
    ensures Reported(tools, wo, incidents, c) <==> exists i, j :: ConflictsAlong(tools, wo, incidents, i, j, c)
  {
    var finder, conflicts := LinkFinder(tools, wo), ConflictFinder(tools, wo, IncidentMap(tools, incidents));
    FlatMapTwiceMembers(finder, conflicts, incidents, c);
    forall i | 0 <= i < |incidents|
      ensures Yields(finder, conflicts, incidents[i], c) <==> exists j :: ConflictsAlong(tools, wo, incidents, i, j, c)
    {
      LinkYieldsIffConflicting(tools, wo, incidents, i, c);
    }
  }

  ghost predicate MatchedLinkConflict(tools: TextTools, wo: ScheduledWork, incidents: seq<Incident>, link: Link,
                                      severity: Severity)
  {
    && link in FlatMap(LinkFinder(tools, wo), incidents) && link.timeMatch
    && Timing(severity) in ConflictFinder(tools, wo, IncidentMap(tools, incidents))(link)
  }

  /** Some link that was matched on time leads to a timing conflict. */
  ghost predicate MatchedLinkConflicts(tools: TextTools, wo: ScheduledWork, incidents: seq<Incident>) {
    exists link, severity :: MatchedLinkConflict(tools, wo, incidents, link, severity)
  }

  /** Created more than two days after the start, or before it but after the end. */
  predicate OffSchedule(wo: ScheduledWork, inc: Incident) {
    && wo.start.Some? && inc.createdAt.Some?
    && (inc.createdAt.value > wo.start.value + WINDOW
        || (wo.end.Some? && wo.end.value < inc.createdAt.value <= wo.start.value))
  }

  lemma TimingConflictFound(tools: TextTools, wo: ScheduledWork, inc: Incident, severity: Severity)
    ensures Timing(severity) in PairConflicts(tools, wo, inc)
      <==> TimingConflict(wo.start, wo.end, inc.createdAt) == Some(severity)
  {
    if TimingConflict(wo.start, wo.end, inc.createdAt).Some? {
      assert PairConflicts(tools, wo, inc)[0].Timing?;
    }
  }

  lemma TimingConflictIffOffSchedule(tools: TextTools, wo: ScheduledWork, inc: Incident)
    ensures (exists severity :: Timing(severity) in PairConflicts(tools, wo, inc)) <==> OffSchedule(wo, inc)
  {
    var timing := TimingConflict(wo.start, wo.end, inc.createdAt);
    if timing.Some? {
      assert PairConflicts(tools, wo, inc)[0] == Timing(timing.value);
    }
  }

  /** Incident `i` is linked and matched on time, but the last incident with its id lies off the schedule. */
  ghost predicate MatchedThenReplaced(tools: TextTools, wo: ScheduledWork, incidents: seq<Incident>, i: int, j: int) {
    && LastBearer(tools, incidents, i, j) && Linked(tools, wo, incidents[i])
    && TimeMatched(wo.start, wo.end, incidents[i].createdAt) && OffSchedule(wo, incidents[j])
  }

  /** The exact condition, for every schedule and every list: a time-matched link leads to a timing conflict exactly
      when the last incident with the id of some linked, time-matched incident lies off the schedule. */
  lemma MatchedLinkConflictsIff(tools: TextTools, wo: ScheduledWork, incidents: seq<Incident>)
    ensures MatchedLinkConflicts(tools, wo, incidents)
      <==> exists i, j :: MatchedThenReplaced(tools, wo, incidents, i, j)
  {
    var finder := LinkFinder(tools, wo);
    BlankIdIsUnknown(tools, incidents);
    if link, severity :| MatchedLinkConflict(tools, wo, incidents, link, severity) {
      FlatMapMembers(finder, incidents, link);
      var i :| 0 <= i < |incidents| && link in finder(incidents[i]);
      var j := IncidentMapHoldsLastBearer(tools, incidents, i);
      TimingConflictIffOffSchedule(tools, wo, incidents[j]);
      assert MatchedThenReplaced(tools, wo, incidents, i, j);
    }
    if i, j :| MatchedThenReplaced(tools, wo, incidents, i, j) {
      var last := IncidentMapHoldsLastBearer(tools, incidents, i);
      assert last == j;
      var link := finder(incidents[i])[0];
      assert link in finder(incidents[i]);
      FlatMapMembers(finder, incidents, link);
      TimingConflictIffOffSchedule(tools, wo, incidents[j]);
      var severity :| Timing(severity) in PairConflicts(tools, wo, incidents[j]);
      assert MatchedLinkConflict(tools, wo, incidents, link, severity);
    }
  }

  /** Incidents without an id may be many: they are linked but never looked up again. */
  ghost predicate DistinctIds(tools: TextTools, incidents: seq<Incident>) {
    forall i, j :: 0 <= i < j < |incidents| && IdOf(tools, incidents[i]) != "" ==>
      IdOf(tools, incidents[i]) != IdOf(tools, incidents[j])
  }

  ghost predicate LateConflict(tools: TextTools, wo: ScheduledWork, inc: Incident) {
    Linked(tools, wo, inc) && !TimeMatched(wo.start, wo.end, inc.createdAt) && OffSchedule(wo, inc)
  }

  /** For a sound schedule, a time-matched link can conflict on timing only because a later incident repeats its id. */
  lemma SoundMatchConflictsOnlyOnRepeatedId(tools: TextTools, wo: ScheduledWork, incidents: seq<Incident>,
                                            i: int, j: int)
    requires wo.start.Some? ==> SoundSchedule(wo.start.value, wo.end)
    requires MatchedThenReplaced(tools, wo, incidents, i, j)
    ensures i < j && incidents[j].createdAt.value > wo.start.value + WINDOW && !DistinctIds(tools, incidents)
  {
    MatchAndConflictExcludeIffSound(wo.start.value, wo.end);
    assert !MatchedYetConflicting(wo.start.value, wo.end, incidents[i].createdAt.value);
    assert i != j;
  }

  /** So with distinct ids no time-matched link conflicts on timing ... */
  lemma SoundMatchesDoNotConflict(tools: TextTools, wo: ScheduledWork, incidents: seq<Incident>)
    requires wo.start.Some? ==> SoundSchedule(wo.start.value, wo.end)
    requires DistinctIds(tools, incidents)
    ensures !MatchedLinkConflicts(tools, wo, incidents)
  {
    MatchedLinkConflictsIff(tools, wo, incidents);
    if m, n :| MatchedThenReplaced(tools, wo, incidents, m, n) {
      SoundMatchConflictsOnlyOnRepeatedId(tools, wo, incidents, m, n);
    }
  }

  lemma SoundConflictIsLate(tools: TextTools, wo: ScheduledWork, inc: Incident, severity: Severity)
    requires wo.start.Some? ==> SoundSchedule(wo.start.value, wo.end)
    requires Linked(tools, wo, inc) && Timing(severity) in PairConflicts(tools, wo, inc)
    ensures severity == Warning && LateConflict(tools, wo, inc)
  {
    TimingConflictFound(tools, wo, inc, severity);
    MatchAndConflictExcludeIffSound(wo.start.value, wo.end);
    assert !MatchedYetConflicting(wo.start.value, wo.end, inc.createdAt.value);
  }

  /** ... and every timing conflict reported is a warning about an incident that its link did not match on time. */
  lemma TimingConflictsAreUnmatched(tools: TextTools, wo: ScheduledWork, incidents: seq<Incident>, severity: Severity)
    requires wo.start.Some? ==> SoundSchedule(wo.start.value, wo.end)
    requires DistinctIds(tools, incidents) && Reported(tools, wo, incidents, Timing(severity))
    ensures severity == Warning
    ensures exists i :: 0 <= i < |incidents| && LateConflict(tools, wo, incidents[i])
  {
    ReportedIffConflicting(tools, wo, incidents, Timing(severity));
    var i, j :| ConflictsAlong(tools, wo, incidents, i, j, Timing(severity));
    assert i == j;
    SoundConflictIsLate(tools, wo, incidents[i], severity);
  }

  lemma SameSiteAndTimeLink(tools: TextTools, wo: ScheduledWork, inc: Incident)
    requires SameSite(tools, wo, inc) && TimeMatched(wo.start, wo.end, inc.createdAt)
    ensures |Signals(tools, wo, inc)| >= 2
  {
  }

  /** A repeated id breaks it: the work order is linked to an incident on its own site at its own start, and the
      conflict is found with an unrelated incident of the same id, two days and a microsecond later. */
  lemma RepeatedIdMakesMatchConflict(tools: TextTools, wo: ScheduledWork, incidents: seq<Incident>)
    requires tools.strip("INC-1") != "" && tools.strip("SITE-1") != ""
    requires wo.siteId == "SITE-1" && wo.start == Some(0) && wo.end == None
    requires incidents == [
      Incident("INC-1", [], "", "", Some(0), "", "SITE-1", "", "", ""),
      Incident("INC-1", [], "", "", Some(WINDOW + 1), "", "SITE-2", "", "", "")]
    ensures SoundSchedule(0, wo.end) && MatchedLinkConflicts(tools, wo, incidents)
    ensures Reported(tools, wo, incidents, Timing(Warning))
  {
    SameSiteAndTimeLink(tools, wo, incidents[0]);
    assert LastBearer(tools, incidents, 0, 1);
    assert MatchedThenReplaced(tools, wo, incidents, 0, 1);
    MatchedLinkConflictsIff(tools, wo, incidents);
    TimingConflictFound(tools, wo, incidents[1], Warning);
    assert ConflictsAlong(tools, wo, incidents, 0, 1, Timing(Warning));
    ReportedIffConflicting(tools, wo, incidents, Timing(Warning));
  }
}
