/** The nine-state lifecycle of one control object: a record, the commands that may be applied to it,
    and what holds of every run of commands. */
module ControlLifecycle {
  import opened Foundation

  type Id = nat

  datatype ControlState =
    | Draft | Active | Enriched | Frozen | Reconciled | Disputed | Actioned | Superseded | Deprecated

  datatype Audit = Audit(actor: string, action: string, timestamp: int)

  datatype Evidence = Evidence(evidenceId: Id, kind: string)

  datatype ControlRecord = ControlRecord(
    tenantId: Id, state: ControlState, version: int, payload: map<string, Opaque>, evidence: seq<Evidence>,
    supersededBy: Option<Id>, derivedFrom: seq<Id>, auditTrail: seq<Audit>, updatedAt: int)

  /** Every public mutation. `mark_reconciled`, `mark_disputed`, `mark_actioned`, `deprecate` and `activate`
      are `Transition` to the state they name. */
  datatype Command =
    | Transition(target: ControlState, audit: Audit)
    | Enrich(update: map<string, Opaque>, audit: Audit)
    | AttachEvidence(item: Evidence)
    | Freeze(audit: Audit)
    | Supersede(newVersion: Id, audit: Audit)

  datatype Outcome = Done | StateError | FrozenError

  function ValidTransitions(s: ControlState): set<ControlState> {
    match s
    case Draft => {Active}
    case Active => {Enriched, Frozen, Superseded, Deprecated}
    case Enriched => {Frozen, Active, Superseded, Deprecated}
    case Frozen => {Reconciled, Disputed, Active}
    case Reconciled => {Actioned, Disputed, Active}
    case Disputed => {Active, Frozen, Deprecated}
    case Actioned => {Superseded, Deprecated}
    case Superseded => {}
    case Deprecated => {}
  }

  function Move(r: ControlRecord, target: ControlState, audit: Audit, now: int): (ControlRecord, Outcome) {
    if target !in ValidTransitions(r.state) then (r, StateError)
    else (r.(state := target, updatedAt := now, auditTrail := r.auditTrail + [audit]), Done)
  }

  /** The record after one command, and how the call ended. A call that raises may still have written:
      `Supersede` stores the link before the transition is checked. */
  function Execute(r: ControlRecord, c: Command, now: int): (ControlRecord, Outcome) {
    match c
    case Transition(target, audit) => Move(r, target, audit, now)
    case Enrich(update, audit) =>
      if r.state == Frozen then (r, FrozenError)
      else
        var merged := r.(payload := r.payload + update);
        if r.state == Active then Move(merged, Enriched, audit, now)
        else (merged.(updatedAt := now, auditTrail := r.auditTrail + [audit]), Done)
    case AttachEvidence(item) =>
      if r.state == Frozen then (r, FrozenError)
      else (r.(evidence := r.evidence + [item], updatedAt := now), Done)
    case Freeze(audit) =>
      if r.state == Active || r.state == Enriched then Move(r, Frozen, audit, now) else (r, StateError)
    case Supersede(newVersion, audit) => Move(r.(supersededBy := Some(newVersion)), Superseded, audit, now)
  }

  /** A refused command writes nothing, except that a refused `supersede` leaves its link behind. */
  lemma RefusalWritesAtMostTheLink(r: ControlRecord, c: Command, now: int)
    requires Execute(r, c, now).1 != Done
    ensures Execute(r, c, now).0 == if c.Supersede? then r.(supersededBy := Some(c.newVersion)) else r
  {
    match c
    case Transition(_, _) =>
    case Enrich(_, _) =>
    case AttachEvidence(_) =>
    case Freeze(_) =>
    case Supersede(_, _) =>
  }

  /** `freeze` is stricter than the transition table: they part exactly on a DISPUTED object, which only
      `transition_state` can freeze again. */
  lemma FreezeDiffersFromTableIff(r: ControlRecord, audit: Audit, now: int)
    ensures Execute(r, Freeze(audit), now) != Execute(r, Transition(Frozen, audit), now) <==> r.state == Disputed
  {
    assert Execute(r, Transition(Frozen, audit), now).1 == Done <==> r.state in {Active, Enriched, Disputed};
  }

  /** The way into every state: which objects a transition accepts, and that it refuses all others. */
  lemma TransitionSucceedsIff(r: ControlRecord, target: ControlState, audit: Audit, now: int)
    ensures Execute(r, Transition(target, audit), now).1 == Done <==>
      match target
      case Draft => false
      case Active => r.state in {Draft, Enriched, Frozen, Reconciled, Disputed}
      case Enriched => r.state == Active
      case Frozen => r.state in {Active, Enriched, Disputed}
      case Reconciled => r.state == Frozen
      case Disputed => r.state in {Frozen, Reconciled}
      case Actioned => r.state == Reconciled
      case Superseded => r.state in {Active, Enriched, Actioned}
      case Deprecated => r.state in {Active, Enriched, Disputed, Actioned}
    ensures Execute(r, Transition(target, audit), now).1 == Done ==>
      Execute(r, Transition(target, audit), now).0 ==
        r.(state := target, updatedAt := now, auditTrail := r.auditTrail + [audit])
  {
  }

  /** Enriching is refused to FROZEN objects alone and makes an ACTIVE one ENRICHED; freezing takes an ACTIVE or an
      ENRICHED object. */
  lemma EnrichAndFreezeSucceedIff(r: ControlRecord, update: map<string, Opaque>, audit: Audit, now: int)
    ensures Execute(r, Enrich(update, audit), now).1 == Done <==> r.state != Frozen
    ensures r.state != Frozen ==>
      var after := Execute(r, Enrich(update, audit), now).0;
      && after.state == (if r.state == Active then Enriched else r.state)
      && forall k ::
        && (k in after.payload <==> k in update || k in r.payload)
        && (k in update ==> after.payload[k] == update[k])
        && (k in r.payload && k !in update ==> after.payload[k] == r.payload[k])
    ensures Execute(r, Freeze(audit), now).1 == Done <==> r.state in {Active, Enriched}
    ensures r.state in {Active, Enriched} ==> Execute(r, Freeze(audit), now).0.state == Frozen
  {
  }

  // ---- Runs ----

  datatype Timed = Timed(command: Command, now: int)

  /** `h` lists the record before the run and after each command of `script`. */
  ghost predicate IsRun(h: seq<ControlRecord>, script: seq<Timed>) {
    && |h| == |script| + 1
    && forall i :: 0 <= i < |script| ==> h[i + 1] == Execute(h[i], script[i].command, script[i].now).0
  }

  /** No command of the run was refused. */
  ghost predicate IsAcceptedRun(h: seq<ControlRecord>, script: seq<Timed>) {
    && IsRun(h, script)
    && forall i :: 0 <= i < |script| ==> Execute(h[i], script[i].command, script[i].now).1 == Done
  }

  /** How many accepted commands a new object needs before it is in a state. */
  function StepsFromDraft(s: ControlState): nat {
    match s
    case Draft => 0
    case Active => 1
    case Enriched => 2
    case Frozen => 2
    case Superseded => 2
    case Deprecated => 2
    case Reconciled => 3
    case Disputed => 3
    case Actioned => 4
  }

  /** No run is shorter ... */
  lemma {:induction false} StatesAreFarFromDraft(h: seq<ControlRecord>, script: seq<Timed>, n: nat)
    requires IsRun(h, script) && n < |h| && h[0].state == Draft
    ensures StepsFromDraft(h[n].state) <= n
  {
    if n > 0 {
      StatesAreFarFromDraft(h, script, n - 1);
      assert h[n] == Execute(h[n - 1], script[n - 1].command, script[n - 1].now).0;
    }
  }

  lemma OneMoreCommand(h: seq<ControlRecord>, script: seq<Timed>, target: ControlState, audit: Audit, now: int)
    returns (h': seq<ControlRecord>, script': seq<Timed>)
    requires IsAcceptedRun(h, script) && Execute(h[|script|], Transition(target, audit), now).1 == Done
    ensures IsAcceptedRun(h', script') && h'[0] == h[0]
    ensures |script'| == |script| + 1 && h'[|script'|].state == target
  {
    h' := h + [Execute(h[|script|], Transition(target, audit), now).0];
    script' := script + [Timed(Transition(target, audit), now)];
  }

  /** ... and for every state there is a run of accepted commands of that length: a new object can be activated,
      enriched, frozen, reconciled, disputed, actioned, superseded and deprecated. */
  lemma {:induction false} EveryStateIsReached(r: ControlRecord, target: ControlState, audit: Audit, now: int)
    returns (h: seq<ControlRecord>, script: seq<Timed>)
    requires r.state == Draft
    ensures IsAcceptedRun(h, script) && h[0] == r
    ensures h[|script|].state == target && |script| == StepsFromDraft(target)
    decreases StepsFromDraft(target)
  {
    if target == Draft {
      h, script := [r], [];
    } else {
      var before := if target == Active then Draft
                    else if target == Actioned then Reconciled
                    else if target == Reconciled || target == Disputed then Frozen
                    else Active;
      h, script := EveryStateIsReached(r, before, audit, now);
      h, script := OneMoreCommand(h, script, target, audit, now);
    }
  }

  /** A state that was not the initial one was entered at some step and held ever since. */
  lemma {:induction false} LastEntry(h: seq<ControlRecord>, script: seq<Timed>, n: nat) returns (q: nat)
    requires IsRun(h, script) && n < |h|
    requires h[0].state != h[n].state
    ensures q < n && h[q].state != h[n].state
    ensures forall m :: q < m <= n ==> h[m].state == h[n].state
  {
    if h[n - 1].state != h[n].state {
      q := n - 1;
    } else {
      q := LastEntry(h, script, n - 1);
    }
  }

  /** From step `f` to step `n` the object goes FROZEN, RECONCILED, ACTIONED and through nothing else. */
  ghost predicate Passage(h: seq<ControlRecord>, f: nat, q: nat, n: nat)
    requires n < |h|
  {
    && f < q < n
    && h[f].state == Frozen
    && (forall m :: f < m <= q ==> h[m].state == Reconciled)
    && (forall m :: q < m <= n ==> h[m].state == Actioned)
  }

  /** An object is ACTIONED only at the end of an unbroken FROZEN, RECONCILED, ACTIONED passage. */
  lemma ActionedWasFrozenThenReconciled(h: seq<ControlRecord>, script: seq<Timed>, n: nat)
    requires IsRun(h, script) && n < |h|
    requires h[0].state !in {Reconciled, Actioned} && h[n].state == Actioned
    ensures exists f: nat, q: nat :: Passage(h, f, q, n)
  {
    var q := LastEntry(h, script, n);
    assert h[q + 1].state == Actioned;
    EntryStep(h[q], script[q], Actioned);
    var f := LastEntry(h, script, q);
    assert h[f + 1].state == Reconciled;
    EntryStep(h[f], script[f], Reconciled);
    assert Passage(h, f, q, n);
  }

  /** A command that changes the state follows the transition table. */
  lemma EntryStep(r: ControlRecord, t: Timed, target: ControlState)
    requires r.state != target && Execute(r, t.command, t.now).0.state == target
    ensures target in ValidTransitions(r.state)
    ensures target == Actioned ==> r.state == Reconciled
    ensures target == Reconciled ==> r.state == Frozen
  {
  }

  /** While an object stays FROZEN nothing about it changes, except that a refused `supersede`
      overwrites the forward link. */
  lemma {:induction false} FrozenPeriodIsConstant(h: seq<ControlRecord>, script: seq<Timed>, i: nat, j: nat)
    requires IsRun(h, script) && i <= j < |h|
    requires forall m :: i <= m <= j ==> h[m].state == Frozen
    ensures h[j] == h[i].(supersededBy := h[j].supersededBy)
  {
    if i < j {
      FrozenPeriodIsConstant(h, script, i, j - 1);
      assert h[j] == Execute(h[j - 1], script[j - 1].command, script[j - 1].now).0;
    }
  }

  /** The documented notion of immutability. */
  predicate IsMutable(r: ControlRecord) {
    r.state !in {Frozen, Superseded, Deprecated}
  }

  ghost predicate ContentProtected(r: ControlRecord) {
    forall c: Command, now: int ::
      Execute(r, c, now).0.payload == r.payload && Execute(r, c, now).0.evidence == r.evidence
  }

  /** Payload and evidence are protected in FROZEN and in no other state ... */
  lemma ContentProtectedIffFrozen(r: ControlRecord)
    ensures ContentProtected(r) <==> r.state == Frozen
  {
    if r.state != Frozen {
      var c := AttachEvidence(Evidence(0, ""));
      assert |Execute(r, c, 0).0.evidence| == |r.evidence| + 1;
    }
  }

  /** ... so a record that `is_mutable` calls immutable can still be written, exactly when it is terminal. */
  lemma ImmutableYetWritableIffTerminal(r: ControlRecord)
    ensures !IsMutable(r) && !ContentProtected(r) <==> r.state == Superseded || r.state == Deprecated
  {
    ContentProtectedIffFrozen(r);
  }

  lemma {:induction false} TerminalStatesAreFinal(h: seq<ControlRecord>, script: seq<Timed>, i: nat, j: nat)
    requires IsRun(h, script) && i <= j < |h|
    requires h[i].state == Superseded || h[i].state == Deprecated
    ensures h[j].state == h[i].state
  {
    if i < j {
      TerminalStatesAreFinal(h, script, i, j - 1);
      assert h[j] == Execute(h[j - 1], script[j - 1].command, script[j - 1].now).0;
    }
  }

  /** The audit contexts of the accepted transitions and enrichments among the first `n` commands. */
  ghost function Entries(h: seq<ControlRecord>, script: seq<Timed>, n: nat): seq<Audit>
    requires n <= |script| < |h|
  {
    if n == 0 then []
    else
      var c := script[n - 1].command;
      Entries(h, script, n - 1)
      + (if Execute(h[n - 1], c, script[n - 1].now).1.Done? && !c.AttachEvidence? then [c.audit] else [])
  }

  /** The trail is append-only: one entry, the caller's own, per accepted transition or enrichment. */
  lemma {:induction false} AuditTrailRecordsAcceptedCommands(h: seq<ControlRecord>, script: seq<Timed>, n: nat)
    requires IsRun(h, script) && n <= |script|
    ensures h[n].auditTrail == h[0].auditTrail + Entries(h, script, n)
  {
    if n > 0 {
      AuditTrailRecordsAcceptedCommands(h, script, n - 1);
      assert h[n] == Execute(h[n - 1], script[n - 1].command, script[n - 1].now).0;
    }
  }
}
