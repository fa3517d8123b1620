/** Control objects as the mutable objects they are in the platform. Each method is proved to act on the object's
    record exactly as the lifecycle and version-graph models say, so the run theorems proved there apply. */
module ControlObjects {
  import opened Foundation
  import opened ControlLifecycle
  import opened VersionGraph

  class ControlObject {
    const id: Id
    const tenantId: Id
    var state: ControlState
    var version: int
    var payload: map<string, Opaque>
    var evidence: seq<Evidence>
    var supersededBy: Option<Id>
    var derivedFrom: seq<Id>
    var auditTrail: seq<Audit>
    var updatedAt: int

    function Record(): ControlRecord
      reads this
    {
      ControlRecord(tenantId, state, version, payload, evidence, supersededBy, derivedFrom, auditTrail, updatedAt)
    }

    constructor (id: Id, tenantId: Id, create: ControlObjectCreate, actor: string, now: int)
      ensures this.id == id && Record() == FreshRecord(tenantId, create, actor, now)
    {
      this.id, this.tenantId := id, tenantId;
      state, version, supersededBy := Draft, 1, None;
      payload, evidence, derivedFrom := create.payload, create.evidence, create.derivedFrom;
      auditTrail, updatedAt := [Audit(actor, "created", now)], now;
    }

    method TransitionState(target: ControlState, audit: Audit, now: int) returns (outcome: Outcome)
      modifies this`state, this`updatedAt, this`auditTrail
      ensures (Record(), outcome) == Execute(old(Record()), Transition(target, audit), now)
    {
      if target !in ValidTransitions(state) {
        return StateError;
      }
      state := target;
      updatedAt := now;
      auditTrail := auditTrail + [audit];
      return Done;
    }

    method EnrichPayload(update: map<string, Opaque>, audit: Audit, now: int) returns (outcome: Outcome)
      modifies this`state, this`payload, this`updatedAt, this`auditTrail
      ensures (Record(), outcome) == Execute(old(Record()), Enrich(update, audit), now)
    {
      if state == Frozen {
        return FrozenError;
      }
      payload := payload + update;
      if state == Active {
        outcome := TransitionState(Enriched, audit, now);
      } else {
        updatedAt := now;
        auditTrail := auditTrail + [audit];
        outcome := Done;
      }
    }

    method Attach(item: Evidence, now: int) returns (outcome: Outcome)
      modifies this`evidence, this`updatedAt
      ensures (Record(), outcome) == Execute(old(Record()), AttachEvidence(item), now)
    {
      if state == Frozen {
        return FrozenError;
      }
      evidence := evidence + [item];
      updatedAt := now;
      return Done;
    }

    method FreezeObject(audit: Audit, now: int) returns (outcome: Outcome)
      modifies this`state, this`updatedAt, this`auditTrail
      ensures (Record(), outcome) == Execute(old(Record()), Freeze(audit), now)
    {
      if state == Active || state == Enriched {
        outcome := TransitionState(Frozen, audit, now);
      } else {
        outcome := StateError;
      }
    }

    method SupersedeWith(newVersion: Id, audit: Audit, now: int) returns (outcome: Outcome)
      modifies this`state, this`supersededBy, this`updatedAt, this`auditTrail
      ensures (Record(), outcome) == Execute(old(Record()), Supersede(newVersion, audit), now)
    {
      supersededBy := Some(newVersion);
      outcome := TransitionState(Superseded, audit, now);
    }
  }

  datatype BuildResult = Built(built: ControlObject) | Rejected(reason: BuildError)

  /** A blank label, a blank domain or a confidence outside [0, 1] is refused, in that order. */
  method BuildControlObject(id: Id, tenantId: Id, create: ControlObjectCreate, actor: string, now: int)
    returns (r: BuildResult)
    ensures r.Built? <==> !IsBlank(create.displayLabel) && !IsBlank(create.domain) && 0.0 <= create.confidence <= 1.0
    ensures r.Rejected? ==> BuildFailure(create) == Some(r.reason)
    ensures r.Built? ==> fresh(r.built) && r.built.id == id && r.built.tenantId == tenantId
    ensures r.Built? ==> r.built.Record() == FreshRecord(tenantId, create, actor, now)
  {
    if IsBlank(create.displayLabel) {
      return Rejected(EmptyLabel);
    }
    if IsBlank(create.domain) {
      return Rejected(EmptyDomain);
    }
    if create.confidence < 0.0 || create.confidence > 1.0 {
      return Rejected(ConfidenceOutOfRange);
    }
    var created := new ControlObject(id, tenantId, create, actor, now);
    r := Built(created);
  }

  datatype SupersedeResult =
    | NewVersionOf(created: ControlObject)
    | Invalid(error: BuildError)
    | Refused(outcome: Outcome)

  method SupersedeObject(original: ControlObject, update: ControlObjectCreate, actor: string, newId: Id, now: int)
    returns (r: SupersedeResult)
    modifies original`state, original`supersededBy, original`updatedAt, original`auditTrail
    ensures r.Invalid? <==> BuildFailure(update).Some?
    ensures r.Invalid? ==> original.Record() == old(original.Record())
    ensures !r.Invalid? ==>
      var (after, outcome) := Execute(old(original.Record()), Supersede(newId, Audit(actor, "superseded", now)), now);
      original.Record() == after && (r.NewVersionOf? <==> outcome == Done)
    ensures r.NewVersionOf? ==>
      && fresh(r.created) && r.created.id == newId
      && r.created.Record() == NextVersion(original.id, old(original.Record()), update, actor, now)
  {
    var attempt := BuildControlObject(newId, original.tenantId, update, actor, now);
    if attempt.Rejected? {
      return Invalid(attempt.reason);
    }
    var newObject := attempt.built;
    newObject.version := original.version + 1;
    newObject.derivedFrom := [original.id];
    var outcome := original.SupersedeWith(newId, Audit(actor, "superseded", now), now);
    r := if outcome == Done then NewVersionOf(newObject) else Refused(outcome);
  }

  // ---- A heap of objects as a store of records ----

  ghost predicate DistinctIds(heap: set<ControlObject>) {
    forall a, b :: a in heap && b in heap && a.id == b.id ==> a == b
  }

  ghost function Ids(heap: set<ControlObject>): set<Id> {
    set o | o in heap :: o.id
  }

  /** `st` holds the record of every object of `heap` under its id, and nothing else. */
  ghost predicate Reflects(st: Store, heap: set<ControlObject>)
    reads heap
  {
    && DistinctIds(heap) && st.Keys == Ids(heap)
    && forall o :: o in heap ==> o.id in st && st[o.id] == o.Record()
  }

  /** The same, but for what `st` holds for one object. */
  ghost predicate ReflectsExcept(st: Store, heap: set<ControlObject>, o: ControlObject)
    reads heap
  {
    && o in heap && DistinctIds(heap) && st.Keys == Ids(heap)
    && forall x :: x in heap && x != o ==> x.id in st && st[x.id] == x.Record()
  }

  lemma ReflectsUpdated(st: Store, heap: set<ControlObject>, o: ControlObject)
    requires ReflectsExcept(st, heap, o)
    ensures Reflects(st[o.id := o.Record()], heap)
  {
  }

  lemma ReflectsAdded(st: Store, heap: set<ControlObject>, o: ControlObject)
    requires Reflects(st, heap) && o.id !in st
    ensures Reflects(st[o.id := o.Record()], heap + {o})
  {
    assert Ids(heap + {o}) == Ids(heap) + {o.id};
  }

  /** The heap has moved as the event says, and a disciplined event has kept its links sound. With one such step per
      call, what holds of every reachable store holds of every heap the calls can build. */
  ghost predicate StepsTo(st: Store, e: Event, heap: set<ControlObject>)
    reads heap
  {
    Reflects(Step(st, e), heap) && (WellLinked(st) && Disciplined(st, e) ==> WellLinked(Step(st, e)))
  }

  lemma ReflectedStepSteps(st: Store, e: Event, heap: set<ControlObject>)
    requires Reflects(Step(st, e), heap)
    ensures StepsTo(st, e, heap)
  {
    if WellLinked(st) && Disciplined(st, e) {
      StepKeepsLinks(st, e);
    }
  }

  /** `build_control_object` with a fresh id. */
  method BuildOnHeap(id: Id, tenantId: Id, create: ControlObjectCreate, actor: string, now: int,
                     ghost heap: set<ControlObject>, ghost st: Store)
    returns (r: BuildResult)
    requires Reflects(st, heap) && id !in st
    ensures r.Built? <==> BuildFailure(create).None?
    ensures r.Built? ==> fresh(r.built) && r.built.id == id
    ensures StepsTo(st, BuildObject(id, tenantId, create, actor, now), if r.Built? then heap + {r.built} else heap)
  {
    r := BuildControlObject(id, tenantId, create, actor, now);
    if r.Built? {
      ReflectsAdded(st, heap, r.built);
    }
    ReflectedStepSteps(st, BuildObject(id, tenantId, create, actor, now), if r.Built? then heap + {r.built} else heap);
  }

  /** Each lifecycle method touches its own object and no other. */
  method ApplyOnHeap(o: ControlObject, command: Command, now: int, ghost heap: set<ControlObject>, ghost st: Store)
    returns (outcome: Outcome)
    requires o in heap && Reflects(st, heap)
    modifies o
    ensures outcome == Execute(old(o.Record()), command, now).1
    ensures StepsTo(st, Apply(o.id, command, now), heap)
  {
    match command {
      case Transition(target, audit) => outcome := o.TransitionState(target, audit, now);
      case Enrich(update, audit) => outcome := o.EnrichPayload(update, audit, now);
      case AttachEvidence(item) => outcome := o.Attach(item, now);
      case Freeze(audit) => outcome := o.FreezeObject(audit, now);
      case Supersede(newVersion, audit) => outcome := o.SupersedeWith(newVersion, audit, now);
    }
    assert o.Record() == Execute(old(o.Record()), command, now).0;
    assert ReflectsExcept(st, heap, o);
    ReflectsUpdated(st, heap, o);
    ReflectedStepSteps(st, Apply(o.id, command, now), heap);
  }

  /** `supersede_object` with a fresh id: the two objects involved change as stated and every other is untouched. */
  method SupersedeObjectOnHeap(original: ControlObject, update: ControlObjectCreate, actor: string, newId: Id, now: int,
                               ghost heap: set<ControlObject>, ghost st: Store)
    returns (r: SupersedeResult)
    requires original in heap && Reflects(st, heap) && newId !in st
    modifies original`state, original`supersededBy, original`updatedAt, original`auditTrail
    ensures r.NewVersionOf? <==> BuildFailure(update).None? && CanSupersede(old(original.state))
    ensures r.NewVersionOf? ==> fresh(r.created) && r.created.id == newId
    ensures StepsTo(st, Event.SupersedeObject(original.id, newId, update, actor, now),
                    if r.NewVersionOf? then heap + {r.created} else heap)
  {
    ghost var before := original.Record();
    r := SupersedeObject(original, update, actor, newId, now);
    assert ReflectsExcept(st, heap, original);
    SupersedeStepsTo(original, before, update, actor, newId, now, r, heap, st);
  }

  /** The heap after the three outcomes of `supersede_object`, given what it did to the objects involved. */
  lemma SupersedeStepsTo(original: ControlObject, before: ControlRecord, update: ControlObjectCreate, actor: string,
                         newId: Id, now: int, r: SupersedeResult, heap: set<ControlObject>, st: Store)
    requires ReflectsExcept(st, heap, original) && st[original.id] == before && newId !in st
    requires r.Invalid? <==> BuildFailure(update).Some?
    requires r.Invalid? ==> original.Record() == before
    requires !r.Invalid? ==>
      var (after, outcome) := Execute(before, Supersede(newId, Audit(actor, "superseded", now)), now);
      original.Record() == after && (r.NewVersionOf? <==> outcome == Done)
    requires r.NewVersionOf? ==>
      r.created.id == newId && r.created.Record() == NextVersion(original.id, before, update, actor, now)
    ensures r.NewVersionOf? <==> BuildFailure(update).None? && CanSupersede(before.state)
    ensures StepsTo(st, Event.SupersedeObject(original.id, newId, update, actor, now),
                    if r.NewVersionOf? then heap + {r.created} else heap)
  {
    var e := Event.SupersedeObject(original.id, newId, update, actor, now);
    var touched := st[original.id := original.Record()];
    ReflectsUpdated(st, heap, original);
    SupersedeSucceedsIff(before, newId, Audit(actor, "superseded", now), now);
    if r.NewVersionOf? {
      ReflectsAdded(touched, heap, r.created);
      assert Step(st, e) == touched[newId := r.created.Record()];
      ReflectedStepSteps(st, e, heap + {r.created});
    } else {
      assert Step(st, e) == touched;
      ReflectedStepSteps(st, e, heap);
    }
  }
}
