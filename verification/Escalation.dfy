/** The escalation rule engine, and escalation as a closure operator on levels. */
module Escalation {
  import opened Foundation
  import opened Sequences

  /** Minutes allowed until a response and until a resolution. */
  datatype Target = Target(response: Option<int>, resolution: Option<int>) {
    /** An empty target dictionary counts as no target. */
    predicate Present() {
      response.Some? || resolution.Some?
    }
  }

  type Targets = map<string, Target>

  const DEFAULT_SLA_TARGETS: Targets := map[
    "P1" := Target(Some(60), Some(240)),
    "P2" := Target(Some(120), Some(480)),
    "P3" := Target(Some(240), Some(1440)),
    "P4" := Target(Some(480), Some(4320))]

  /** An incident without its escalation level. Times are minutes on one clock. */
  datatype Facts = Facts(
    priority: string, reportedAt: Option<real>, acknowledged: bool, status: string, vip: bool, customerCounts: seq<int>)

  datatype Urgency = Critical | Urgent

  datatype Action = Action(action: string, targetLevel: int, urgency: Urgency)

  datatype SlaStatus = WithinSla | AtRisk | Breached

  datatype Result = Result(
    shouldEscalate: bool, currentLevel: int, recommendedLevel: int, actions: seq<Action>, slaStatus: SlaStatus)

  function EffectiveTargets(slaTargets: Option<Targets>): Targets {
    if slaTargets.Some? && slaTargets.value != map[] then slaTargets.value else DEFAULT_SLA_TARGETS
  }

  predicate Tracked(f: Facts, targets: Targets) {
    f.priority in targets && targets[f.priority].Present() && f.reportedAt.Some?
  }

  /** The share of the resolution time that has passed. */
  function Elapsed(f: Facts, targets: Targets, now: real): real
    requires Tracked(f, targets)
  {
    var allowed := targets[f.priority].resolution.GetOr(480);
    if allowed > 0 then (now - f.reportedAt.value) / allowed as real else 1.0
  }

  function StatusAt(f: Facts, targets: Targets, now: real): SlaStatus {
    if !Tracked(f, targets) then WithinSla
    else if Elapsed(f, targets, now) >= 1.0 then Breached
    else if Elapsed(f, targets, now) >= 0.5 then AtRisk
    else WithinSla
  }

  function Sum(counts: seq<int>): int {
    if counts == [] then 0 else Sum(counts[..|counts| - 1]) + counts[|counts| - 1]
  }

  predicate ResponseDue(f: Facts, targets: Targets, now: real) {
    && !f.acknowledged && f.status == "open" && Tracked(f, targets)
    && targets[f.priority].response.GetOr(120) as real - (now - f.reportedAt.value) <= 30.0
  }

  function P1Demand(f: Facts): set<int> {
    if f.priority == "P1" then {2} else {}
  }

  function SlaDemand(f: Facts, targets: Targets, now: real): set<int> {
    if !Tracked(f, targets) then {}
    else if Elapsed(f, targets, now) >= 0.75 then {3}
    else if Elapsed(f, targets, now) >= 0.5 then {2}
    else {}
  }

  function VipDemand(f: Facts): set<int> {
    if f.vip && Sum(f.customerCounts) > 100 then {3} else {}
  }

  function UnackDemand(f: Facts, targets: Targets, now: real): set<int> {
    if ResponseDue(f, targets, now) then {1} else {}
  }

  /** The levels the four rules call for at `now`, whatever the current level is. */
  function Demands(f: Facts, targets: Targets, now: real): set<int> {
    P1Demand(f) + SlaDemand(f, targets, now) + VipDemand(f) + UnackDemand(f, targets, now)
  }

  /** The smallest level at or above `level` that meets every demand. */
  function Closure(demands: set<int>, level: int): (r: int)
    requires demands <= {1, 2, 3}
    ensures r == level || r in demands
    ensures r >= level && forall d :: d in demands ==> d <= r
  {
    if 3 in demands && level < 3 then 3
    else if 2 in demands && level < 2 then 2
    else if 1 in demands && level < 1 then 1
    else level
  }

  /** The level recommended from `level` at `now`. */
  function Recommend(f: Facts, targets: Targets, now: real, level: int): int {
    Closure(Demands(f, targets, now), level)
  }

  // ---- The engine ----

  /** The actions are exactly answers to the demands above `level`: none is idle and none is missing. */
  ghost predicate Answers(actions: seq<Action>, demands: set<int>, level: int) {
    && (forall a :: a in actions ==> a.targetLevel in demands && a.targetLevel > level)
    && (forall d :: d in demands && d > level ==> exists a :: a in actions && a.targetLevel == d)
  }

  lemma AnswersJoin(a: seq<Action>, b: seq<Action>, x: set<int>, y: set<int>, level: int)
    requires Answers(a, x, level) && Answers(b, y, level)
    ensures Answers(a + b, x + y, level)
  {
    forall d | d in x + y && d > level
      ensures exists e :: e in a + b && e.targetLevel == d
    {
      if d in x {
        var e :| e in a && e.targetLevel == d;
        assert e in a + b;
      } else {
        var e :| e in b && e.targetLevel == d;
        assert e in a + b;
      }
    }
  }

  function P1Actions(f: Facts, level: int): seq<Action> {
    When(f.priority == "P1" && level < 2, Action("auto_escalate_to_senior_engineer", 2, Critical))
  }

  /** The manager is called for urgently from three quarters of the resolution time on, critically from its end. */
  function SlaActions(f: Facts, targets: Targets, now: real, level: int): seq<Action> {
    match StatusAt(f, targets, now)
    case WithinSla => []
    case AtRisk =>
      if Elapsed(f, targets, now) >= 0.75 then When(level < 3, Action("escalate_to_operations_manager", 3, Urgent))
      else When(level < 2, Action("escalate_to_senior_engineer", 2, Urgent))
    case Breached => When(level < 3, Action("escalate_to_operations_manager", 3, Critical))
  }

  function VipActions(f: Facts, level: int): seq<Action> {
    When(3 in VipDemand(f) && level < 3, Action("escalate_to_management", 3, Critical))
  }

  function UnackActions(f: Facts, targets: Targets, now: real, level: int): seq<Action> {
    When(ResponseDue(f, targets, now) && level < 1, Action("escalate_to_team_lead", 1, Urgent))
  }

  method CheckP1(f: Facts, level: int) returns (actions: seq<Action>)
    ensures actions == P1Actions(f, level)
    ensures Answers(actions, P1Demand(f), level)
  {
    actions := [];
    if f.priority == "P1" && level < 2 {
      actions := [Action("auto_escalate_to_senior_engineer", 2, Critical)];
      assert actions[0] in actions;
    }
  }

  method CheckSla(f: Facts, targets: Targets, now: real, level: int) returns (actions: seq<Action>, status: SlaStatus)
    ensures status == StatusAt(f, targets, now) && actions == SlaActions(f, targets, now, level)
    ensures Answers(actions, SlaDemand(f, targets, now), level)
  {
    actions, status := [], WithinSla;
    if f.priority !in targets || !targets[f.priority].Present() || f.reportedAt.None? {
      return;
    }
    var pct := Elapsed(f, targets, now);
    if pct >= 1.0 {
      status := Breached;
      if level < 3 {
        actions := [Action("escalate_to_operations_manager", 3, Critical)];
        assert actions[0] in actions;
      }
    } else if pct >= 0.75 {
      status := AtRisk;
      if level < 3 {
        actions := [Action("escalate_to_operations_manager", 3, Urgent)];
        assert actions[0] in actions;
      }
    } else if pct >= 0.5 {
      status := AtRisk;
      if level < 2 {
        actions := [Action("escalate_to_senior_engineer", 2, Urgent)];
        assert actions[0] in actions;
      }
    }
  }

  method CheckVip(f: Facts, level: int) returns (actions: seq<Action>)
    ensures actions == VipActions(f, level)
    ensures Answers(actions, VipDemand(f), level)
  {
    actions := [];
    if !f.vip {
      return;
    }
    var total := 0;
    for i := 0 to |f.customerCounts|
      invariant total == Sum(f.customerCounts[..i])
    {
      assert f.customerCounts[..i + 1][..i] == f.customerCounts[..i];
      total := total + f.customerCounts[i];
    }
    assert f.customerCounts[..|f.customerCounts|] == f.customerCounts;
    if total > 100 && level < 3 {
      actions := [Action("escalate_to_management", 3, Critical)];
      assert actions[0] in actions;
    }
  }

  method CheckUnack(f: Facts, targets: Targets, now: real, level: int) returns (actions: seq<Action>)
    ensures actions == UnackActions(f, targets, now, level)
    ensures Answers(actions, UnackDemand(f, targets, now), level)
  {
    actions := [];
    if f.acknowledged || f.status != "open" || f.priority !in targets || !targets[f.priority].Present()
        || f.reportedAt.None? {
      return;
    }
    var remaining := targets[f.priority].response.GetOr(120) as real - (now - f.reportedAt.value);
    if remaining <= 30.0 && level < 1 {
      actions := [Action("escalate_to_team_lead", 1, Urgent)];
      assert actions[0] in actions;
    }
  }

  /** `max` over the targets, with the current level as default. */
  method HighestTarget(actions: seq<Action>, level: int) returns (m: int)
    requires forall a :: a in actions ==> a.targetLevel > level
    ensures if actions == [] then m == level else exists a :: a in actions && a.targetLevel == m
    ensures m >= level && forall a :: a in actions ==> a.targetLevel <= m
  {
    m := level;
    for i := 0 to |actions|
      invariant if i == 0 then m == level else exists a :: a in actions[..i] && a.targetLevel == m
      invariant m >= level && forall a :: a in actions[..i] ==> a.targetLevel <= m
    {
      assert actions[..i + 1] == actions[..i] + [actions[i]];
      assert actions[i] in actions[..i + 1] && actions[i] in actions;
      m := Max(m, actions[i].targetLevel);
    }
    assert actions[..|actions|] == actions;
  }

  method Evaluate(f: Facts, level: int, slaTargets: Option<Targets>, now: real) returns (r: Result)
    ensures r.recommendedLevel == Recommend(f, EffectiveTargets(slaTargets), now, level)
    ensures r.currentLevel == level && (r.shouldEscalate <==> r.recommendedLevel > level)
    ensures r.slaStatus == StatusAt(f, EffectiveTargets(slaTargets), now)
    ensures Answers(r.actions, Demands(f, EffectiveTargets(slaTargets), now), level)
    ensures r.actions == [] <==> r.recommendedLevel == level
    ensures var targets := EffectiveTargets(slaTargets);
      r.actions == P1Actions(f, level) + SlaActions(f, targets, now, level) + VipActions(f, level)
                   + UnackActions(f, targets, now, level)
  {
    var targets := EffectiveTargets(slaTargets);
    var actions := CheckP1(f, level);
    var sla, status := CheckSla(f, targets, now, level);
    AnswersJoin(actions, sla, P1Demand(f), SlaDemand(f, targets, now), level);
    actions := actions + sla;
    var vip := CheckVip(f, level);
    AnswersJoin(actions, vip, P1Demand(f) + SlaDemand(f, targets, now), VipDemand(f), level);
    actions := actions + vip;
    var unack := CheckUnack(f, targets, now, level);
    AnswersJoin(actions, unack, P1Demand(f) + SlaDemand(f, targets, now) + VipDemand(f), UnackDemand(f, targets, now),
                level);
    actions := actions + unack;
    var recommended := HighestTarget(actions, level);
    r := Result(recommended > level, level, recommended, actions, status);
  }

  // ---- Closure, monotonicity, runs ----

  /** Evaluating again at the recommended level, at the same time, recommends nothing further: whatever actions answer
      the demands above that level, as those of `Evaluate` do, there are none. */
  lemma EvaluatingAgainYieldsNothing(f: Facts, targets: Targets, now: real, level: int, actions: seq<Action>)
    requires Answers(actions, Demands(f, targets, now), Recommend(f, targets, now, level))
    ensures actions == []
    ensures Recommend(f, targets, now, Recommend(f, targets, now, level)) == Recommend(f, targets, now, level)
  {
    ActionsAnswerSomething(actions, Demands(f, targets, now), Recommend(f, targets, now, level));
  }

  lemma ActionsAnswerSomething(actions: seq<Action>, demands: set<int>, level: int)
    requires Answers(actions, demands, level)
    ensures actions != [] ==> exists d :: d in demands && d > level
  {
    if actions != [] {
      assert actions[0] in actions;
    }
  }

  function StatusRank(s: SlaStatus): nat {
    match s
    case WithinSla => 0
    case AtRisk => 1
    case Breached => 2
  }

  lemma ElapsedGrows(f: Facts, targets: Targets, now: real, later: real)
    requires Tracked(f, targets) && now <= later
    ensures Elapsed(f, targets, now) <= Elapsed(f, targets, later)
  {
  }

  /** For fixed facts neither the SLA status nor the recommended level ever goes down with time, and a higher level
      never leads to a lower recommendation. */
  lemma RecommendIsMonotone(f: Facts, targets: Targets, now: real, later: real, level: int, higher: int)
    requires now <= later && level <= higher
    ensures StatusRank(StatusAt(f, targets, now)) <= StatusRank(StatusAt(f, targets, later))
    ensures Recommend(f, targets, now, level) <= Recommend(f, targets, later, higher)
  {
    if Tracked(f, targets) {
      ElapsedGrows(f, targets, now, later);
    }
  }

  // ---- Status and level in minutes ----

  /** An incident with a report time whose priority allows `respond` minutes until a response and `resolve` until a
      resolution; where only one of the two is set, the other is 120 or 480. */
  ghost predicate Allows(f: Facts, targets: Targets, reported: real, respond: int, resolve: int) {
    && f.reportedAt == Some(reported) && f.priority in targets
    && var t := targets[f.priority];
      && (t.response.Some? || t.resolution.Some?)
      && respond == (if t.response.Some? then t.response.value else 120)
      && resolve == (if t.resolution.Some? then t.resolution.value else 480)
  }

  /** The targets that hold when the caller gives none. */
  lemma DefaultTargets(f: Facts, reported: real)
    requires f.reportedAt == Some(reported)
    ensures EffectiveTargets(None) == EffectiveTargets(Some(map[]))
    ensures f.priority == "P1" ==> Allows(f, EffectiveTargets(None), reported, 60, 240)
    ensures f.priority == "P2" ==> Allows(f, EffectiveTargets(None), reported, 120, 480)
    ensures f.priority == "P3" ==> Allows(f, EffectiveTargets(None), reported, 240, 1440)
    ensures f.priority == "P4" ==> Allows(f, EffectiveTargets(None), reported, 480, 4320)
    ensures f.priority !in {"P1", "P2", "P3", "P4"} ==> f.priority !in EffectiveTargets(None)
    ensures forall targets: Targets :: targets != map[] ==> EffectiveTargets(Some(targets)) == targets
  {
  }

  lemma ShareReached(passed: real, allowed: int)
    requires allowed > 0
    ensures passed / allowed as real >= 1.0 <==> passed >= allowed as real
    ensures passed / allowed as real >= 0.75 <==> 4.0 * passed >= 3.0 * allowed as real
    ensures passed / allowed as real >= 0.5 <==> 2.0 * passed >= allowed as real
  {
    var share, a := passed / allowed as real, allowed as real;
    assert passed == share * a;
    AtLeastScaled(share, 1.0, a);
    AtLeastScaled(share, 0.75, a);
    AtLeastScaled(share, 0.5, a);
  }

  lemma AtLeastScaled(x: real, y: real, a: real)
    requires a > 0.0
    ensures x >= y <==> x * a >= y * a
  {
    assert (x - y) * a == x * a - y * a;
  }

  /** Status and level of a tracked incident: at risk from half the resolution time, breached from the whole of it. A
      manager (3) is called from three quarters of it, or for a VIP incident with more than 100 customers; a senior
      engineer (2) from half of it, or for P1; a team lead (1) once an open, unacknowledged incident has at most 30
      minutes left for its response. */
  lemma TrackedLevelInMinutes(f: Facts, targets: Targets, now: real, level: int, reported: real, respond: int,
                              resolve: int)
    requires Allows(f, targets, reported, respond, resolve)
    ensures StatusAt(f, targets, now) ==
      if resolve <= 0 || now - reported >= resolve as real then Breached
      else if 2.0 * (now - reported) >= resolve as real then AtRisk
      else WithinSla
    ensures Recommend(f, targets, now, level) ==
      if level < 3 && (resolve <= 0 || 4.0 * (now - reported) >= 3.0 * resolve as real
                       || (f.vip && Sum(f.customerCounts) > 100)) then 3
      else if level < 2 && (2.0 * (now - reported) >= resolve as real || f.priority == "P1") then 2
      else if level < 1 && !f.acknowledged && f.status == "open" && now - reported >= (respond - 30) as real then 1
      else level
  {
    if resolve > 0 {
      ShareReached(now - reported, resolve);
    }
  }

  /** The actions of a tracked incident, in the order in which the rules are tried. */
  lemma TrackedActionsInMinutes(f: Facts, targets: Targets, now: real, level: int, reported: real, respond: int,
                                resolve: int)
    requires Allows(f, targets, reported, respond, resolve)
    ensures P1Actions(f, level)
      == if f.priority == "P1" && level < 2 then [Action("auto_escalate_to_senior_engineer", 2, Critical)] else []
    ensures SlaActions(f, targets, now, level) ==
      if level < 3 && (resolve <= 0 || now - reported >= resolve as real) then
        [Action("escalate_to_operations_manager", 3, Critical)]
      else if level < 3 && 4.0 * (now - reported) >= 3.0 * resolve as real then
        [Action("escalate_to_operations_manager", 3, Urgent)]
      else if level < 2 && 2.0 * (now - reported) >= resolve as real then
        [Action("escalate_to_senior_engineer", 2, Urgent)]
      else []
    ensures VipActions(f, level) ==
      if level < 3 && f.vip && Sum(f.customerCounts) > 100 then [Action("escalate_to_management", 3, Critical)] else []
    ensures UnackActions(f, targets, now, level) ==
      if level < 1 && !f.acknowledged && f.status == "open" && now - reported >= (respond - 30) as real then
        [Action("escalate_to_team_lead", 1, Urgent)]
      else []
  {
    if resolve > 0 {
      ShareReached(now - reported, resolve);
    }
  }

  /** Without a report time or a target only the priority and the VIP rule count. */
  lemma UntrackedLevel(f: Facts, targets: Targets, now: real, level: int)
    requires f.reportedAt.None? || f.priority !in targets || targets[f.priority] == Target(None, None)
    ensures StatusAt(f, targets, now) == WithinSla
    ensures Recommend(f, targets, now, level) ==
      if level < 3 && f.vip && Sum(f.customerCounts) > 100 then 3
      else if level < 2 && f.priority == "P1" then 2
      else level
  {
  }

  /** One evaluation whose recommendation is applied. The facts may differ from one to the next. */
  datatype Visit = Visit(facts: Facts, targets: Targets, now: real)

  function FinalLevel(level: int, visits: seq<Visit>): int {
    if visits == [] then level
    else
      var v := visits[|visits| - 1];
      Recommend(v.facts, v.targets, v.now, FinalLevel(level, visits[..|visits| - 1]))
  }

  /** How many of the visits raised the level. */
  function Escalations(level: int, visits: seq<Visit>): nat {
    if visits == [] then 0
    else
      var front := visits[..|visits| - 1];
      Escalations(level, front) + (if FinalLevel(level, visits) > FinalLevel(level, front) then 1 else 0)
  }

  /** However facts, targets and clock evolve, and from whatever level, a run escalates at most three times and never
      above level 3 or its starting level. */
  lemma {:induction false} AtMostThreeEscalations(level: int, visits: seq<Visit>)
    ensures Escalations(level, visits) <= 3
    ensures level <= FinalLevel(level, visits) <= Max(level, 3)
    ensures Escalations(level, visits) > 0 ==> Escalations(level, visits) <= FinalLevel(level, visits) <= 3
  {
    if visits != [] {
      AtMostThreeEscalations(level, visits[..|visits| - 1]);
    }
  }

  ghost predicate SameFactsLaterClock(f: Facts, targets: Targets, visits: seq<Visit>) {
    && (forall i :: 0 <= i < |visits| ==> visits[i].facts == f && visits[i].targets == targets)
    && (forall i, j :: 0 <= i < j < |visits| ==> visits[i].now <= visits[j].now)
  }

  /** For fixed facts the intermediate evaluations leave no trace: any run with a non-decreasing clock ends where a
      single evaluation at its last time would have ended. */
  lemma {:induction false} OnlyTheLastVisitMatters(f: Facts, targets: Targets, level: int, visits: seq<Visit>)
    requires visits != [] && SameFactsLaterClock(f, targets, visits)
    ensures FinalLevel(level, visits) == Recommend(f, targets, visits[|visits| - 1].now, level)
  {
    var n := |visits| - 1;
    if n > 0 {
      OnlyTheLastVisitMatters(f, targets, level, visits[..n]);
      var before, last := visits[n - 1].now, visits[n].now;
      RecommendIsMonotone(f, targets, before, last, level, level);
    } else {
      assert FinalLevel(level, visits[..n]) == level;
    }
  }
}
