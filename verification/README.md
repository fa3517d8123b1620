# Verified models of the control fabric's decision cores

This project models, in Dafny, the parts of the control fabric platform that decide things: the life of a control
object, the evidence-gated release of actions, the cross-plane margin diagnosis, and the smaller algorithmic cores of
the retrieval, escalation, canonicalisation, chunking, prompt and training services. `dafny verify dfyconfig.toml`
checks all of it.

How the model is laid out:

- **Control objects.** `ControlLifecycle` is one record and the commands on it; `VersionGraph` is a store of records and
  the links `supersede_object` leaves; `ControlObjects` is the mutable class, each method tied to those two models.
- **Validation and release.** `ValidationChain` has the five gates and the chain object; `ReleaseGate` has packages, the
  gate object and the state that relates its two logs, its package store and its executor calls; `NestedSubmissions` has
  the runs in which executors submit to the gate themselves.
- **Margin diagnosis.** `MarginModel` (records), `Billability`, `SlaAccountability`, `ClaimKeys`, `Leakage`, `Contradictions`,
  `IncidentLinks`, `MarginDiagnosis`, which puts them together and characterises all four verdicts by the input, and
  `MarginCauses`, which tells the cause of every finding in numbers and words.
- **Algorithmic cores.** `RankFusion`, `Escalation`, `EntityMerge`, `Chunking`, `PromptCache`, `TemplateFill` and
  `NestedTemplates` with the table in use in `FillTable` and `KnownTemplates`, `ScenarioGeneration`, `KeyRecords`.
- **Shared.** `Foundation`, `Sequences` (concatenation and sums), `Sorting` (Python's stable sort), `Decimals`, `Splitting`
  (separator-joined texts).

Conventions. Floats are exact reals, taken before the source's final `round`. SHA-256, list and time formatting, text
similarity, tokenising, lower-casing and stripping are function-valued parameters, so every theorem holds for all of
them. UUIDs and clock readings are inputs; freshness of an identifier is stated where it matters. A value the source
never looks into has the type `Opaque`. A call that raises returns an error value next to the state it leaves behind.

Where the code differs from its documentation, or breaks a property one would expect of it, the model follows the code
and states the exact condition:

- `is_mutable` (app/core/control_object.py:116-122) calls SUPERSEDED and DEPRECATED objects immutable, but only FROZEN
  protects payload and evidence (`ImmutableYetWritableIffTerminal`).
- A refused `supersede` still stores the forward link (`RefusalWritesAtMostTheLink`, `SupersedeObjectKeepsLinksIff`).
- An executor that returns anything but a dictionary with string keys, that leaves by an exception outside `Exception`,
  or that raises an exception which cannot be printed makes `submit` raise after the package is stored and the executor
  has run, so the two logs part; an executor that submits to the gate itself puts them in different orders
  (`SubmitKeepsInvariantIff`, `NestedSubmissionPartsTheLogs`).
- A customer no-access visit is billable although earlier blockers stay listed (`BillableDespiteBlockersIff`).
- One warning-level leak hides an error-level conflict from the verdict (`ExtraTriggerLowersVerdictIff`,
  `UncreditedBreachLowersVerdictIff`).
- A repeated incident id lets a time-matched link lead to a timing conflict with another incident
  (`MatchedLinkConflictsIff`, `RepeatedIdMakesMatchConflict`).
- A separator inside a field, with no space beside it, makes a duplicate-claim key stand for several claims
  (`ClaimIsUnambiguousIff`, `SeparatorGroupsDifferentClaims`).
- Merging drops aliases that are stored as a dictionary, and merging an entity into itself deletes it
  (`MergeKeepsResolutionIff`); entities of different types can be merged (`CrossTypeMergeKeepsResolutionIff`).
- The prompt cache confuses "no pack" with "" and "_", and "no version" with 0 (`CollisionIsHarmlessIff`), and a
  separator in a name or inside a pack with the one in the key (`KeyIsUnambiguousIff`). It does not tell lookups with a
  database session from those without (`MixedRunIsTransparentIff`).
- Filling a template can complete a placeholder whose key has been passed (`PlaceholderCanSurviveIff`,
  `KnownPlaceholderCanSurviveIff`).

## Model

| member | source | states |
|---|---|---|
| ControlLifecycle.ActionedWasFrozenThenReconciled | app/core/types.py:67-102 | in every run, an ACTIONED object has just gone through an unbroken FROZEN, RECONCILED, ACTIONED passage |
| ControlLifecycle.FrozenPeriodIsConstant | app/core/control_object.py:75-95 | while an object stays FROZEN nothing about it changes but the link a refused `supersede` may overwrite |
| ControlLifecycle.ContentProtectedIffFrozen | app/core/control_object.py:75-89 | no command can change payload or evidence exactly when the state is FROZEN |
| ControlLifecycle.ImmutableYetWritableIffTerminal | app/core/control_object.py:116-122 | an object that `is_mutable` calls immutable can still be written exactly when it is SUPERSEDED or DEPRECATED |
| ControlLifecycle.TerminalStatesAreFinal | app/core/types.py:100-101 | in every run SUPERSEDED and DEPRECATED are never left |
| ControlLifecycle.AuditTrailRecordsAcceptedCommands | app/core/control_object.py:71-86 | the trail is append-only and gains exactly the caller's context per accepted transition or enrichment |
| ControlLifecycle.RefusalWritesAtMostTheLink | app/core/control_object.py:64-108 | a refused command writes nothing, except that a refused `supersede` stores its link |
| ControlLifecycle.FreezeDiffersFromTableIff | app/core/control_object.py:91-95 | `freeze` and a table transition to FROZEN differ exactly on DISPUTED objects |
| ControlLifecycle.TransitionSucceedsIff | app/core/types.py:67-102 | for each of the nine targets, the states a transition is accepted from, and that it is refused from all others |
| ControlLifecycle.EnrichAndFreezeSucceedIff | app/core/control_object.py:75-95 | `enrich` is refused exactly on FROZEN objects, makes an ACTIVE one ENRICHED and overlays the payload; `freeze` takes exactly ACTIVE and ENRICHED objects |
| ControlLifecycle.EveryStateIsReached | app/core/types.py:67-102 | every state is reached from DRAFT by a run of accepted commands, of 0 (DRAFT) to 4 (ACTIONED) commands |
| ControlLifecycle.StatesAreFarFromDraft | app/core/types.py:67-102 | and by no shorter run, accepted or not |
| VersionGraph.NewObjectReachesEveryState | app/core/control_object.py:64-189 | what `build_control_object` returns can be activated, enriched, frozen, reconciled, disputed, actioned, superseded and deprecated, no command being refused |
| VersionGraph.SupersedeObjectKeepsLinksIff | app/core/control_object.py:192-206 | one `supersede_object` call keeps the version graph sound exactly when the build is refused or the original is ACTIVE, ENRICHED or ACTIONED |
| VersionGraph.ReachableStoresAreWellLinked | app/core/control_object.py:144-206 | every run of builds, lifecycle commands and allowed supersessions keeps forward and back links inverse, versions consecutive, tenants equal, and SUPERSEDED equivalent to having a successor |
| VersionGraph.LineageIsChain | app/core/control_object.py:198-206 | version is one plus the distance from the root; every version but possibly the last is SUPERSEDED |
| VersionGraph.LineageIsSimple | app/core/control_object.py:198-206 | supersession has no cycles |
| VersionGraph.LineagesMeetAlongOneChain | app/core/control_object.py:198-206 | two lineages that share an object are prefixes of one chain |
| VersionGraph.EveryObjectIsOnExactlyOneChain | app/core/control_object.py:198-206 | every object lies on the lineage of exactly one object that is not SUPERSEDED |
| ControlObjects.ControlObject.constructor | app/core/control_object.py:162-189 | a new object is a version-1 DRAFT with one "created" entry |
| ControlObjects.ControlObject.TransitionState | app/core/control_object.py:64-73 | the object and the outcome change as the lifecycle model says, whose accepted transitions are those of `TransitionSucceedsIff` |
| ControlObjects.ControlObject.EnrichPayload | app/core/control_object.py:75-83 | likewise for `enrich` |
| ControlObjects.ControlObject.Attach | app/core/control_object.py:85-89 | likewise for `attach_evidence` |
| ControlObjects.ControlObject.FreezeObject | app/core/control_object.py:91-95 | likewise for `freeze` |
| ControlObjects.ControlObject.SupersedeWith | app/core/control_object.py:106-108 | likewise for `supersede`, which writes the link first |
| ControlObjects.BuildControlObject | app/core/control_object.py:144-189 | refuses a blank label, a blank domain or a confidence outside [0, 1]; otherwise builds the fresh draft |
| VersionGraph.BlankInWords | app/core/control_object.py:150-155 | labels and domains of spaces, tabs and line ends are refused, one visible ASCII character is enough; label before domain before confidence |
| ControlObjects.SupersedeObject | app/core/control_object.py:192-206 | the original and the new version after the call, for a refused build, a refused transition and success |
| ControlObjects.BuildOnHeap | app/core/control_object.py:144-189 | likewise for `build_control_object` with a fresh id |
| ControlObjects.ApplyOnHeap | app/core/control_object.py:64-114 | likewise for every lifecycle method: its own object moves as its command says, the others stay |
| ControlObjects.SupersedeObjectOnHeap | app/core/control_object.py:192-206 | a whole heap of objects with distinct ids moves as the store model moves, and no other object is touched; a disciplined call keeps the heap well linked |
| ValidationChain.Judge | app/core/platform_validation_chain.py:211-387 | every request has a verdict: a certificate over all five checks if all gates hold, else the first failing gate |
| ValidationChain.JudgesGateByGate | app/core/platform_validation_chain.py:211-387 | the verdict on any request, written out gate by gate: what each gate asks, which detail it gives, the six origin texts, the hashed fields, the five checks of the certificate and its hash |
| ValidationChain.VerdictIsUnique | app/core/platform_validation_chain.py:211-286 | the verdict depends on request and policies alone, not on history |
| ValidationChain.StricterPoliciesCertifyLess | app/core/platform_validation_chain.py:328-353 | enlarging blocked types or narrowing allowed origins never certifies a rejected request |
| ValidationChain.Chain.Validate | app/core/platform_validation_chain.py:211-286 | returns a certificate iff all gates hold, otherwise names the first failing gate, and records exactly that |
| ValidationChain.Chain.GetPassRate | app/core/platform_validation_chain.py:414-418 | the pass rate is the share of certificates among the processed requests, 0 without any, and lies between 0 and 1 |
| ReleaseGate.Compile | app/core/platform_action_release_gate.py:92-125 | a compiled package verifies its own integrity, so the integrity branch of `submit` is never taken |
| ReleaseGate.HashIgnoresOrder | app/core/platform_action_release_gate.py:98-105 | with the other hashed fields fixed the package hash depends only on the multisets of evidence and provenance |
| Sorting.SortedTextsAgreeIff | app/core/platform_action_release_gate.py:101-102 | sorting two lists of strings gives the same list exactly when they have the same multiset |
| ReleaseGate.SubmissionsFailOnlyTheFirstThreeGates | app/core/platform_action_release_gate.py:202-213 | requests built by `submit` can only fail completeness, evidence or policy |
| NestedSubmissions.SubmitKeepsInvariantIff | app/core/platform_action_release_gate.py:170-301 | over one submission with fresh ids, logs in lockstep, statuses, package store and executor calls stay consistent exactly when the executor, if it is reached, returns a dictionary with string keys or raises an `Exception` that can be printed, and submits nothing to the gate itself |
| NestedSubmissions.RunExtends | app/core/platform_action_release_gate.py:170-301 | every run, nested submissions included: requests are processed, packages stored and executors called in the order the submissions start, entries logged in the order they end |
| NestedSubmissions.EveryRunIsSoundAtRest | app/core/platform_action_release_gate.py:160-301 | every run of recordable submissions with fresh package ids, whatever its executors submit: logs of one length, stored packages exactly those of released entries and each certified by all five checks for its own action type, executors called once each and exactly for the DISPATCHED and FAILED entries |
| NestedSubmissions.StoredPackagesAreTold | app/core/platform_action_release_gate.py:92-255 | every run, nested submissions included: a stored package is that of a submission nothing blocks, with its payload, evidence, provenance, origin, the policies in force, its certificate and the hash of the listed fields |
| NestedSubmissions.EveryRunProcessesWhatStarts | app/core/platform_action_release_gate.py:202-213 | every run: processed entry i is decided by the submission that started as number i alone |
| NestedSubmissions.EveryRunLogsWhatEnds | app/core/platform_action_release_gate.py:215-277 | every run of recordable submissions: log entry i has the status that the submission that ended as number i calls for |
| NestedSubmissions.CountersAgreeAtRest | app/core/platform_action_release_gate.py:309-319 | every run of recordable submissions: certificates and blocked entries add up to the log |
| NestedSubmissions.StricterPoliciesStoreLess | app/core/platform_validation_chain.py:328-353 | every run: a package stored, that is released, under stricter policies is stored without them |
| NestedSubmissions.NestedSubmissionPartsTheLogs | app/core/platform_action_release_gate.py:213-277 | a witness: an executor that submits and returns leaves a BLOCKED entry at the place of a certificate |
| ReleaseGate.EveryRunKeepsInvariant | app/core/platform_action_release_gate.py:160-301 | over every sequence of submissions whose executors keep to that: entry i is released iff processed entry i is a certificate; stored packages are exactly those of released entries, each with all five checks and its own action type; the executor ran once, in order, for each DISPATCHED or FAILED entry |
| ReleaseGate.EveryRunIsPointwise | app/core/platform_action_release_gate.py:202-213 | where no executor submits itself, processed entry i is decided by submission i alone |
| ReleaseGate.CertifiedIffReleasable | app/core/platform_validation_chain.py:288-353 | a submission is certified exactly when type, requester and payload are non-empty, an AI action brings evidence, the type is not blocked and the origin is allowed for it |
| ReleaseGate.OutcomeIsTold | app/core/platform_action_release_gate.py:202-277 | what `submit` logs and returns, from the submission and the policies: the check and detail it is blocked for, or the status and body its executor calls for |
| ReleaseGate.SoleOriginDecides | app/core/platform_validation_chain.py:328-353 | an action type guarded by one of the six origin texts alone: a submission that meets the other conditions is blocked for its origin exactly when that is another one, and else is not blocked |
| ReleaseGate.EveryStatusIsExpected | app/core/platform_action_release_gate.py:215-277 | where no executor submits itself, entry i is BLOCKED, COMPILED, DISPATCHED or FAILED exactly as submission i and its executor call for |
| ReleaseGate.StricterPoliciesReleaseLess | app/core/platform_action_release_gate.py:212-223 | where no executor submits itself, the same submissions under stricter policies release no entry that was blocked before |
| ReleaseGate.CountersAgree | app/core/platform_action_release_gate.py:309-319 | while the logs are in step, the chain's certificates and the gate's blocked entries add up, after any number of entries |
| ReleaseGate.Gate.Submit | app/core/platform_action_release_gate.py:170-301 | the gate object moves as the step model says, result included |
| Billability.Evaluate | app/domain_packs/reconciliation.py:981-1107 | flag, category, ordered blockers and triggers of the six rules |
| Billability.BillableDespiteBlockersIff | app/domain_packs/reconciliation.py:1006-1100 | no blockers implies billable; billable with blockers happens exactly for a no-access visit with missing evidence or gate and no later rule firing |
| SlaAccountability.Evaluate | app/domain_packs/reconciliation.py:1224-1322 | accountable iff no blocker is of the four excusing types; mitigation factors in order; status of the last mitigating blocker |
| SlaAccountability.StatusOfLastBlocker | app/domain_packs/reconciliation.py:1245-1316 | the adjusted status is "paused", "excluded" or "mitigated" as the last blocker of the five types says, and unchanged without one |
| Leakage.BuildBook | app/domain_packs/reconciliation.py:1361-1367 | the invoiced ids and the rate map |
| Leakage.RateMapHoldsLastEntry | app/domain_packs/reconciliation.py:1363-1367 | an activity is priced by its last entry on the card, and unpriced exactly when it has none |
| Leakage.ScanOrder | app/domain_packs/reconciliation.py:1369-1512 | one work order appends exactly its findings, which `OrderFindingsAreAccount` lists, paired, and grows the total by their sum |
| Leakage.OrderFindingsAreAccount | app/domain_packs/reconciliation.py:1369-1512 | the findings on one order, pattern by pattern and in order: condition, severity and amount of each, and the amount a recommendation names, told from the order, the invoiced ids and the rate map |
| Leakage.WorthIsTheValue | app/domain_packs/reconciliation.py:1373-1512 | an unbilled, re-attendance, variation or evidence finding is worth the value of the order, and its estimate only where no value is given |
| Leakage.Reconcile | app/domain_packs/reconciliation.py:1352-1559 | triggers and recommendations pair one to one in order and the running total equals the sum of `at_risk_value`, which `TotalIsLossesAndCredits` tells from the input |
| Leakage.TotalIsLossesAndCredits | app/domain_packs/reconciliation.py:1352-1559 | the total is the sum over the orders of what each pattern that fires is worth, plus the credits of the breaches that were not credited; duplicates add nothing |
| Leakage.OrderFindingsSplit | app/domain_packs/reconciliation.py:1369-1512 | the findings of a concatenated list are the concatenation of those of its parts |
| Leakage.TotalIgnoresOrder | app/domain_packs/reconciliation.py:1353-1512 | the total over work orders does not depend on their order |
| Leakage.ComputedAmountsArePositive | app/domain_packs/reconciliation.py:1404-1477 | emergency, permit and escalation amounts are positive whenever they are reported |
| Leakage.NoOrderFindingsIffClean | app/domain_packs/reconciliation.py:1369-1512 | a work order raises nothing exactly when none of the eight patterns holds of it |
| Leakage.AnalysisIsSeriousIff | app/domain_packs/reconciliation.py:1369-1553 | the analysis contains an error or worse exactly when some order shows one of the five serious patterns |
| Leakage.GroupClaims | app/domain_packs/reconciliation.py:1530-1541 | the claim map: keys in order of appearance, each with its ids in list order |
| Leakage.GroupFindingsAreReportedGroups | app/domain_packs/reconciliation.py:1542-1553 | duplicate findings are exactly the groups of two or more |
| Leakage.PositionsAreExact | app/domain_packs/reconciliation.py:1530-1541 | a group lists every position with its key, once, in order |
| Leakage.KeysAreListedOnce | app/domain_packs/reconciliation.py:1531-1541 | no key is reported twice |
| Leakage.DuplicateGroupsAreExact | app/domain_packs/reconciliation.py:1530-1553 | two positions whose claims their keys tell apart (one of them unambiguous, or both free of the separator in activity and location) are reported together iff they make the same claim, and not the empty one; no position is in two groups |
| ClaimKeys.KeyOfEntries | app/domain_packs/reconciliation.py:1533-1539 | the key is the lower-case activity, the lower-case location and the date, stripped, in that order |
| ClaimKeys.ClaimIsUnambiguousIff | app/domain_packs/reconciliation.py:1533-1539 | no other claim a work order can make has the key of this one exactly when no separator without surrounding space is in its activity, in its location, or in its date behind lower-case text |
| ClaimKeys.FormableIff | app/domain_packs/reconciliation.py:1533-1539 | the claims work orders can make are the triples of stripped texts, the first two lower-case |
| ClaimKeys.TextIsUnambiguousIff | app/domain_packs/reconciliation.py:1533-1539 | among arbitrary texts a key has one reading exactly when no field contains the separator; for claims this is sufficient |
| Leakage.SeparatorGroupsDifferentClaims | app/domain_packs/reconciliation.py:1530-1553 | a witness: two work orders with different claims in one reported group |
| Contradictions.Detect | app/domain_packs/reconciliation.py:1599-1743 | the conflicts found, in order; `MarginCauses.ContradictionIff` tells them in numbers |
| Contradictions.NoContradictionsIffConsistent | app/domain_packs/reconciliation.py:1607-1743 | nothing is reported exactly when scope, completion, every similar rate up to the tolerance, approval and penalty agree; the tolerance in numbers is in `MarginCauses` |
| Contradictions.ContractConflictIff | app/domain_packs/reconciliation.py:1714-1743 | the approval and penalty contradictions, their severity and their conditions |
| MarginDiagnosis.BuildContractData | app/domain_packs/reconciliation.py:2014-2040 | contract objects are distributed by kind to the four lists, in order |
| MarginDiagnosis.OfKindIsExact | app/domain_packs/reconciliation.py:2022-2033 | an object is on a list exactly when it has one of that list's kinds |
| MarginCauses.ListsHoldTheirKinds | app/domain_packs/reconciliation.py:2022-2033 | which contract objects go to which list, by the kinds written out and by type, control type, object type in that order |
| MarginCauses.InvoicedIff | app/domain_packs/reconciliation.py:1361-1362 | an order counts as invoiced exactly when some contract object of kind invoice names it |
| MarginCauses.RateIsOfLastObject | app/domain_packs/reconciliation.py:1363-1367 | an activity has the rate of the last contract object of a rate-card kind that names it, and none without such an object |
| MarginDiagnosis.CheckSla | app/domain_packs/reconciliation.py:1931-1961 | the SLA conflicts of the diagnosis |
| MarginDiagnosis.Reconcile | app/domain_packs/reconciliation.py:1870-2010 | the orchestration computes the diagnosis the verdict theorems and `MarginCauses` speak about |
| MarginDiagnosis.PenaltyRiskIff | app/domain_packs/reconciliation.py:1931-1961 | penalty risk iff the status is breached and no blocker is of the four excusing types |
| MarginDiagnosis.PenaltyRiskIgnoresBlockerOrder | app/domain_packs/reconciliation.py:1283-1316 | reordering blockers does not change penalty risk |
| MarginDiagnosis.BlockersNeverCreatePenaltyRisk | app/domain_packs/reconciliation.py:1283-1316 | adding blockers never creates penalty risk |
| MarginDiagnosis.HealthyIff | app/domain_packs/reconciliation.py:1870-2071 | healthy exactly when no order lost money, every completed one is invoiced, no claims are shared, breaches are credited, current orders are unblocked and contradict nothing, and no breach or mitigating blocker exists; `MarginCauses` tells each of these in numbers and words |
| MarginCauses.ContradictionIff | app/domain_packs/reconciliation.py:1599-1743 | a contradiction is in the diagnosis exactly when some current order makes it: with a scope boundary, with the first incident, or with a rate-card object for work at least 0.55 similar whose rate is more than 1% off (a warning) or more than 10% (critical) |
| MarginCauses.RateOffIsReported | app/domain_packs/reconciliation.py:1683-1712 | a field rate outside 99 to 101% of a card rate for similar work is in the diagnosis, which is not healthy |
| MarginCauses.HealthyRatesAreWithinOnePercent | app/domain_packs/reconciliation.py:1683-1712 | in a healthy diagnosis every field rate lies between 99 and 101% of every card rate for similar work |
| MarginCauses.BillingConflictIff | app/domain_packs/reconciliation.py:1006-1100 | a billing conflict is in the diagnosis exactly when its rule blocks some current order: evidence, gate, provider fault, daywork sheet or variation order |
| MarginCauses.SlaConflictIff | app/domain_packs/reconciliation.py:1931-1961 | the SLA conflicts by status and blocker types, all written out |
| MarginCauses.HealthyOrdersLoseNothing | app/domain_packs/reconciliation.py:1369-1512 | in a healthy diagnosis the account of every order, current or past, is empty |
| MarginCauses.VerdictFromLists | app/domain_packs/reconciliation.py:2042-2071 | the verdict from the four lists of the diagnosis |
| MarginDiagnosis.HealthyOrdersAreBillable | app/domain_packs/reconciliation.py:1909-1929 | every current order of a healthy diagnosis is billable without blockers |
| MarginDiagnosis.UnderRecoveryIff | app/domain_packs/reconciliation.py:2042-2071 | under-recovery exactly when no penalty applies and, if anything leaked, some order shows a serious pattern, else some current order is seriously wrong; all told from the input |
| MarginDiagnosis.LeakageDetectedIff | app/domain_packs/reconciliation.py:2042-2071 | leakage detected exactly when no penalty applies and there is leakage without a serious pattern, or no leakage and conflicts that are all mild |
| MarginDiagnosis.ExtraTriggerLowersVerdictIff | app/domain_packs/reconciliation.py:2055-2069 | one more trigger makes the verdict milder exactly when it is the first one, a warning, and hides a serious conflict |
| MarginDiagnosis.UncreditedBreachLowersVerdictIff | app/domain_packs/reconciliation.py:2042-2071 | the same at the input: one more uncredited breach makes the verdict milder exactly when nothing had leaked, no penalty applies and some current order is seriously wrong |
| MarginDiagnosis.BreachMasksUnmetGate | app/domain_packs/reconciliation.py:2055-2069 | a witness: one open order with an unmet gate is under-recovery, and with an uncredited breach besides only leakage detected |
| IncidentLinks.LinkIncidents | app/domain_packs/reconciliation.py:351-441 | the links found, with signals, in incident order |
| IncidentLinks.SignalsInNumbers | app/domain_packs/reconciliation.py:377-423 | the four signals with their conditions and weights: 0.35, 0.30, 0.25, 0.10, similarities from 0.55 on, and a window of 48 hours |
| IncidentLinks.ConfidenceRange | app/domain_packs/reconciliation.py:377-423 | two signals are worth at least 0.22, all together at most 1, so the clamp does nothing |
| IncidentLinks.DetectConflicts | app/domain_packs/reconciliation.py:443-560 | the conflicts along links, against the last incident of each id |
| IncidentLinks.PairConflictIff | app/domain_packs/reconciliation.py:475-558 | the conflicts of a pair in numbers and words: more than 48 hours late, after the end, two owners, and the priorities each severity accepts |
| IncidentLinks.MatchAndConflictExcludeIffSound | app/domain_packs/reconciliation.py:400-514 | no time-matched incident can conflict on timing exactly when the schedule has no end, or start <= end <= start + 48h |
| IncidentLinks.PostCompletionReachableIff | app/domain_packs/reconciliation.py:476-514 | the post-completion branch is reachable exactly when the end precedes the start |
| IncidentLinks.ReportedIffConflicting | app/domain_packs/reconciliation.py:351-560 | end to end, for every list of incidents, a conflict is reported exactly when some incident with an id shares two signals with the work order and the last incident with that id conflicts in that way |
| IncidentLinks.MatchedLinkConflictsIff | app/domain_packs/reconciliation.py:351-514 | end to end, for every schedule and list, a time-matched link leads to a timing conflict exactly when the last incident with the id of some linked, time-matched incident lies off the schedule |
| IncidentLinks.SoundMatchConflictsOnlyOnRepeatedId | app/domain_packs/reconciliation.py:400-514 | with a sound schedule that takes a later incident with the same id, created more than 48h after the start |
| IncidentLinks.SoundMatchesDoNotConflict | app/domain_packs/reconciliation.py:351-514 | with a sound schedule and no id repeated, no time-matched link leads to a timing conflict |
| IncidentLinks.RepeatedIdMakesMatchConflict | app/domain_packs/reconciliation.py:459-491 | a witness: two incidents with one id, a sound schedule, a time-matched link and a timing conflict |
| IncidentLinks.TimingConflictsAreUnmatched | app/domain_packs/reconciliation.py:351-514 | with a sound schedule and no id repeated, every timing conflict is a warning about an incident not matched on time |
| RankFusion.Accumulate | services/retrieval-service/service.py:122-134 | scores, latest items and key order after both loops |
| RankFusion.HybridSearch | services/retrieval-service/service.py:115-137 | each result is the latest item of a fused id with its full score, which `ScoreInNumbers` tells |
| RankFusion.ScoreOfDistinct | services/retrieval-service/service.py:126-134 | in duplicate-free lists a score is the sum of the weights of its places |
| RankFusion.ScoreInNumbers | services/retrieval-service/service.py:122-134 | that is 1/(61 + rank) for each list the id is in, and 0 for none |
| RankFusion.RankedBeforeIff | services/retrieval-service/service.py:136 | of two results the one with the higher score comes first; among equals the one met first, keyword results before vector results |
| RankFusion.TwoPlacesBeatKeywordPlaceIff | services/retrieval-service/service.py:122-137 | an id at places r and q comes before one at keyword place s alone exactly when 1/(61+r) + 1/(61+q) > 1/(61+s), for every cut |
| RankFusion.TwoPlacesBeatVectorPlaceIff | services/retrieval-service/service.py:122-137 | and before one at vector place s alone exactly when 1/(61+r) + 1/(61+q) >= 1/(61+s) |
| RankFusion.FusionKeepsTheBest | services/retrieval-service/service.py:136-137 | min(top_k, union) distinct ids in descending score, no omitted id scoring higher |
| RankFusion.NegativeTopKDropsTheWorst | services/retrieval-service/service.py:136 | a negative `top_k` leaves out that many of the worst ids |
| Sorting.SortIsStable | services/retrieval-service/service.py:136 | of two elements the strictly smaller comes first, and equals keep their order |
| RankFusion.DominatingIdIsKept | services/retrieval-service/service.py:126-137 | an id at or above a kept id in both lists, once strictly, is kept and precedes it |
| RankFusion.SelfFusionKeepsOrder | services/retrieval-service/service.py:126-137 | fusing a duplicate-free list with itself preserves its order |
| Escalation.Evaluate | services/escalation_engine.py:37-74 | the recommended level is the least level at or above the current one that meets every rule's demand; the actions are those of the four rules in order, and answer exactly the demands above the level |
| Escalation.TrackedLevelInMinutes | services/escalation_engine.py:76-181 | status and level in minutes: at risk from half the resolution time, breached from the whole; level 3 from three quarters of it or for a VIP with more than 100 customers, 2 from half of it or for P1, 1 with at most 30 minutes left for the response |
| Escalation.TrackedActionsInMinutes | services/escalation_engine.py:76-181 | which actions each rule adds, with target level and urgency, in minutes |
| Escalation.UntrackedLevel | services/escalation_engine.py:76-181 | without a report time or a target only the P1 and the VIP rule count |
| Escalation.DefaultTargets | services/escalation_engine.py:31-43 | the minutes of P1 to P4 that hold when the caller gives no targets |
| Escalation.EvaluatingAgainYieldsNothing | services/escalation_engine.py:37-181 | escalation is a one-step closure: evaluating again at the recommended level and the same time yields no action and the same level |
| Escalation.CheckSla | services/escalation_engine.py:86-137 | status and actions by share of the resolution time |
| Escalation.CheckUnack | services/escalation_engine.py:156-181 | an action exactly when the response deadline is near and the level is below 1 |
| Escalation.RecommendIsMonotone | services/escalation_engine.py:86-181 | status and recommendation never go down with time |
| Escalation.AtMostThreeEscalations | services/escalation_engine.py:37-181 | any evaluate-and-apply run, whatever the facts and the clock do, escalates at most three times |
| Escalation.OnlyTheLastVisitMatters | services/escalation_engine.py:37-181 | for fixed facts a run with a non-decreasing clock ends where one evaluation at its last time ends |
| EntityMerge.ResolveEntity | services/canonicalization-service/service.py:30-73 | flag and score are those of the best text at or above the threshold; the entity is the first scanned of the best; the candidates shown are the best five of the entities that reach it |
| EntityMerge.NamesAndAliases | services/canonicalization-service/service.py:39-56 | a query is compared with the names and the aliases, listed or keyed, of the tenant's entities of the type |
| EntityMerge.ResolutionIsUnique | services/canonicalization-service/service.py:50-64 | that specification leaves one flag and one score for a set of names |
| EntityMerge.TopFiveAreBest | services/canonicalization-service/service.py:66-73 | the candidates shown are 5, or all if there are fewer, best rounded similarity first, and none left out is better |
| EntityMerge.ResolveAlikeIff | services/canonicalization-service/service.py:25-64 | two sets of names give every query and threshold the same flag and score exactly when they agree after lower-casing and stripping |
| EntityMerge.MergeKeepsResolutionIff | services/canonicalization-service/service.py:99-133 | for every type of the tenant, a merge leaves every resolution unchanged exactly when, up to normalisation, the type loses no name and gains none |
| EntityMerge.SameTypeMergeGainsNoName | services/canonicalization-service/service.py:125-127 | within one type only lost names can matter |
| EntityMerge.CrossTypeMergeKeepsResolutionIff | services/canonicalization-service/service.py:103-131 | a merge across types: when the source's type and the target's type keep their resolutions |
| EntityMerge.MergeIsLocal | services/canonicalization-service/service.py:103-131 | no other tenant or type is affected |
| EntityMerge.RowsAfterMerge | services/canonicalization-service/service.py:125-131 | row by row: the source is gone, the target takes the combined aliases, and where both have a metadata key the source's entry wins |
| EntityMerge.CombinedAliases | services/canonicalization-service/service.py:125-127 | the combined aliases are the listed ones of both and the source's name |
| EntityMerge.MergesKeepResolution | services/canonicalization-service/service.py:99-133 | with list aliases any sequence of merges of distinct entities of one type leaves every resolution unchanged |
| EntityMerge.EntityTable.Merge | services/canonicalization-service/service.py:99-133 | computes the combined aliases, each once, and leaves the table as the merge model says, not-found cases included |
| Chunking.ChunkText | services/chunking-service/service.py:51-73 | ceil(len/step) chunks, chunk i being the window at i * step |
| Chunking.ChunksInCharacters | services/chunking-service/service.py:51-73 | with 4 characters a token, chunk i starts at 4 * i * (size - overlap), is 4 * size long or as long as there is text left, and counts a quarter of its length as tokens, at least one |
| Chunking.ChunksReproduceText | services/chunking-service/service.py:51-73 | for any non-negative overlap the first `step` characters of the chunks give back the text |
| Chunking.EveryCharacterCoveredIff | services/chunking-service/service.py:51-59 | every character is in a chunk exactly when the overlap is non-negative or one chunk holds the text |
| PromptCache.CacheKeysAgreeIff | shared/prompts/registry.py:104-106 | keys agree exactly when name, pack part and version key agree, given colon-free names or colon-free packs |
| PromptCache.KeyIsUnambiguousIff | shared/prompts/registry.py:104-106 | a key is read in one way only exactly when the name has no colon and the pack part has none before its last character |
| PromptCache.SeparatorInBothCollides | shared/prompts/registry.py:104-106 | a witness: two different names and packs with one key |
| PromptCache.KeyIsNamePackVersion | shared/prompts/registry.py:104-106 | the key is name, pack or "_", version or "latest" |
| PromptCache.SourceOfLookup | shared/prompts/registry.py:49-140 | an uncached lookup reads the row if there is a session and a row, else the file of its pack, or of no pack where that is absent or empty |
| PromptCache.CacheIsTransparent | shared/prompts/registry.py:36-67 | after any run of lookups with one session choice, and of invalidations, a canonical lookup with that choice answers as if uncached |
| PromptCache.LookupReadsItsOwnPack | shared/prompts/registry.py:36-140 | after any run of canonical lookups with one session choice, and of invalidations, a lookup without a row is answered with the file of its own name and pack |
| PromptCache.MixedRunIsTransparentIff | shared/prompts/registry.py:36-67 | for any run of lookups, with and without a session and of any requests, and of invalidations: whatever the store holds, a lookup answers as if uncached exactly when no lookup under its key, since that was last dropped, consults more than it does, and with a session the first of them had one |
| PromptCache.CanonicalLookupsAgree | shared/prompts/registry.py:36-67 | for canonical requests the lookups under a key are all of one request, so only the session choices matter |
| PromptCache.FileHidesRow | shared/prompts/registry.py:49-64 | a witness: a lookup without a session hides the database row from the next one with a session |
| PromptCache.CollisionIsHarmlessIff | shared/prompts/registry.py:36-67 | for arbitrary requests, one lookup leaves another correct for every store exactly when their keys differ, or the session choices agree and they mean the same lookup |
| PromptCache.InvalidateIsExact | shared/prompts/registry.py:93-100 | `invalidate(name)` removes exactly that name's entries |
| PromptCache.InvalidateRestoresTransparency | shared/prompts/registry.py:93-100 | after the templates of one name change, invalidating that name is enough |
| PromptCache.PromptRegistry.GetTemplate | shared/prompts/registry.py:36-67 | cache and answer move as the step model says |
| PromptCache.PromptRegistry.InvalidateName | shared/prompts/registry.py:93-100 | the cache after invalidation |
| TemplateFill.FillTemplate | slm/training/scenario_generator.py:644-651 | terminates; every replacement removes exactly one opening brace |
| TemplateFill.OnlyFirstIsReplaced | slm/training/scenario_generator.py:650 | the first occurrence, and nothing else, gives way to the value |
| TemplateFill.ReplacementClosesOne | slm/training/scenario_generator.py:648-650 | filling with a brace-free value removes exactly one opening brace |
| TemplateFill.FlatTemplateIsFilled | slm/training/scenario_generator.py:644-651 | a template without nested groups keeps no known placeholder, whatever the keys and values |
| NestedTemplates.PlaceholderCanSurviveIff | slm/training/scenario_generator.py:644-651 | over all brace-free keys and values (not only the keys in use), some placeholder can be left exactly when the template has a closed group that directly contains another closed group |
| KnownTemplates.KnownPlaceholderCanSurviveIff | slm/training/scenario_generator.py:554-651 | with the keys and values in use, some known placeholder can be left exactly when the template contains "{{containment}}" |
| FillTable.ValueMisses | slm/training/scenario_generator.py:554-641 | no value is part of an earlier key, nor of `containment`, but for "contained" in the key `contained` |
| KnownTemplates.NestedTemplateKeepsPlaceholder | slm/training/scenario_generator.py:554-651 | with the keys in use, a doubly braced "containment" can be left as the placeholder "contained", whose key has been passed |
| ScenarioGeneration.Generate | slm/training/scenario_generator.py:678-738 | how many examples there are, first call or later, at least the per-scenario share of each type, earlier examples kept, and added ones of the scenario types |
| ScenarioGeneration.CreateSplits | slm/training/scenario_generator.py:756-765 | the three splits concatenate to the whole list; training ends at eight tenths and validation at nine tenths of it, rounded down |
| KeyRecords.AsDict | app/core/types.py:256-267 | the truthy known fields, overlaid by the custom entries |
| KeyRecords.CorrelationFields | app/core/types.py:248-274 | the four known names of correlation keys; every other key is custom |
| KeyRecords.ExternalFields | app/core/types.py:277-304 | likewise for external references |
| KeyRecords.ReadThenWriteIff | app/core/types.py:256-274 | reading then writing is the identity exactly when no known name maps to the empty string |
| KeyRecords.WriteThenReadIff | app/core/types.py:286-304 | writing then reading is the identity exactly when custom avoids the known names and no field is empty |

## Left out

- ControlObjects.SupersedeObjectOnHeap: the heap and its store are ghost arguments; the source keeps no registry of objects.
- VersionGraph.ReachableStoresAreWellLinked: covers runs in which SUPERSEDED is entered through `supersede_object` from a state that allows it; the call itself is characterised for every state by `SupersedeObjectKeepsLinksIff`.
- ReleaseGate.EveryRunKeepsInvariant: assumes fresh package ids and executors that end in a way that can be recorded and submit nothing themselves; executors that submit are covered by `NestedSubmissions.EveryRunIsSoundAtRest`. The same holds of `EveryRunIsPointwise`, `EveryStatusIsExpected` and `StricterPoliciesReleaseLess`, whose general forms are in `NestedSubmissions` too.
- NestedSubmissions.SubmitKeepsInvariantIff: the truth test of the executor (line 257 of the gate), which stands outside the `try`, is assumed to return.
- NestedSubmissions.EveryRunIsSoundAtRest: nested submissions are a list fixed beforehand, so it holds of every list an executor may choose; threads that submit to one gate at the same time are not modelled.
- ClaimKeys.ClaimIsUnambiguousIff: `lower` and `strip` are taken to obey the laws of `TextLaws`, proved here of stripping and of ASCII lower-casing.
- ReleaseGate.HashIgnoresOrder: nothing is claimed about collisions, nor that the hash binds the action manifest or the policy snapshot, which it does not cover.
- Chunking.ChunkText: chunk sizes of zero or less, which the request schema rejects (services/chunking-service/schemas.py:15), are not modelled; extracting the text from a stored document is not either.
- RankFusion.HybridSearch: scores before `round`; the keyword and vector searches that produce the two lists are inputs.
- ScenarioGeneration.CreateSplits: split points are exact fractions instead of floating-point products; writing files is left out.
- KeyRecords.AsDict: one record over a list of known names stands for both classes, and a loop over that list for the four tests of each.
- Leakage.Reconcile: trigger and recommendation wording, and coercion of ill-typed values, are not modelled; each `if` of the source's loop is a call that reports when its condition holds.
- MarginDiagnosis.Reconcile: contract/work-order links, evidence bundles, confidence and summary do not influence the verdict and are left out, as are the readiness and ops assemblers.
- Escalation.Evaluate: times are minutes on one clock; parsing timestamps and the wording of reasons are left out.
- IncidentLinks.LinkIncidents: date parsing is replaced by typed times in microseconds; confidence is taken before `round`.
- Ticket closure handover, readiness, evidence-chain validation, audit event constructors: further branch-only rules that would add easy members.
- Routers, databases, queues, model gateways, authentication: wiring around the cores, without logic to prove.
