/** Observing the result of a mutated attempt, publishing the completed
    evidence and sealing the success receipt. */
module Completion {
  import opened Wrappers
  import opened Paths
  import opened Plans
  import opened Journal
  import opened Record
  import opened History
  import opened Ledgers
  import opened Jobs
  import opened Protocol
  import opened Receipts
  import opened Backend
  import opened Applications
  import opened Phases
  import opened Preparation
  import opened Publication
  import opened Execution
  import opened Recovery

  // ---------------------------------------------------------------- matching

  function RetainedMatch(before: Presence, sighting: Sighting): Match {
    if sighting.Unseen? || before.Unobserved? then Unsure
    else if before.Absent? then (if sighting.Gone? then Matched else Mismatch)
    else if sighting.Gone? then Mismatch
    else sighting.match_
  }

  /** How the observed result of a decision compares with the planned one. */
  function MatchResult(decision: Decision, effect: Option<Outcome>, before: Presence, sighting: Sighting): Match {
    if sighting.Unseen? then Unsure
    else
      match decision.active
      case ActivateIncoming => if sighting.Gone? then Mismatch else sighting.match_
      case RetainObserved => RetainedMatch(before, sighting)
      case RemoveObserved | RemainAbsent => if sighting.Gone? then Matched else Mismatch
      case RemoveDirectoryIfEmpty =>
        if effect == Some(ConditionalRetained) then RetainedMatch(before, sighting)
        else if sighting.Gone? then Matched
        else Mismatch
  }

  function AfterOf(sighting: Sighting): After {
    match sighting
    case Unseen => UnknownState
    case Gone => Observed(false)
    case Here(_) => Observed(true)
  }

  function MatchTerminal(m: Match): EventKind {
    match m
    case Matched => EventCompleted
    case Mismatch => EventFailed
    case Unsure => EventIndeterminate
  }

  function Verdict(job: Job, seed: Seed, m: MutatedAttempt, i: nat, sighting: Sighting): Match
    requires i < |job.plan|
  {
    var p := job.plan[i].path;
    MatchResult(job.plan[i], OutcomeOf(m.effects, p), PresenceOf(seed, p), sighting)
  }

  /** The consequence of a decision whose result matched. */
  function CompletedConsequence(job: Job, m: MutatedAttempt, i: nat, sighting: Sighting): Consequence
    requires i < |job.plan| && |m.published.rejected| <= |job.rejected|
  {
    var p := job.plan[i].path;
    var active := OutcomeOf(m.effects, p);
    Consequence(p, if active.None? then Some(Completed) else active,
                RejectedOutcomeOf(job.rejected, m.published.rejected, p), AfterOf(sighting), true)
  }

  function ObserveKey(p: Path): Key {
    Key(ObserveResult, Some(p))
  }

  /** Facts about the earlier phases that the completion starts from. */
  ghost predicate Mutated(job: Job, ledger: Ledger, m: MutatedAttempt) {
    && EffectsRecorded(job, ledger, m.effects) && |m.effects| == |job.active| && SemanticallyComplete(m.effects)
    && AllRejected(job, ledger, m.published.rejected)
    && AllCaptured(job, ledger, m.published.prepared.captures)
  }

  lemma MutatedSame(job: Job, before: Ledger, after: Ledger, m: MutatedAttempt, changed: set<EffectKind>)
    requires Mutated(job, before, m) && OnlyChanged(before, after, changed) && changed <= CompletionKinds()
    ensures Mutated(job, after, m)
  {
    SameRecords(job, before, after, m.effects, m.published.rejected, changed);
    CapturesSame(job, before, after, m.published.prepared.captures, changed);
  }

  // ---------------------------------------------------------------- observing

  /** Publishes one event of an observation. */
  method PublishObservation(app: Application, i: nat, kind: EventKind) returns (r: Flow<()>)
    requires app.Open() && app.ledger.state.EffectsVisible? && RecoverIdle(app.ledger) && i < |app.job.plan|
    requires MoveAllowed(app.ledger, Move(ObserveKey(app.job.plan[i].path), kind, None))
    modifies app, app.store, app.history
    ensures r.Crashed? ==> app.MayCrash()
    ensures app.Safe()
    ensures r.Live? ==>
              && app.Open() && app.ledger.state.EffectsVisible? && RecoverIdle(app.ledger)
              && OnlyPlaced(old(app.ledger), app.ledger, ObserveKey(app.job.plan[i].path),
                            SlotAfter(Move(ObserveKey(app.job.plan[i].path), kind, None)))
    ensures !r.Thrown?
  {
    hide Inv, StoredParts, Application.AwareOf, Attests;
    var key := ObserveKey(app.job.plan[i].path);
    assert PlanPaths(app.job.plan)[i] == app.job.plan[i].path;
    Behind(app);
    NeutralIdle(app.ledger, EffectsVisible, key, SlotAfter(Move(key, kind, None)));
    r := PublishNeutral(app, EffectsVisible, Move(key, kind, None));
  }

  /** Publishes the intent to observe every planned path. */
  method IntendObservations(app: Application) returns (r: Flow<()>)
    requires app.Open() && app.ledger.state.EffectsVisible? && RecoverIdle(app.ledger)
    requires Untouched(app.ledger, {ObserveResult})
    modifies app, app.store, app.history
    ensures r.Crashed? ==> app.MayCrash()
    ensures app.Safe()
    ensures r.Live? ==>
              && app.Open() && app.ledger.state.EffectsVisible? && RecoverIdle(app.ledger)
              && OnlyChanged(old(app.ledger), app.ledger, {ObserveResult})
              && forall i :: 0 <= i < |app.job.plan| ==> At(app.ledger, ObserveKey(app.job.plan[i].path)).Intended?
    ensures !r.Thrown?
  {
    hide Inv, StoredParts, Application.AwareOf, Attests;
    JobFacts(app);
    app.IsSafe();
    ghost var first := app.ledger;
    for i := 0 to |app.job.plan|
      invariant app.Open() && app.Safe() && app.ledger.state.EffectsVisible? && RecoverIdle(app.ledger)
      invariant OnlyChanged(first, app.ledger, {ObserveResult})
      invariant forall j :: 0 <= j < |app.job.plan| ==>
                              At(app.ledger, ObserveKey(app.job.plan[j].path)) == if j < i then Intended else Idle
    {
      PlanPathsApart(app.job.plan, i);
      var intended :- PublishObservation(app, i, Intent);
    }
    return Live(());
  }

  lemma PlanPathsApart(plan: Plan, i: nat)
    requires i < |plan| && Distinct(PlanPaths(plan))
    ensures plan[i].path in PlanPaths(plan)
    ensures forall j :: 0 <= j < |plan| && j != i ==> plan[j].path != plan[i].path
  {
    assert PlanPaths(plan)[i] == plan[i].path;
    forall j | 0 <= j < |plan| && j != i ensures plan[j].path != plan[i].path {
      assert PlanPaths(plan)[j] != PlanPaths(plan)[i];
    }
  }

  datatype Comparison = Comparison(paths: seq<Consequence>, mismatch: bool, unsure: bool)

  /** A result that did not match is on record. */
  ghost predicate Doubted(job: Job, ledger: Ledger) {
    exists j :: 0 <= j < |job.plan| && NotCompleted(At(ledger, ObserveKey(job.plan[j].path)))
  }

  /** The first i results have been compared with the plan. */
  ghost predicate Compared(
    job: Job, seed: Seed, ledger: Ledger, m: MutatedAttempt, sightings: seq<Sighting>, i: nat, o: Comparison)
  {
    && |sightings| == |job.plan| && i <= |job.plan| && |m.published.rejected| <= |job.rejected|
    && (!o.mismatch && !o.unsure ==>
          && |o.paths| == i
          && forall j :: 0 <= j < i ==>
               && o.paths[j] == CompletedConsequence(job, m, j, sightings[j])
               && Verdict(job, seed, m, j, sightings[j]).Matched?
               && CompletedSlot(At(ledger, ObserveKey(job.plan[j].path))))
  }

  lemma ComparedNext(
    job: Job, seed: Seed, before: Ledger, after: Ledger, m: MutatedAttempt, sightings: seq<Sighting>, i: nat, o: Comparison)
    requires Compared(job, seed, before, m, sightings, i, o) && i < |job.plan| && Distinct(PlanPaths(job.plan))
    requires var key := ObserveKey(job.plan[i].path);
             && At(after, key).Done? && At(after, key).kind == MatchTerminal(Verdict(job, seed, m, i, sightings[i]))
             && forall other: Key :: other != key ==> At(after, other) == At(before, other)
    ensures var verdict := Verdict(job, seed, m, i, sightings[i]);
            Compared(job, seed, after, m, sightings, i + 1,
                     Comparison(o.paths + (if verdict.Matched? then [CompletedConsequence(job, m, i, sightings[i])] else []),
                                o.mismatch || verdict.Mismatch?, o.unsure || verdict.Unsure?))
  {
    PlanPathsApart(job.plan, i);
  }

  lemma DoubtedNext(job: Job, before: Ledger, after: Ledger, i: nat, terminal: EventKind)
    requires i < |job.plan| && Distinct(PlanPaths(job.plan))
    requires !At(before, ObserveKey(job.plan[i].path)).Done?
    requires OnlyPlaced(before, after, ObserveKey(job.plan[i].path), Done(terminal, None))
    ensures Doubted(job, before) || !terminal.EventCompleted? ==> Doubted(job, after)
  {
    PlanPathsApart(job.plan, i);
    if Doubted(job, before) {
      var j :| 0 <= j < |job.plan| && NotCompleted(At(before, ObserveKey(job.plan[j].path)));
      assert At(after, ObserveKey(job.plan[j].path)) == At(before, ObserveKey(job.plan[j].path));
    }
    if !terminal.EventCompleted? {
      assert NotCompleted(At(after, ObserveKey(job.plan[i].path)));
    }
  }

  /** Compares every observed result with the plan and publishes what was
      found. */
  method ConcludeObservations(app: Application, m: MutatedAttempt, sightings: seq<Sighting>) returns (r: Flow<Comparison>)
    requires app.Open() && app.ledger.state.EffectsVisible? && RecoverIdle(app.ledger)
    requires |sightings| == |app.job.plan| && |m.published.rejected| <= |app.job.rejected|
    requires forall i :: 0 <= i < |app.job.plan| ==> At(app.ledger, ObserveKey(app.job.plan[i].path)).Intended?
    modifies app, app.store, app.history
    ensures r.Crashed? ==> app.MayCrash()
    ensures app.Safe()
    ensures r.Live? ==>
              && app.Open() && app.ledger.state.EffectsVisible? && RecoverIdle(app.ledger)
              && OnlyChanged(old(app.ledger), app.ledger, {ObserveResult})
              && Compared(app.job, app.seed, app.ledger, m, sightings, |app.job.plan|, r.value)
              && (r.value.mismatch || r.value.unsure ==> Doubted(app.job, app.ledger))
    ensures !r.Thrown?
  {
    hide Inv, StoredParts, Application.AwareOf, Attests, Doubted, Verdict;
    JobFacts(app);
    app.IsSafe();
    ghost var first := app.ledger;
    var o := Comparison([], false, false);
    for i := 0 to |app.job.plan|
      invariant app.Open() && app.Safe() && app.ledger.state.EffectsVisible? && RecoverIdle(app.ledger)
      invariant OnlyChanged(first, app.ledger, {ObserveResult})
      invariant Compared(app.job, app.seed, app.ledger, m, sightings, i, o)
      invariant o.mismatch || o.unsure ==> Doubted(app.job, app.ledger)
      invariant forall j :: i <= j < |app.job.plan| ==> At(app.ledger, ObserveKey(app.job.plan[j].path)).Intended?
    {
      PlanPathsApart(app.job.plan, i);
      var verdict := Verdict(app.job, app.seed, m, i, sightings[i]);
      ghost var before := app.ledger;
      var concluded :- PublishObservation(app, i, MatchTerminal(verdict));
      ComparedNext(app.job, app.seed, before, app.ledger, m, sightings, i, o);
      DoubtedNext(app.job, before, app.ledger, i, MatchTerminal(verdict));
      o := Comparison(o.paths + (if verdict.Matched? then [CompletedConsequence(app.job, m, i, sightings[i])] else []),
                    o.mismatch || verdict.Mismatch?, o.unsure || verdict.Unsure?);
    }
    return Live(o);
  }

  // ---------------------------------------------------------------- evidence

  /** A decision that keeps an object the target never had: its result can
      match, but completed evidence cannot describe it. */
  predicate KeepsAbsent(decision: Decision, effect: Option<Outcome>) {
    && !decision.present
    && (decision.active.RetainObserved? || (decision.active.RemoveDirectoryIfEmpty? && effect == Some(ConditionalRetained)))
  }

  /** The plan keeps an absent object, by what is on record. */
  predicate GapOnRecord(job: Job, ledger: Ledger) {
    exists i :: 0 <= i < |job.plan| && KeepsAbsent(job.plan[i], Recorded(ledger, PublishActiveObject, job.plan[i].path))
  }

  predicate EvidenceGap(job: Job, m: MutatedAttempt) {
    exists i :: 0 <= i < |job.plan| && KeepsAbsent(job.plan[i], OutcomeOf(m.effects, job.plan[i].path))
  }

  lemma {:induction false} DecisionAt(plan: Plan, i: nat)
    requires i < |plan| && Distinct(PlanPaths(plan))
    ensures DecisionOf(plan, plan[i].path) == Some(plan[i])
  {
    var d := DecisionOf(plan, plan[i].path).value;
    var j :| 0 <= j < |plan| && plan[j] == d;
    PlanPathsApart(plan, i);
  }

  /** The results in memory are those on record. */
  lemma GapRecorded(job: Job, ledger: Ledger, m: MutatedAttempt)
    requires Mutated(job, ledger, m) && OnlyDeclared(job, ledger) && JobOk(job)
    ensures GapOnRecord(job, ledger) <==> EvidenceGap(job, m)
  {
    forall p ensures OutcomeOf(m.effects, p) == Recorded(ledger, PublishActiveObject, p) {
      EffectOutcome(job, ledger, m.effects, p);
      Undeclared(job, ledger, p);
    }
  }

  /** What the consequence of a decision says about its two effects. */
  lemma ConsequenceOutcomes(job: Job, ledger: Ledger, m: MutatedAttempt, i: nat, sighting: Sighting)
    requires JobOk(job) && Mutated(job, ledger, m) && RetainedFits(job, m.effects)
    requires i < |job.plan| && Distinct(PlanPaths(job.plan)) && Distinct(job.rejected)
    ensures var c := CompletedConsequence(job, m, i, sighting);
            && c.rejected == (if job.plan[i].rejected.NoRejected? then None else Some(Completed))
            && (c.active == Some(Completed)
                || (c.active == Some(ConditionalRetained) && job.plan[i].active.RemoveDirectoryIfEmpty?))
  {
    var d := job.plan[i];
    OutcomeIn(m.effects, d.path);
    DecisionAt(job.plan, i);
    RetainedThere(job, m.effects, d.path);
    RejectedExact(job.plan, d.path);
    PlanPathsApart(job.plan, i);
    if d.path in job.rejected {
      RejectedResultIs(job, ledger, m.published.rejected, d.path);
      RejectedAllDone(job, ledger, m.published.rejected);
    } else {
      RejectedNone(job.rejected, m.published.rejected, d.path);
    }
  }

  /** The consequence of a matched decision completes it unless the decision
      keeps an absent object. */
  lemma MatchedCompletes(job: Job, seed: Seed, ledger: Ledger, m: MutatedAttempt, i: nat, sighting: Sighting)
    requires JobOk(job) && SeedOk(job, seed) && Mutated(job, ledger, m) && RetainedFits(job, m.effects)
    requires i < |job.plan| && Distinct(PlanPaths(job.plan)) && Distinct(job.rejected)
    requires Verdict(job, seed, m, i, sighting).Matched?
    ensures job.plan[i].path in seed
    ensures CompletedPath(job.plan[i], seed[job.plan[i].path], CompletedConsequence(job, m, i, sighting))
            <==> !KeepsAbsent(job.plan[i], OutcomeOf(m.effects, job.plan[i].path))
  {
    ConsequenceOutcomes(job, ledger, m, i, sighting);
    assert job.plan[i] in job.plan;
  }

  lemma {:induction false} RetainedThere(job: Job, effects: seq<EffectResult>, p: Path)
    requires RetainedFits(job, effects)
    ensures OutcomeOf(effects, p) == Some(ConditionalRetained) ==> MayRetain(job.plan, p)
  {
    if effects != [] && effects[0].path != p {
      RetainedThere(job, effects[1..], p);
    }
  }

  lemma {:induction false} RejectedNone(rejected: seq<Path>, results: seq<RejectedResult>, p: Path)
    requires |results| <= |rejected| && p !in rejected
    ensures RejectedOutcomeOf(rejected, results, p).None?
  {
    if results != [] {
      RejectedNone(rejected[1..], results[1..], p);
    }
  }

  /** The durability of a first run that went through, with its evidence
      confirmed, is that of a completed application. */
  lemma FreshDurabilityOk(job: Job, effects: seq<EffectResult>)
    ensures CompletedDurabilityOk(job.control,
              PreparedDurability(job).(rejected := RejectedStatus(job), active := ActiveStatus(job, effects), completed := Confirmed))
  {
  }

  /** Completed evidence of a matched first run is refused exactly when the
      plan keeps an object that was never there. */
  lemma EvidenceAccepted(job: Job, seed: Seed, ledger: Ledger, m: MutatedAttempt, sightings: seq<Sighting>, o: Comparison, projection: nat)
    requires JobOk(job) && SeedOk(job, seed) && Mutated(job, ledger, m) && RetainedFits(job, m.effects)
    requires Distinct(PlanPaths(job.plan)) && Distinct(job.rejected)
    requires Compared(job, seed, ledger, m, sightings, |job.plan|, o) && !o.mismatch && !o.unsure
    requires CompletedDurabilityOk(job.control, m.durability.(completed := Confirmed))
    ensures CompletedEvidenceOf(job, seed, projection, o.paths, m.durability.(completed := Confirmed)).None? <==> EvidenceGap(job, m)
  {
    forall i | 0 <= i < |job.plan|
      ensures o.paths[i].path == job.plan[i].path && job.plan[i].path in seed
      ensures CompletedPath(job.plan[i], seed[job.plan[i].path], o.paths[i]) <==>
              !KeepsAbsent(job.plan[i], OutcomeOf(m.effects, job.plan[i].path))
    {
      MatchedCompletes(job, seed, ledger, m, i, sightings[i]);
    }
  }

  /** The consequences of a comparison are what the journal says. */
  lemma ComparedTruthful(job: Job, seed: Seed, ledger: Ledger, m: MutatedAttempt, sightings: seq<Sighting>, o: Comparison, c: Consequence)
    requires JobOk(job) && Mutated(job, ledger, m) && Distinct(job.rejected)
    requires Compared(job, seed, ledger, m, sightings, |job.plan|, o) && !o.mismatch && !o.unsure
    requires c in o.paths
    ensures TruthfulPath(job, seed, ledger, c) && TruthfulPath(job, seed, ledger, c.(eligible := false))
    ensures c.path in PlanPaths(job.plan)
  {
    var i :| 0 <= i < |o.paths| && o.paths[i] == c;
    assert PlanPaths(job.plan)[i] == c.path;
    EffectOutcome(job, ledger, m.effects, c.path);
    RejectedResultIs(job, ledger, m.published.rejected, c.path);
  }

  /** A matched result is the one that completed evidence has to report. */
  lemma MatchedExpected(job: Job, seed: Seed, ledger: Ledger, m: MutatedAttempt, i: nat, sighting: Sighting)
    requires JobOk(job) && OnlyDeclared(job, ledger) && Mutated(job, ledger, m) && Distinct(job.rejected)
    requires i < |job.plan| && Verdict(job, seed, m, i, sighting).Matched?
    ensures CompletedConsequence(job, m, i, sighting) == EvidencePath(job, seed, ledger, i)
  {
    hide EffectsRecorded, AllCaptured;
    var p := job.plan[i].path;
    EffectOutcome(job, ledger, m.effects, p);
    RejectedResultIs(job, ledger, m.published.rejected, p);
    Undeclared(job, ledger, p);
    if p !in job.rejected {
      RejectedNone(job.rejected, m.published.rejected, p);
    }
  }

  /** Evidence made of matched results is that of the attempt. */
  lemma MatchedRight(app: Application, m: MutatedAttempt, sightings: seq<Sighting>, evidence: CompletedEvidence)
    requires app.Alive() && AllMatched(app.job, app.seed, app.ledger, m, sightings, evidence.paths)
    requires CompletedEvidenceOf(app.job, app.seed, evidence.projection, evidence.paths, evidence.durability) == Some(evidence)
    ensures EvidenceRight(app.job, app.seed, app.ledger, evidence)
  {
    JobFacts(app);
    SoundMeans(app.job, app.seed, app.ledger, app.backend.trace);
    forall i | 0 <= i < |app.job.plan| ensures evidence.paths[i] == EvidencePath(app.job, app.seed, app.ledger, i) {
      MatchedExpected(app.job, app.seed, app.ledger, m, i, sightings[i]);
    }
    AllPassed(app.job, app.ledger, m.effects);
    RejectedAllDone(app.job, app.ledger, m.published.rejected);
  }

  function Ineligible(paths: seq<Consequence>): (r: seq<Consequence>)
    ensures |r| == |paths|
  {
    seq(|paths|, i requires 0 <= i < |paths| => paths[i].(eligible := false))
  }

  // ---------------------------------------------------------------- sealing

  ghost predicate JobDone(job: Job, ledger: Ledger) {
    forall key :: JobDeclares(job, key) && SuccessRequired(key.kind) ==> CompletedSlot(At(ledger, key))
  }

  lemma JobDoneIsRequired(app: Application, ledger: Ledger)
    requires app.Aware()
    ensures RequiredDone(app.declaration.effects, ledger) <==> JobDone(app.job, ledger)
  {
    forall key ensures Declared(app.declaration.effects, key) <==> JobDeclares(app.job, key) {
      app.Declares(key);
    }
  }

  /** The ledger once the receipt is sealed. */
  function SealedLedger(ledger: Ledger, state: State, receipt: Receipt, completed: Option<CompletedEvidence>): Ledger {
    Ledger(state, ledger.slots[SealKey() := Done(EventCompleted, None)], Some(receipt), completed, ledger.durability)
  }

  ghost predicate SealAllowed(job: Job, ledger: Ledger, state: State, receipt: Receipt, completed: Option<CompletedEvidence>) {
    && StateMayFollow(ledger.state, state)
    && (if Successful(state) then completed.Some? && JobDone(job, SealedLedger(ledger, state, receipt, completed))
        else completed.None?)
  }

  lemma SealIsAllowed(app: Application, state: State, receipt: Receipt, completed: Option<CompletedEvidence>)
    requires app.Open() && At(app.ledger, SealKey()).Intended?
    ensures var entry := Entry(state, Some(Move(SealKey(), EventCompleted, None)), Some(receipt), completed);
            && Enter(app.ledger, entry) == SealedLedger(app.ledger, state, receipt, completed)
            && (Allows(app.declaration.effects, app.ledger, entry) <==> SealAllowed(app.job, app.ledger, state, receipt, completed))
  {
    app.Declares(SealKey());
    JobDoneIsRequired(app, SealedLedger(app.ledger, state, receipt, completed));
  }

  lemma SealIntended(job: Job, seed: Seed, before: Ledger, state: State, receipt: Receipt, completed: Option<CompletedEvidence>)
    ensures var after := Placed(before, before.state, SealKey(), Intended);
            && (SealAllowed(job, after, state, receipt, completed) <==> SealAllowed(job, before, state, receipt, completed))
            && (Truthful(job, seed, before, receipt) ==> Truthful(job, seed, after, receipt))
  {
    var after := Placed(before, before.state, SealKey(), Intended);
    assert SealedLedger(after, state, receipt, completed) == SealedLedger(before, state, receipt, completed);
    if Truthful(job, seed, before, receipt) {
      TruthfulSame(job, seed, before, after, receipt);
    }
  }

  /** Publishes the sealing intent in the current state; a seal that was
      concluded without a receipt is a contradiction. */
  method IntendSeal(app: Application) returns (r: Flow<()>)
    requires app.Open() && RecoverIdle(app.ledger) && app.ledger.state.ResultObserved?
    modifies app, app.store, app.history
    ensures r.Crashed? ==> app.MayCrash()
    ensures app.Safe()
    ensures r.Live? ==> app.Open() && At(app.ledger, SealKey()).Intended?
                        && (app.ledger == old(app.ledger)
                            || app.ledger == Placed(old(app.ledger), old(app.ledger).state, SealKey(), Intended))
    ensures r.Thrown? ==> app.ledger == old(app.ledger)
    ensures r.Thrown? ==> r.fault == PhaseRefused && old(At(app.ledger, SealKey())).Done?
  {
    hide Inv, StoredParts, Application.AwareOf, Attests;
    app.IsSafe();
    var progress := app.ProgressFor(SealKey());
    if progress.terminal.Some? {
      return Thrown(PhaseRefused);
    }
    var current := app.State();
    r := EnsureIntent(app, current, SealKey());
  }

  /** The sealing intent leaves what decides about the seal as it is. */
  lemma SealPrepared(job: Job, seed: Seed, before: Ledger, after: Ledger, state: State, receipt: Receipt,
                     completed: Option<CompletedEvidence>)
    requires after == before || after == Placed(before, before.state, SealKey(), Intended)
    ensures SealAllowed(job, after, state, receipt, completed) <==> SealAllowed(job, before, state, receipt, completed)
    ensures Truthful(job, seed, before, receipt) ==> Truthful(job, seed, after, receipt)
    ensures forall key: Key :: key != SealKey() ==> At(after, key) == At(before, key)
    ensures after.state == before.state
  {
    SealIntended(job, seed, before, state, receipt, completed);
  }

  lemma SealedSlots(ledger: Ledger, state: State, receipt: Receipt, completed: Option<CompletedEvidence>)
    ensures var after := SealedLedger(ledger, state, receipt, completed);
            && (forall key: Key :: key != SealKey() ==> At(after, key) == At(ledger, key))
            && At(after, SealKey()) == Done(EventCompleted, None) && after.receipt == Some(receipt)
  {
  }

  /** Seals the receipt under its own effect. */
  method SealTerminalReceipt(app: Application, state: State, receipt: Receipt, completed: Option<CompletedEvidence>)
    returns (r: Flow<()>)
    requires app.Open() && RecoverIdle(app.ledger) && Truthful(app.job, app.seed, app.ledger, receipt)
    requires app.ledger.state.ResultObserved? && OutcomeGate(Some(receipt), state)
    requires Witnessed(receipt, app.backend.trace, app.backend.seen)
    modifies app, app.store, app.history
    ensures r.Crashed? ==> app.MayCrash()
    ensures app.Safe()
    ensures !r.Crashed? ==> forall key: Key :: key != SealKey() ==> At(app.ledger, key) == At(old(app.ledger), key)
    ensures r.Thrown? ==> app.ledger.state.ResultObserved? && app.ledger.receipt.None?
    ensures r.Live? ==> At(app.ledger, SealKey()) == Done(EventCompleted, None)
    ensures r.Live? ==> app.ledger.receipt == Some(receipt)
    ensures r.Live? ==> SealAllowed(app.job, old(app.ledger), state, receipt, completed)
    ensures r.Thrown? ==> (r.fault == PhaseRefused && old(At(app.ledger, SealKey())).Done?)
                          || (r.fault == StepRefused && !SealAllowed(app.job, old(app.ledger), state, receipt, completed))
  {
    hide Inv, StoredParts, Application.AwareOf, Attests, Truthful, SealAllowed, SealedLedger, Placed, Witnessed;
    ghost var before := app.ledger;
    var intended :- IntendSeal(app);
    SealPrepared(app.job, app.seed, before, app.ledger, state, receipt, completed);
    SealedSlots(app.ledger, state, receipt, completed);
    r := SealCompleted(app, state, receipt, completed);
  }

  method SealCompleted(app: Application, state: State, receipt: Receipt, completed: Option<CompletedEvidence>)
    returns (r: Flow<()>)
    requires app.Open() && Truthful(app.job, app.seed, app.ledger, receipt) && At(app.ledger, SealKey()).Intended?
    requires !app.ledger.state.Preparing? && OutcomeGate(Some(receipt), state)
    requires Witnessed(receipt, app.backend.trace, app.backend.seen)
    modifies app, app.store, app.history
    ensures r.Crashed? ==> app.MayCrash()
    ensures app.Safe()
    ensures r.Live? ==> app.ledger == SealedLedger(old(app.ledger), state, receipt, completed)
    ensures r.Thrown? ==> app.ledger == old(app.ledger)
    ensures r.Thrown? <==> !SealAllowed(app.job, old(app.ledger), state, receipt, completed)
    ensures r.Thrown? ==> r.fault == StepRefused
  {
    var entry := Entry(state, Some(Move(SealKey(), EventCompleted, None)), Some(receipt), completed);
    SealIsAllowed(app, state, receipt, completed);
    if SealAllowed(app.job, app.ledger, state, receipt, completed) {
      SoundNeutral(app.job, app.seed, app.ledger, app.backend.trace, entry);
    }
    r := app.Publish(entry);
  }

  // ---------------------------------------------------------------- publishing the evidence

  /** Makes the call under the durable intent and publishes how it ended. */
  method ConcludePublication(app: Application, evidence: CompletedEvidence) returns (r: Flow<Outcome>)
    requires app.Open() && app.ledger.state.ResultObserved? && RecoverIdle(app.ledger)
    requires At(app.ledger, EvidenceKey()).Intended? && EvidenceRight(app.job, app.seed, app.ledger, evidence)
    modifies app, app.store, app.history
    ensures r.Crashed? ==> app.MayCrash()
    ensures app.Safe()
    ensures r.Live? ==> app.Open() && !r.value.ConditionalRetained?
    ensures r.Live? && app.backend.confirms ==> r.value.Completed?
    ensures r.Live? ==> app.ledger == Placed(old(app.ledger), ResultObserved, EvidenceKey(),
                          Done(TerminalOf(r.value), if r.value.Completed? then Some(EvidenceFact(evidence)) else None))
    ensures r.Thrown? ==> r.fault == BackendFault && !app.backend.Honest()
  {
    hide Inv, StoredParts, Application.AwareOf, Attests, EvidenceRight;
    app.IsSafe();
    var publication :- app.backend.PublishCompletedEvidence(evidence);
    if publication.outcome.Completed? && !publication.matches {
      return Thrown(BackendFault);
    }
    var concluded :- PublishTerminal(app, ResultObserved, EvidenceKey(), TerminalOf(publication.outcome),
                                     if publication.outcome.Completed? then Some(EvidenceFact(evidence)) else None);
    return Live(publication.outcome);
  }

  /** Publishes completed evidence under its effect. */
  method RunPublication(app: Application, evidence: CompletedEvidence) returns (r: Flow<Outcome>)
    requires app.Open() && app.ledger.state.ResultObserved? && RecoverIdle(app.ledger)
    requires !At(app.ledger, EvidenceKey()).Done? && EvidenceRight(app.job, app.seed, app.ledger, evidence)
    modifies app, app.store, app.history
    ensures r.Crashed? ==> app.MayCrash()
    ensures app.Safe()
    ensures r.Live? ==> app.Open() && !r.value.ConditionalRetained?
    ensures r.Live? && app.backend.confirms ==> r.value.Completed?
    ensures r.Live? ==> app.ledger == Placed(old(app.ledger), ResultObserved, EvidenceKey(),
                          Done(TerminalOf(r.value), if r.value.Completed? then Some(EvidenceFact(evidence)) else None))
    ensures r.Thrown? ==> r.fault == BackendFault && !app.backend.Honest()
  {
    hide Inv, StoredParts, Application.AwareOf, Attests, EvidenceRight;
    ghost var before := app.ledger;
    NeutralIdle(app.ledger, ResultObserved, EvidenceKey(), Intended);
    SoundLedger(app);
    var intended :- EnsureIntent(app, ResultObserved, EvidenceKey());
    SoundLedger(app);
    RightKept(app.job, app.seed, before, app.ledger, evidence);
    r := ConcludePublication(app, evidence);
    if r.Live? {
      PlacedTwice(before, ResultObserved, EvidenceKey(), At(app.ledger, EvidenceKey()));
    }
  }

  function EvidenceEnding(uncertain: bool): Ending {
    if uncertain then Ending(AttemptIndeterminate, RequiresAuthoritativeObservation)
    else Ending(DurabilityUnconfirmed, RecoveryAssetsRetained)
  }

  /** Everything observed matched the plan. */
  ghost predicate AllMatched(job: Job, seed: Seed, ledger: Ledger, m: MutatedAttempt, sightings: seq<Sighting>, paths: seq<Consequence>) {
    && Mutated(job, ledger, m)
    && Compared(job, seed, ledger, m, sightings, |job.plan|, Comparison(paths, false, false))
  }

  lemma AllMatchedSame(job: Job, seed: Seed, before: Ledger, after: Ledger, m: MutatedAttempt, sightings: seq<Sighting>,
                       paths: seq<Consequence>, changed: set<EffectKind>)
    requires AllMatched(job, seed, before, m, sightings, paths) && OnlyChanged(before, after, changed)
    requires changed <= {PublishCompletedEvidence, SynchronizeCompletedEvidence}
    ensures AllMatched(job, seed, after, m, sightings, paths)
  {
    MutatedSame(job, before, after, m, changed);
  }

  /** What a comparison says was observed, was observed. */
  lemma ComparedWitnessed(app: Application, m: MutatedAttempt, sightings: seq<Sighting>, paths: seq<Consequence>, receipt: Receipt)
    requires AllMatched(app.job, app.seed, app.ledger, m, sightings, paths)
    requires Sighted(PlanPaths(app.job.plan), sightings, |app.backend.trace|, app.backend.seen)
    requires receipt.paths == paths || receipt.paths == Ineligible(paths)
    ensures Witnessed(receipt, app.backend.trace, app.backend.seen)
  {
    forall c | c in receipt.paths && c.after.Observed?
      ensures Observation(|app.backend.trace|, c.path, c.after.present) in app.backend.seen
    {
      var i :| 0 <= i < |receipt.paths| && receipt.paths[i] == c;
      assert PlanPaths(app.job.plan)[i] == c.path;
    }
  }

  lemma CompletionFailureTruthful(app: Application, m: MutatedAttempt, sightings: seq<Sighting>, paths: seq<Consequence>,
                                  uncertain: bool, durability: Durability)
    requires app.Alive() && AllMatched(app.job, app.seed, app.ledger, m, sightings, paths)
    requires durability.completed == if uncertain then StatusIndeterminate else Unconfirmed
    ensures var ending := EvidenceEnding(uncertain);
            var receipt := FailedReceipt(app.job.plan, ending.outcome, ending.recovery, durability, Ineligible(paths), true);
            receipt.Some? && Truthful(app.job, app.seed, app.ledger, receipt.value)
  {
    hide Compared, Mutated;
    JobFacts(app);
    forall c | c in Ineligible(paths)
      ensures TruthfulPath(app.job, app.seed, app.ledger, c) && c.path in PlanPaths(app.job.plan) && !c.eligible
    {
      var i :| 0 <= i < |paths| && Ineligible(paths)[i] == c;
      ComparedTruthful(app.job, app.seed, app.ledger, m, sightings, Comparison(paths, false, false), paths[i]);
    }
    assert durability.completed in Statuses(durability);
  }

  /** Seals an attempt whose effects are in place but whose evidence is not
      durable. */
  method FailCompletion(app: Application, m: MutatedAttempt, ghost sightings: seq<Sighting>, paths: seq<Consequence>, uncertain: bool)
    returns (r: Flow<Receipt>)
    requires app.Open() && app.ledger.state.ResultObserved? && RecoverIdle(app.ledger)
    requires AllMatched(app.job, app.seed, app.ledger, m, sightings, paths)
    requires Sighted(PlanPaths(app.job.plan), sightings, |app.backend.trace|, app.backend.seen)
    modifies app, app.store, app.history
    ensures r.Crashed? ==> app.MayCrash()
    ensures app.Safe()
    ensures r.Live? ==> forall key: Key :: key != SealKey() ==> At(app.ledger, key) == At(old(app.ledger), key)
    ensures r.Live? ==> app.ledger.receipt == Some(r.value) && !r.value.outcome.AttemptCompleted?
    ensures r.Thrown? ==> r.fault == PhaseRefused && old(At(app.ledger, SealKey())).Done?
  {
    var durability := m.durability.(completed := if uncertain then StatusIndeterminate else Unconfirmed);
    var ending := EvidenceEnding(uncertain);
    CompletionFailureTruthful(app, m, sightings, paths, uncertain, durability);
    var receipt := FailedReceipt(app.job.plan, ending.outcome, ending.recovery, durability, Ineligible(paths), true);
    ComparedWitnessed(app, m, sightings, paths, receipt.value);
    var sealed :- SealTerminalReceipt(app, if uncertain then StateIndeterminate else EffectsVisible, receipt.value, None);
    return Live(receipt.value);
  }

  function CompletedRecovery(job: Job): RecoveryState {
    if job.captures == [] then Unchanged else RecoveryAssetsRetained
  }

  lemma CompletedTruthful(app: Application, m: MutatedAttempt, sightings: seq<Sighting>, evidence: CompletedEvidence)
    requires app.Alive() && AllMatched(app.job, app.seed, app.ledger, m, sightings, evidence.paths)
    ensures Truthful(app.job, app.seed, app.ledger, CompletedReceipt(evidence, CompletedRecovery(app.job)).value)
  {
    JobFacts(app);
    RejectedAllDone(app.job, app.ledger, m.published.rejected);
    forall p | p in app.job.active ensures Passed(app.ledger, p) {
      var i :| 0 <= i < |app.job.active| && app.job.active[i] == p;
      assert m.effects[i] in m.effects;
    }
    forall c | c in evidence.paths ensures TruthfulPath(app.job, app.seed, app.ledger, c) {
      ComparedTruthful(app.job, app.seed, app.ledger, m, sightings, Comparison(evidence.paths, false, false), c);
    }
  }

  /** Once everything success requires has completed, nothing has failed. */
  lemma NothingFallen(job: Job, before: Ledger, after: Ledger)
    requires JobDoneButSeal(job, before) && OnlyDeclared(job, before)
    requires forall key: Key :: key != SealKey() ==> At(after, key) == At(before, key)
    requires At(after, SealKey()) == Done(EventCompleted, None)
    ensures !Fallen(after)
  {
    forall key: Key | SuccessRequired(key.kind) ensures !NotCompleted(At(after, key)) {
      if key != SealKey() && key in before.slots {
        assert CompletedSlot(At(before, key));
      }
    }
  }

  /** Seals the success receipt. */
  method SealCompletion(app: Application, m: MutatedAttempt, ghost sightings: seq<Sighting>, evidence: CompletedEvidence)
    returns (r: Flow<Receipt>)
    requires app.Open() && app.ledger.state.ResultObserved? && RecoverIdle(app.ledger)
    requires AllMatched(app.job, app.seed, app.ledger, m, sightings, evidence.paths)
    requires Sighted(PlanPaths(app.job.plan), sightings, |app.backend.trace|, app.backend.seen)
    modifies app, app.store, app.history
    ensures r.Crashed? ==> app.MayCrash()
    ensures app.Safe()
    ensures r.Live? ==> !Fallen(app.ledger)
    ensures r.Live? ==> app.ledger.receipt == Some(r.value) && r.value.outcome.AttemptCompleted?
    ensures r.Live? ==> JobDoneButSeal(app.job, old(app.ledger))
    ensures r.Thrown? ==> app.ledger.state.ResultObserved? && app.ledger.receipt.None?
                          && OnlyChanged(old(app.ledger), app.ledger, {SealReceipt})
    ensures r.Thrown? ==> (r.fault == PhaseRefused && old(At(app.ledger, SealKey())).Done?)
                          || (r.fault == StepRefused && !JobDoneButSeal(app.job, old(app.ledger)))
  {
    var receipt := CompletedReceipt(evidence, CompletedRecovery(app.job)).value;
    ghost var before := app.ledger;
    SoundMeans(app.job, app.seed, app.ledger, app.backend.trace);
    CompletedTruthful(app, m, sightings, evidence);
    ComparedWitnessed(app, m, sightings, evidence.paths, receipt);
    SealDone(app.job, app.ledger, receipt, evidence);
    var sealed :- SealTerminalReceipt(app, ApplicationCompleted, receipt, Some(evidence));
    NothingFallen(app.job, before, app.ledger);
    return Live(receipt);
  }

  /** Every effect success requires has completed, except the seal itself. */
  ghost predicate JobDoneButSeal(job: Job, ledger: Ledger) {
    forall key :: JobDeclares(job, key) && SuccessRequired(key.kind) && key != SealKey() ==> CompletedSlot(At(ledger, key))
  }

  lemma SealDone(job: Job, ledger: Ledger, receipt: Receipt, evidence: CompletedEvidence)
    requires ledger.state.ResultObserved?
    ensures SealAllowed(job, ledger, ApplicationCompleted, receipt, Some(evidence)) <==> JobDoneButSeal(job, ledger)
  {
    var after := SealedLedger(ledger, ApplicationCompleted, receipt, Some(evidence));
    assert forall key :: key != SealKey() ==> At(after, key) == At(ledger, key);
  }

  // ---------------------------------------------------------------- where a run throws

  /** A declared active synchronization never ran, because nothing changed. */
  predicate ActiveUnsynchronized(job: Job, ledger: Ledger) {
    JobDeclares(job, ActiveSync()) && !CompletedSlot(At(ledger, ActiveSync()))
  }

  /** Every active effect retained its directory, as the plan allows. */
  ghost predicate AllRetained(job: Job, ledger: Ledger) {
    forall p :: p in job.active ==> Recorded(ledger, PublishActiveObject, p) == Some(ConditionalRetained) && MayRetain(job.plan, p)
  }

  lemma UnchangedRetained(job: Job, ledger: Ledger, m: MutatedAttempt)
    requires Mutated(job, ledger, m) && RetainedFits(job, m.effects) && !Changed(m.effects)
    ensures AllRetained(job, ledger)
  {
    forall p | p in job.active
      ensures Recorded(ledger, PublishActiveObject, p) == Some(ConditionalRetained) && MayRetain(job.plan, p)
    {
      var i :| 0 <= i < |job.active| && job.active[i] == p;
      assert m.effects[i] in m.effects;
    }
  }

  lemma RetainedKept(job: Job, before: Ledger, after: Ledger, changed: set<EffectKind>)
    requires AllRetained(job, before) && OnlyChanged(before, after, changed) && PublishActiveObject !in changed
    ensures AllRetained(job, after)
  {
    assert forall p :: Recorded(after, PublishActiveObject, p) == Recorded(before, PublishActiveObject, p);
  }

  /** What is on record where the engine cannot seal what it found: a required
      synchronization that never ran because nothing changed, evidence of an
      object that was never there, or a retained directory in an attempt that
      changed nothing. */
  ghost predicate PlanCorner(fault: Fault, job: Job, ledger: Ledger) {
    && ledger.receipt.None?
    && match fault
       case StepRefused => ledger.state.ResultObserved? && ActiveUnsynchronized(job, ledger) && AllRetained(job, ledger)
       case EvidenceRefused => ledger.state.ResultObserved? && GapOnRecord(job, ledger)
       case ReceiptRefused => RetainedOnly(job, ledger)
       case _ => false
  }

  lemma GapCorner(app: Application, m: MutatedAttempt)
    requires app.Open() && app.ledger.state.ResultObserved? && Mutated(app.job, app.ledger, m)
    ensures EvidenceGap(app.job, m) ==> PlanCorner(EvidenceRefused, app.job, app.ledger)
  {
    hide GapOnRecord, EvidenceGap, Mutated;
    JobFacts(app);
    SoundLedger(app);
    GapRecorded(app.job, app.ledger, m);
  }

  // ---------------------------------------------------------------- the first run

  /** What a first run has behind it when its active phase is complete. */
  ghost predicate FreshBase(job: Job, ledger: Ledger, m: MutatedAttempt) {
    && Mutated(job, ledger, m) && RetainedFits(job, m.effects)
    && Finished(job, ledger, PreparationKinds() + RejectedKinds() + {PublishActiveObject})
    && (Changed(m.effects) ==> Finished(job, ledger, {SynchronizeActiveNamespace}))
    && (!Changed(m.effects) ==> Untouched(ledger, {SynchronizeActiveNamespace}))
    && Untouched(ledger, RecoveryKinds())
    && m.durability == PreparedDurability(job).(rejected := RejectedStatus(job), active := ActiveStatus(job, m.effects))
  }

  lemma FreshBaseSame(job: Job, before: Ledger, after: Ledger, m: MutatedAttempt, changed: set<EffectKind>)
    requires FreshBase(job, before, m) && OnlyChanged(before, after, changed) && changed <= CompletionKinds()
    ensures FreshBase(job, after, m) && RecoverIdle(after)
  {
    MutatedSame(job, before, after, m, changed);
    UntouchedRecover(after, RecoveryKinds());
  }

  /** The declared active synchronization that a run without any change never
      performs. */
  predicate NeverSynchronized(job: Job, m: MutatedAttempt) {
    !Changed(m.effects) && JobDeclares(job, Key(SynchronizeActiveNamespace, None))
  }

  /** Observes every planned path. */
  method ObserveFirst(app: Application, m: MutatedAttempt) returns (r: Flow<Comparison>, ghost sightings: seq<Sighting>)
    requires app.Open() && FreshlyMutated(app.job, app.ledger, m)
    modifies app, app.store, app.history, app.backend`seen
    ensures r.Crashed? ==> app.MayCrash()
    ensures app.Safe()
    ensures r.Live? ==> Sighted(PlanPaths(app.job.plan), sightings, |app.backend.trace|, app.backend.seen)
    ensures r.Live? ==>
              && app.Open() && app.ledger.state.EffectsVisible? && FreshBase(app.job, app.ledger, m) && RecoverIdle(app.ledger)
              && Untouched(app.ledger, {PublishCompletedEvidence, SynchronizeCompletedEvidence, SealReceipt})
              && Compared(app.job, app.seed, app.ledger, m, sightings, |app.job.plan|, r.value)
              && (r.value.mismatch || r.value.unsure ==> Doubted(app.job, app.ledger))
    ensures !r.Thrown?
  {
    hide Inv, StoredParts, Application.AwareOf, Attests;
    sightings := [];
    ghost var before := app.ledger;
    UntouchedRecover(app.ledger, CompletionKinds() + RecoveryKinds());
    var intended := IntendObservations(app);
    if intended.IsFailure() {
      r := intended.PropagateFailure();
      return;
    }
    var seen := ObservePaths(app, PlanPaths(app.job.plan));
    app.IsSafe();
    if seen.IsFailure() {
      r := seen.PropagateFailure();
      return;
    }
    sightings := seen.value;
    r := ConcludeObservations(app, m, seen.value);
    if r.Live? {
      FreshBaseSame(app.job, before, app.ledger, m, {ObserveResult});
    }
  }

  /** Interrupts at an observation that does not match. */
  method InterruptObserved(app: Application, m: MutatedAttempt, o: Comparison) returns (r: Flow<InterruptedAttempt>)
    requires app.Open() && app.ledger.state.EffectsVisible? && FreshBase(app.job, app.ledger, m) && RecoverIdle(app.ledger)
    modifies app, app.store, app.history
    ensures r.Crashed? ==> app.MayCrash()
    ensures app.Safe()
    ensures r.Live? ==> OnlyChanged(old(app.ledger), app.ledger, {})
    ensures r.Live? ==>
              && app.Open() && Interruptible(app.job, app.ledger, r.value) && Untouched(app.ledger, RecoveryKinds())
    ensures !r.Thrown?
  {
    hide Inv, StoredParts, Application.AwareOf, Attests;
    var it := InterruptedAttempt(m.published, m.effects, if o.unsure then ObservationIndeterminate else ObservationMismatch, m.durability);
    assert Constructible(app.job, it);
    r := Interrupt(app, it);
  }

  lemma ObservedFinished(job: Job, seed: Seed, ledger: Ledger, m: MutatedAttempt, sightings: seq<Sighting>, o: Comparison)
    requires Compared(job, seed, ledger, m, sightings, |job.plan|, o) && !o.mismatch && !o.unsure
    ensures Finished(job, ledger, {ObserveResult})
  {
    forall key: Key | key.kind == ObserveResult && JobDeclares(job, key) ensures CompletedSlot(At(ledger, key)) {
      var i :| 0 <= i < |job.plan| && PlanPaths(job.plan)[i] == key.path.value;
      assert key == ObserveKey(job.plan[i].path);
    }
  }

  /** A matched first run, its evidence not yet published. */
  ghost predicate FreshlyMatched(job: Job, seed: Seed, ledger: Ledger, m: MutatedAttempt, sightings: seq<Sighting>, paths: seq<Consequence>) {
    && ledger.state.ResultObserved? && FreshBase(job, ledger, m) && RecoverIdle(ledger)
    && Finished(job, ledger, {ObserveResult}) && !At(ledger, SealKey()).Done?
    && AllMatched(job, seed, ledger, m, sightings, paths)
  }

  lemma FreshlyMatchedSame(job: Job, seed: Seed, before: Ledger, after: Ledger, m: MutatedAttempt, sightings: seq<Sighting>,
                           paths: seq<Consequence>, changed: set<EffectKind>)
    requires FreshlyMatched(job, seed, before, m, sightings, paths) && OnlyChanged(before, after, changed)
    requires after.state.ResultObserved? && changed <= {PublishCompletedEvidence, SynchronizeCompletedEvidence}
    ensures FreshlyMatched(job, seed, after, m, sightings, paths)
  {
    FreshBaseSame(job, before, after, m, changed);
    AllMatchedSame(job, seed, before, after, m, sightings, paths, changed);
  }

  /** Everything is done but the seal, or the declared active synchronization
      was never run. */
  lemma FreshDone(job: Job, ledger: Ledger, m: MutatedAttempt)
    requires FreshBase(job, ledger, m)
    requires Finished(job, ledger, {ObserveResult, PublishCompletedEvidence, SynchronizeCompletedEvidence})
    ensures JobDoneButSeal(job, ledger) <==> !NeverSynchronized(job, m)
  {
    if NeverSynchronized(job, m) {
      assert At(ledger, Key(SynchronizeActiveNamespace, None)).Idle?;
    } else {
      forall key | JobDeclares(job, key) && SuccessRequired(key.kind) && key != SealKey() ensures CompletedSlot(At(ledger, key)) {
      }
    }
  }

  lemma DoubtedFallen(job: Job, ledger: Ledger)
    requires Doubted(job, ledger)
    ensures Fallen(ledger)
  {
    var j :| 0 <= j < |job.plan| && NotCompleted(At(ledger, ObserveKey(job.plan[j].path)));
    FallenAt(ledger, ObserveKey(job.plan[j].path));
  }

  /** The seal concludes after whatever failed, and does not undo it. */
  lemma SealedFallen(before: Ledger, after: Ledger)
    requires Fallen(before) && !At(before, SealKey()).Done?
    requires forall key: Key :: key != SealKey() ==> At(after, key) == At(before, key)
    ensures Fallen(after)
  {
    var key: Key :| SuccessRequired(key.kind) && NotCompleted(At(before, key));
    FallenAt(after, key);
  }

  /** Publishes and synchronizes the evidence of a matched first run, then
      seals it. */
  method FinishFirst(app: Application, m: MutatedAttempt, ghost sightings: seq<Sighting>, evidence: CompletedEvidence)
    returns (r: Flow<Receipt>)
    requires app.Open() && FreshlyMatched(app.job, app.seed, app.ledger, m, sightings, evidence.paths)
    requires Untouched(app.ledger, {PublishCompletedEvidence, SynchronizeCompletedEvidence})
    requires Sighted(PlanPaths(app.job.plan), sightings, |app.backend.trace|, app.backend.seen)
    requires CompletedEvidenceOf(app.job, app.seed, evidence.projection, evidence.paths, evidence.durability) == Some(evidence)
    modifies app, app.store, app.history
    ensures r.Crashed? ==> app.MayCrash()
    ensures r.Thrown? && r.fault == BackendFault ==> !app.backend.Honest()
    ensures app.Safe()
    ensures r.Live? ==> (r.value.outcome.AttemptCompleted? <==> !Fallen(app.ledger))
    ensures r.Live? ==> app.ledger.receipt == Some(r.value)
    ensures r.Live? && r.value.outcome.AttemptCompleted? ==> !NeverSynchronized(app.job, m)
    ensures r.Thrown? ==> r.fault == BackendFault || (r.fault == StepRefused && NeverSynchronized(app.job, m))
    ensures r.Thrown? ==> r.fault == BackendFault || PlanCorner(r.fault, app.job, app.ledger)
  {
    hide Inv, StoredParts, Application.AwareOf, Attests, EvidenceRight, FreshBase;
    ghost var a := app.ledger;
    MatchedRight(app, m, sightings, evidence);
    var published :- RunPublication(app, evidence);
    ghost var b := app.ledger;
    FreshlyMatchedSame(app.job, app.seed, a, b, m, sightings, evidence.paths, {PublishCompletedEvidence});
    if !published.Completed? {
      FallenAt(b, Key(PublishCompletedEvidence, None));
      r := FailCompletion(app, m, sightings, evidence.paths, published.Indeterminate?);
      if r.Live? {
        SealedFallen(b, app.ledger);
      }
      return;
    }
    r := FinishPublished(app, m, sightings, evidence);
  }

  /** Seals what the synchronization of the evidence made of the run. */
  method EndPublished(app: Application, m: MutatedAttempt, ghost sightings: seq<Sighting>, evidence: CompletedEvidence, status: Status)
    returns (r: Flow<Receipt>)
    requires app.Open() && FreshlyMatched(app.job, app.seed, app.ledger, m, sightings, evidence.paths)
    requires Finished(app.job, app.ledger, {PublishCompletedEvidence})
    requires At(app.ledger, EvidenceSync()).Done? && At(app.ledger, EvidenceSync()).kind == StatusTerminal(status)
    requires Sighted(PlanPaths(app.job.plan), sightings, |app.backend.trace|, app.backend.seen)
    modifies app, app.store, app.history
    ensures r.Crashed? ==> app.MayCrash()
    ensures app.Safe()
    ensures r.Live? ==> (r.value.outcome.AttemptCompleted? <==> !Fallen(app.ledger))
    ensures r.Live? ==> app.ledger.receipt == Some(r.value)
    ensures r.Live? && r.value.outcome.AttemptCompleted? ==> !NeverSynchronized(app.job, m)
    ensures r.Thrown? ==> r.fault == StepRefused && NeverSynchronized(app.job, m)
    ensures r.Thrown? ==> r.fault == BackendFault || PlanCorner(r.fault, app.job, app.ledger)
  {
    hide Inv, StoredParts, Application.AwareOf, Attests;
    ghost var c := app.ledger;
    if status != Confirmed {
      FallenAt(c, EvidenceSync());
      r := FailCompletion(app, m, sightings, evidence.paths, status.StatusIndeterminate?);
      if r.Live? {
        SealedFallen(c, app.ledger);
      }
      return;
    }
    FreshDone(app.job, c, m);
    r := SealCompletion(app, m, sightings, evidence);
    if r.Thrown? {
      UnchangedRetained(app.job, c, m);
      RetainedKept(app.job, c, app.ledger, {SealReceipt});
    }
  }

  method FinishPublished(app: Application, m: MutatedAttempt, ghost sightings: seq<Sighting>, evidence: CompletedEvidence)
    returns (r: Flow<Receipt>)
    requires app.Open() && FreshlyMatched(app.job, app.seed, app.ledger, m, sightings, evidence.paths)
    requires Finished(app.job, app.ledger, {PublishCompletedEvidence}) && Untouched(app.ledger, {SynchronizeCompletedEvidence})
    requires Sighted(PlanPaths(app.job.plan), sightings, |app.backend.trace|, app.backend.seen)
    modifies app, app.store, app.history
    ensures r.Crashed? ==> app.MayCrash()
    ensures r.Thrown? && r.fault == BackendFault ==> !app.backend.Honest()
    ensures app.Safe()
    ensures r.Live? ==> (r.value.outcome.AttemptCompleted? <==> !Fallen(app.ledger))
    ensures r.Live? ==> app.ledger.receipt == Some(r.value)
    ensures r.Live? && r.value.outcome.AttemptCompleted? ==> !NeverSynchronized(app.job, m)
    ensures r.Thrown? ==> r.fault == BackendFault || (r.fault == StepRefused && NeverSynchronized(app.job, m))
    ensures r.Thrown? ==> r.fault == BackendFault || PlanCorner(r.fault, app.job, app.ledger)
  {
    hide Inv, StoredParts, Application.AwareOf, Attests, AllMatched, FreshBase, Fallen, NeverSynchronized;
    ghost var b := app.ledger;
    var status :- RunSynchronization(app, ResultObserved, CompletedEvidenceDomain, SynchronizeCompletedEvidence);
    ghost var c := app.ledger;
    FreshlyMatchedSame(app.job, app.seed, b, c, m, sightings, evidence.paths, {SynchronizeCompletedEvidence});
    r := EndPublished(app, m, sightings, evidence, status);
  }

  /** Makes the evidence of a matched first run. */
  method ConcludeFirst(app: Application, m: MutatedAttempt, ghost sightings: seq<Sighting>, o: Comparison, projection: nat)
    returns (r: Flow<Receipt>)
    requires app.Open() && app.ledger.state.EffectsVisible? && FreshBase(app.job, app.ledger, m) && RecoverIdle(app.ledger)
    requires Untouched(app.ledger, {PublishCompletedEvidence, SynchronizeCompletedEvidence, SealReceipt})
    requires Compared(app.job, app.seed, app.ledger, m, sightings, |app.job.plan|, o) && !o.mismatch && !o.unsure
    requires Sighted(PlanPaths(app.job.plan), sightings, |app.backend.trace|, app.backend.seen)
    modifies app, app.store, app.history
    ensures r.Crashed? ==> app.MayCrash()
    ensures r.Thrown? && r.fault == BackendFault ==> !app.backend.Honest()
    ensures app.Safe()
    ensures r.Live? ==> (r.value.outcome.AttemptCompleted? <==> !Fallen(app.ledger))
    ensures r.Live? ==> app.ledger.receipt == Some(r.value)
    ensures r.Live? && r.value.outcome.AttemptCompleted? ==> !NeverSynchronized(app.job, m) && !EvidenceGap(app.job, m)
    ensures r.Thrown? ==> r.fault == BackendFault || (r.fault == StepRefused && NeverSynchronized(app.job, m))
                          || (r.fault == EvidenceRefused && EvidenceGap(app.job, m))
    ensures r.Thrown? ==> r.fault == BackendFault || PlanCorner(r.fault, app.job, app.ledger)
  {
    hide Inv, StoredParts, Application.AwareOf, Attests, EvidenceGap, NeverSynchronized, Mutated, JobOk, PlanCorner,
      CompletedEvidenceOf, CompletedDurabilityOk, Verdict, CompletedConsequence, OutcomeOf, JobDeclares;
    ghost var before := app.ledger;
    var observed :- PublishState(app, ResultObserved);
    FreshBaseSame(app.job, before, app.ledger, m, {});
    ObservedFinished(app.job, app.seed, app.ledger, m, sightings, o);
    JobFacts(app);
    app.IsSafe();
    var evidence := CompletedEvidenceOf(app.job, app.seed, projection, o.paths, m.durability.(completed := Confirmed));
    FreshDurabilityOk(app.job, m.effects);
    GapCorner(app, m);
    EvidenceAccepted(app.job, app.seed, app.ledger, m, sightings, o, projection);
    if evidence.None? {
      return Thrown(EvidenceRefused);
    }
    r := FinishFirst(app, m, sightings, evidence.value);
  }

  /** The completion of a first run. */
  method CompleteFirst(app: Application, m: MutatedAttempt, projection: nat) returns (r: Flow<Phase<InterruptedAttempt>>)
    requires app.Open() && FreshlyMutated(app.job, app.ledger, m)
    modifies app, app.store, app.history, app.backend
    ensures r.Crashed? ==> app.MayCrash()
    ensures r.Thrown? && r.fault == BackendFault ==> !app.backend.Honest()
    ensures app.Safe()
    ensures r.Live? && r.value.Sealed? ==> (r.value.receipt.outcome.AttemptCompleted? <==> !Fallen(app.ledger))
    ensures r.Live? && r.value.Onward? ==> Fallen(app.ledger)
    ensures r.Live? && r.value.Sealed? ==> app.ledger.receipt == Some(r.value.receipt)
    ensures r.Live? && r.value.Sealed? && r.value.receipt.outcome.AttemptCompleted? ==>
              !NeverSynchronized(app.job, m) && !EvidenceGap(app.job, m)
    ensures r.Live? && r.value.Onward? ==>
              app.Open() && Interruptible(app.job, app.ledger, r.value.value) && Untouched(app.ledger, RecoveryKinds())
    ensures r.Thrown? ==> r.fault == BackendFault || (r.fault == StepRefused && NeverSynchronized(app.job, m))
                          || (r.fault == EvidenceRefused && EvidenceGap(app.job, m))
    ensures r.Thrown? ==> r.fault == BackendFault || PlanCorner(r.fault, app.job, app.ledger)
  {
    hide Inv, StoredParts, Application.AwareOf, Attests;
    ghost var sightings: seq<Sighting>;
    var o: Flow<Comparison>;
    o, sightings := ObserveFirst(app, m);
    if o.IsFailure() {
      return o.PropagateFailure();
    }
    if o.value.mismatch || o.value.unsure {
      DoubtedFallen(app.job, app.ledger);
      ghost var before := app.ledger;
      var it :- InterruptObserved(app, m, o.value);
      FallenKept(before, app.ledger, {});
      app.IsSafe();
      return Live(Onward(it));
    }
    var receipt :- ConcludeFirst(app, m, sightings, o.value, projection);
    return Live(Sealed(receipt));
  }
}
