/** Recovery of an interrupted attempt: undo what may have changed, last
    effect first, and say truthfully how it ended. */
module Recovery {
  import opened Wrappers
  import opened Paths
  import opened Plans
  import opened Journal
  import opened History
  import opened Ledgers
  import opened Jobs
  import opened Protocol
  import opened Receipts
  import opened Backend
  import opened Applications
  import opened Phases
  import opened RestartView
  import opened Publication
  import opened Execution

  // ---------------------------------------------------------------- candidates

  predicate Undoable(outcome: Outcome) {
    outcome.Completed? || outcome.Indeterminate?
  }

  function UndoList(effects: seq<EffectResult>): seq<Path> {
    if effects == [] then []
    else
      var last := effects[|effects| - 1];
      (if Undoable(last.outcome) then [last.path] else []) + UndoList(effects[..|effects| - 1])
  }

  /** The effects to undo, last first. */
  method RecoveryCandidates(effects: seq<EffectResult>) returns (candidates: seq<Path>)
    ensures candidates == UndoList(effects)
  {
    candidates := [];
    assert effects[..|effects|] == effects;
    for k := |effects| downto 0
      invariant UndoList(effects) == candidates + UndoList(effects[..k])
    {
      assert effects[..k + 1][..k] == effects[..k];
      if Undoable(effects[k].outcome) {
        candidates := candidates + [effects[k].path];
      }
    }
  }

  /** The list built from the results in memory is the one the journal
      determines: an interrupted run and any restart of it agree on it. */
  lemma {:induction false} UndoListIsCandidates(ledger: Ledger, active: seq<Path>, effects: seq<EffectResult>)
    requires |effects| <= |active|
    requires forall i :: 0 <= i < |effects| ==>
               effects[i].path == active[i] && Recorded(ledger, PublishActiveObject, active[i]) == Some(effects[i].outcome)
    requires forall i :: |effects| <= i < |active| ==> Recorded(ledger, PublishActiveObject, active[i]).None?
    ensures UndoList(effects) == Candidates(ledger, active)
  {
    if active != [] {
      var rest := active[..|active| - 1];
      if |effects| == |active| {
        UndoListIsCandidates(ledger, rest, effects[..|effects| - 1]);
      } else {
        UndoListIsCandidates(ledger, rest, effects);
      }
    }
  }

  // ---------------------------------------------------------------- exactness

  /** Whether the capture results allow an exact recovery of the path. */
  predicate ExactPossible(job: Job, seed: Seed, captures: seq<CaptureResult>, p: Path)
    requires |captures| == |job.captures|
  {
    && p in seed
    && (seed[p].Absent?
        || (seed[p].Present?
            && exists i :: 0 <= i < |captures| && job.captures[i].path == p && captures[i].outcome.Completed? && captures[i].exact))
  }

  lemma ExactPossibleIsExact(job: Job, seed: Seed, ledger: Ledger, captures: seq<CaptureResult>, p: Path)
    requires AllCaptured(job, ledger, captures) && OnlyDeclared(job, ledger)
    ensures ExactPossible(job, seed, captures, p) <==> Exact(seed, ledger, p)
  {
    if p in seed && seed[p].Present? && Exact(seed, ledger, p) {
      assert JobDeclares(job, Key(CaptureOldObject, Some(p)));
      var i :| 0 <= i < |job.captures| && CapturePaths(job.captures)[i] == p;
      assert CaptureRecorded(job.captures[i], job.control, captures[i], SlotAt(ledger, CaptureOldObject, p));
    }
    if p in seed && seed[p].Present? && ExactPossible(job, seed, captures, p) {
      var i :| 0 <= i < |captures| && job.captures[i].path == p && captures[i].outcome.Completed? && captures[i].exact;
      assert CaptureRecorded(job.captures[i], job.control, captures[i], SlotAt(ledger, CaptureOldObject, p));
    }
  }

  /** Under exact-prior-state control every effect that may have to be undone
      has an exact recovery once preparation succeeded. */
  lemma ExactControlIsExact(job: Job, seed: Seed, ledger: Ledger, captures: seq<CaptureResult>, p: Path)
    requires JobOk(job) && SeedOk(job, seed) && AllCaptured(job, ledger, captures)
    requires job.control.recovery.ExactPriorState? && p in job.active
    ensures ExactPossible(job, seed, captures, p)
  {
    assert MechanismPath(job.plan, p);
    var d :| d in job.plan && d.path == p && Schedule.MechanismRequired(d.active);
    if d.present {
      var request := RequestOf(d, job.control);
      CapturesExact(job.plan, job.control, request);
      var i :| 0 <= i < |job.captures| && job.captures[i] == request;
      assert CaptureRecorded(job.captures[i], job.control, captures[i], SlotAt(ledger, CaptureOldObject, p));
    }
  }

  // ---------------------------------------------------------------- path consequences

  function OutcomeOf(effects: seq<EffectResult>, p: Path): (outcome: Option<Outcome>)
    ensures outcome.None? <==> forall e :: e in effects ==> e.path != p
  {
    if effects == [] then None
    else if effects[0].path == p then Some(effects[0].outcome)
    else
      assert forall e :: e in effects <==> e == effects[0] || e in effects[1..];
      OutcomeOf(effects[1..], p)
  }

  function RejectedOutcomeOf(rejected: seq<Path>, results: seq<RejectedResult>, p: Path): Option<Outcome>
    requires |results| <= |rejected|
  {
    if results == [] then None
    else if rejected[0] == p then Some(results[0].outcome)
    else RejectedOutcomeOf(rejected[1..], results[1..], p)
  }

  lemma {:induction false} OutcomeAt(effects: seq<EffectResult>, i: nat)
    requires i < |effects| && forall a, b :: 0 <= a < b < |effects| ==> effects[a].path != effects[b].path
    ensures OutcomeOf(effects, effects[i].path) == Some(effects[i].outcome)
  {
    if i > 0 {
      assert effects[0].path != effects[i].path;
      OutcomeAt(effects[1..], i - 1);
    }
  }

  lemma {:induction false} RejectedOutcomeAt(rejected: seq<Path>, results: seq<RejectedResult>, i: nat)
    requires |results| <= |rejected| && i < |results| && Distinct(rejected)
    ensures RejectedOutcomeOf(rejected, results, rejected[i]) == Some(results[i].outcome)
  {
    if i > 0 {
      RejectedOutcomeAt(rejected[1..], results[1..], i - 1);
    }
  }

  /** What is known about one planned path after an interrupted attempt, or
      `None` when neither of its effects was attempted. */
  function PathAfter(job: Job, seed: Seed, it: InterruptedAttempt, recoveries: seq<EffectResult>, p: Path): Option<Consequence>
    requires |it.published.rejected| <= |job.rejected| && |it.published.prepared.captures| == |job.captures|
  {
    var active := OutcomeOf(it.effects, p);
    var rejected := RejectedOutcomeOf(job.rejected, it.published.rejected, p);
    if active.None? && rejected.None? then None
    else
      var undone := OutcomeOf(recoveries, p) == Some(Completed) && ExactPossible(job, seed, it.published.prepared.captures, p);
      var after := if active.Some? && Undoable(active.value) && !undone then UnknownState else AdmittedState;
      Some(Consequence(p, active, rejected, after, false))
  }

  function PathsAfter(job: Job, seed: Seed, it: InterruptedAttempt, recoveries: seq<EffectResult>, plan: Plan): seq<Consequence>
    requires |it.published.rejected| <= |job.rejected| && |it.published.prepared.captures| == |job.captures|
  {
    if plan == [] then []
    else
      var last := PathAfter(job, seed, it, recoveries, plan[|plan| - 1].path);
      PathsAfter(job, seed, it, recoveries, plan[..|plan| - 1]) + (if last.None? then [] else [last.value])
  }

  method RecoveryPathConsequences(job: Job, seed: Seed, it: InterruptedAttempt, recoveries: seq<EffectResult>)
    returns (paths: seq<Consequence>)
    requires |it.published.rejected| <= |job.rejected| && |it.published.prepared.captures| == |job.captures|
    ensures paths == PathsAfter(job, seed, it, recoveries, job.plan)
  {
    paths := [];
    for k := 0 to |job.plan|
      invariant paths == PathsAfter(job, seed, it, recoveries, job.plan[..k])
    {
      assert job.plan[..k + 1][..k] == job.plan[..k];
      var item := PathAfter(job, seed, it, recoveries, job.plan[k].path);
      if item.Some? {
        paths := paths + [item.value];
      }
    }
    assert job.plan[..|job.plan|] == job.plan;
  }

  lemma {:induction false} PathsAfterMember(
    job: Job, seed: Seed, it: InterruptedAttempt, recoveries: seq<EffectResult>, plan: Plan, c: Consequence)
    requires |it.published.rejected| <= |job.rejected| && |it.published.prepared.captures| == |job.captures|
    ensures c in PathsAfter(job, seed, it, recoveries, plan) <==>
              exists d :: d in plan && PathAfter(job, seed, it, recoveries, d.path) == Some(c)
  {
    if plan != [] {
      var rest, last := plan[..|plan| - 1], plan[|plan| - 1];
      PathsAfterMember(job, seed, it, recoveries, rest, c);
      assert forall d :: d in plan <==> d in rest || d == last;
    }
  }

  // ---------------------------------------------------------------- truth of the consequences

  /** The recovery results are what the journal says about a prefix of the
      candidates, and no other candidate was begun. */
  ghost predicate RecoveriesRecorded(job: Job, ledger: Ledger, recoveries: seq<EffectResult>) {
    var undo := Candidates(ledger, job.active);
    && |recoveries| <= |undo|
    && (forall i :: 0 <= i < |recoveries| ==>
          && recoveries[i].path == undo[i]
          && Recorded(ledger, RecoverActiveObject, undo[i]) == Some(recoveries[i].outcome))
  }

  lemma EffectOutcome(job: Job, ledger: Ledger, effects: seq<EffectResult>, p: Path)
    requires EffectsRecorded(job, ledger, effects) && Distinct(job.active)
    ensures p in job.active ==> OutcomeOf(effects, p) == Recorded(ledger, PublishActiveObject, p)
    ensures p !in job.active ==> OutcomeOf(effects, p).None?
  {
    if p in job.active {
      var i :| 0 <= i < |job.active| && job.active[i] == p;
      if i < |effects| {
        OutcomeAt(effects, i);
      } else {
        assert Recorded(ledger, PublishActiveObject, job.active[i]).None?;
        forall e | e in effects ensures e.path != p {
          var j :| 0 <= j < |effects| && effects[j] == e;
          assert job.active[j] != job.active[i];
        }
      }
    }
  }

  lemma RejectedResultIs(job: Job, ledger: Ledger, results: seq<RejectedResult>, p: Path)
    requires AllRejected(job, ledger, results) && Distinct(job.rejected)
    ensures p in job.rejected ==> RejectedOutcomeOf(job.rejected, results, p) == Recorded(ledger, PublishRejectedObject, p)
  {
    if p in job.rejected {
      var i :| 0 <= i < |job.rejected| && job.rejected[i] == p;
      RejectedOutcomeAt(job.rejected, results, i);
      assert Recorded(ledger, PublishRejectedObject, job.rejected[i]) == Some(results[i].outcome);
    }
  }

  lemma RecoveryOutcome(job: Job, ledger: Ledger, recoveries: seq<EffectResult>, p: Path)
    requires RecoveriesRecorded(job, ledger, recoveries)
    ensures OutcomeOf(recoveries, p) == Some(Completed) ==>
              Recorded(ledger, RecoverActiveObject, p).Some? && exists i :: 0 <= i < |recoveries| && recoveries[i].path == p
  {
    if OutcomeOf(recoveries, p).Some? {
      var e :| e in recoveries && e.path == p;
      var i :| 0 <= i < |recoveries| && recoveries[i] == e;
      assert recoveries[i].path == Candidates(ledger, job.active)[i];
    }
  }

  lemma RecoveryCompleted(job: Job, ledger: Ledger, recoveries: seq<EffectResult>, p: Path)
    requires RecoveriesRecorded(job, ledger, recoveries) && Distinct(Candidates(ledger, job.active))
    requires OutcomeOf(recoveries, p) == Some(Completed)
    ensures Recorded(ledger, RecoverActiveObject, p) == Some(Completed)
  {
    RecoveryOutcome(job, ledger, recoveries, p);
    var i :| 0 <= i < |recoveries| && recoveries[i].path == p;
    forall a, b | 0 <= a < b < |recoveries| ensures recoveries[a].path != recoveries[b].path {
      assert recoveries[a].path == Candidates(ledger, job.active)[a];
      assert recoveries[b].path == Candidates(ledger, job.active)[b];
    }
    OutcomeAt(recoveries, i);
  }

  lemma PathAfterTruthful(job: Job, seed: Seed, ledger: Ledger, it: InterruptedAttempt, recoveries: seq<EffectResult>, p: Path)
    requires JobOk(job) && OnlyDeclared(job, ledger) && Distinct(job.rejected)
    requires EffectsRecorded(job, ledger, it.effects) && AllRejected(job, ledger, it.published.rejected)
    requires AllCaptured(job, ledger, it.published.prepared.captures) && RecoveriesRecorded(job, ledger, recoveries)
    requires PathAfter(job, seed, it, recoveries, p).Some?
    ensures TruthfulPath(job, seed, ledger, PathAfter(job, seed, it, recoveries, p).value)
  {
    EffectOutcome(job, ledger, it.effects, p);
    RejectedResultIs(job, ledger, it.published.rejected, p);
    ExactPossibleIsExact(job, seed, ledger, it.published.prepared.captures, p);
    CandidatesDistinct(ledger, job.active);
    if OutcomeOf(recoveries, p) == Some(Completed) {
      RecoveryCompleted(job, ledger, recoveries, p);
    }
    if p !in job.active {
      assert !JobDeclares(job, Key(PublishActiveObject, Some(p)));
    }
  }

  /** What sealing a recovery starts from. */
  ghost predicate Classified(job: Job, seed: Seed, ledger: Ledger, it: InterruptedAttempt, ending: Ending, recoveries: seq<EffectResult>) {
    && EffectsRecorded(job, ledger, it.effects) && AllRejected(job, ledger, it.published.rejected)
    && AllCaptured(job, ledger, it.published.prepared.captures) && RecoveriesRecorded(job, ledger, recoveries)
    && !ending.outcome.AttemptCompleted? && !ending.outcome.PreconditionRefused?
    && (ending.outcome.FailedBeforeTargetMutation? ==> Candidates(ledger, job.active) == [])
    && (ending.outcome.FailedFullyRecovered? ==> forall p :: p in Candidates(ledger, job.active) ==> Undone(seed, ledger, p))
  }

  predicate SomeRetained(effects: seq<EffectResult>) {
    exists e :: e in effects && e.outcome.ConditionalRetained?
  }

  lemma ClassifiedTruthful(job: Job, seed: Seed, ledger: Ledger, trace: Trace, it: InterruptedAttempt, ending: Ending,
                           recoveries: seq<EffectResult>, receipt: Receipt)
    requires Sound(job, seed, ledger, trace) && Classified(job, seed, ledger, it, ending, recoveries)
    requires receipt.outcome == ending.outcome
    requires receipt.paths == PathsAfter(job, seed, it, recoveries, job.plan)
    ensures Truthful(job, seed, ledger, receipt)
    ensures forall c :: c in receipt.paths ==>
              c.path in PlanPaths(job.plan) && !c.eligible && c.active == OutcomeOf(it.effects, c.path) && !c.after.Observed?
  {
    SoundMeans(job, seed, ledger, trace);
    JobLists(job);
    forall c | c in receipt.paths
      ensures TruthfulPath(job, seed, ledger, c) && c.path in PlanPaths(job.plan) && !c.eligible
              && c.active == OutcomeOf(it.effects, c.path) && !c.after.Observed?
    {
      PathsAfterMember(job, seed, it, recoveries, job.plan, c);
      var d :| d in job.plan && PathAfter(job, seed, it, recoveries, d.path) == Some(c);
      PathAfterTruthful(job, seed, ledger, it, recoveries, d.path);
      PlanMember(job.plan, d);
    }
  }

  /** A retained directory among the effects is a path of the receipt. */
  lemma RetainedIsPath(job: Job, seed: Seed, ledger: Ledger, trace: Trace, it: InterruptedAttempt,
                       recoveries: seq<EffectResult>, e: EffectResult)
    requires Sound(job, seed, ledger, trace) && EffectsRecorded(job, ledger, it.effects) && AllRejected(job, ledger, it.published.rejected)
    requires AllCaptured(job, ledger, it.published.prepared.captures) && e in it.effects
    ensures exists c :: c in PathsAfter(job, seed, it, recoveries, job.plan) && c.active == Some(e.outcome)
  {
    SoundMeans(job, seed, ledger, trace);
    JobLists(job);
    var i :| 0 <= i < |it.effects| && it.effects[i] == e;
    assert e.path == job.active[i];
    EffectOutcome(job, ledger, it.effects, e.path);
    assert MechanismPath(job.plan, e.path);
    var d :| d in job.plan && d.path == e.path;
    var c := PathAfter(job, seed, it, recoveries, d.path).value;
    PathsAfterMember(job, seed, it, recoveries, job.plan, c);
  }

  /** Nothing can be undone, and a directory was retained. */
  predicate RetainedOnly(job: Job, ledger: Ledger) {
    && Candidates(ledger, job.active) == []
    && exists p :: p in job.active && Recorded(ledger, PublishActiveObject, p) == Some(ConditionalRetained) && MayRetain(job.plan, p)
  }

  lemma RetainedIsRecorded(job: Job, ledger: Ledger, effects: seq<EffectResult>)
    requires EffectsRecorded(job, ledger, effects) && RetainedFits(job, effects)
    ensures (exists p :: p in job.active && Recorded(ledger, PublishActiveObject, p) == Some(ConditionalRetained)
                         && MayRetain(job.plan, p))
            <==> SomeRetained(effects)
  {
    if SomeRetained(effects) {
      var i :| 0 <= i < |effects| && effects[i].outcome.ConditionalRetained?;
      var p := job.active[i];
      assert p in job.active && effects[i] in effects;
      assert Recorded(ledger, PublishActiveObject, p) == Some(ConditionalRetained) && MayRetain(job.plan, p);
    }
    if p :| p in job.active && Recorded(ledger, PublishActiveObject, p) == Some(ConditionalRetained) {
      var i :| 0 <= i < |job.active| && job.active[i] == p;
      assert i < |effects| && effects[i] in effects;
    }
  }

  lemma RetainedOnRecord(job: Job, ledger: Ledger, it: InterruptedAttempt)
    requires Interruptible(job, ledger, it)
    ensures RetainedOnly(job, ledger) <==> UndoList(it.effects) == [] && SomeRetained(it.effects)
  {
    UndoListIsCandidates(ledger, job.active, it.effects);
    RetainedIsRecorded(job, ledger, it.effects);
  }

  /** Nothing to undo: every effect failed or retained its object. */
  lemma NothingToUndo(job: Job, ledger: Ledger, effects: seq<EffectResult>)
    requires EffectsRecorded(job, ledger, effects) && Candidates(ledger, job.active) == []
    ensures forall e :: e in effects ==> e.outcome.Failed? || e.outcome.ConditionalRetained?
  {
    CandidatesMembers(ledger, job.active);
    forall e | e in effects ensures e.outcome.Failed? || e.outcome.ConditionalRetained? {
      var i :| 0 <= i < |effects| && effects[i] == e;
      assert job.active[i] in job.active && !Touched(ledger, job.active[i]);
    }
  }

  /** The failure receipt of a recovery is refused exactly when it would call
      an attempt unmutated in which a directory was retained. */
  lemma ReceiptRefused(job: Job, seed: Seed, ledger: Ledger, trace: Trace, it: InterruptedAttempt, ending: Ending,
                       durability: Durability, recoveries: seq<EffectResult>)
    requires Sound(job, seed, ledger, trace) && Classified(job, seed, ledger, it, ending, recoveries)
    requires FailedOutcomeOk(ending.outcome, ending.recovery, true, durability)
    ensures FailedReceipt(job.plan, ending.outcome, ending.recovery, durability,
                          PathsAfter(job, seed, it, recoveries, job.plan), true).None?
            <==> ending.outcome.FailedBeforeTargetMutation? && SomeRetained(it.effects)
  {
    var paths := PathsAfter(job, seed, it, recoveries, job.plan);
    ClassifiedTruthful(job, seed, ledger, trace, it, ending, recoveries, Receipt(ending.outcome, ending.recovery, durability, paths, None));
    if ending.outcome.FailedBeforeTargetMutation? {
      NothingToUndo(job, ledger, it.effects);
      if SomeRetained(it.effects) {
        var e :| e in it.effects && e.outcome.ConditionalRetained?;
        RetainedIsPath(job, seed, ledger, trace, it, recoveries, e);
      } else {
        forall c | c in paths ensures FailedPathOk(ending.outcome, c) {
          OutcomeIn(it.effects, c.path);
        }
      }
    }
  }

  lemma {:induction false} OutcomeIn(effects: seq<EffectResult>, p: Path)
    ensures OutcomeOf(effects, p).Some? ==> exists e :: e in effects && Some(e.outcome) == OutcomeOf(effects, p)
  {
    if effects != [] && effects[0].path != p {
      OutcomeIn(effects[1..], p);
    }
  }

  predicate RejectedVisible(it: InterruptedAttempt) {
    exists r :: r in it.published.rejected && r.outcome.Completed?
  }

  /** A recovery claims no observation. */
  lemma ClassifiedWitnessed(app: Application, it: InterruptedAttempt, ending: Ending, recoveries: seq<EffectResult>, receipt: Receipt)
    requires app.Alive() && Classified(app.job, app.seed, app.ledger, it, ending, recoveries)
    requires receipt.outcome == ending.outcome
    requires receipt.paths == PathsAfter(app.job, app.seed, it, recoveries, app.job.plan)
    ensures Witnessed(receipt, app.backend.trace, app.backend.seen)
  {
    hide Inv, StoredParts, Application.AwareOf, Attests, Classified, Truthful;
    ClassifiedTruthful(app.job, app.seed, app.ledger, app.backend.trace, it, ending, recoveries, receipt);
  }

  /** Seals how an interrupted attempt ended. */
  method SealRecovery(app: Application, it: InterruptedAttempt, ending: Ending, durability: Durability, recoveries: seq<EffectResult>)
    returns (r: Flow<Receipt>)
    requires app.Open() && Classified(app.job, app.seed, app.ledger, it, ending, recoveries)
    requires FailedOutcomeOk(ending.outcome, ending.recovery, true, durability)
    requires StateMayFollow(app.ledger.state, FailureState(ending.outcome, RejectedVisible(it)).value)
    modifies app, app.store, app.history
    ensures r.Crashed? ==> app.MayCrash()
    ensures app.Safe()
    ensures r.Live? ==> app.ledger.receipt == Some(r.value) && r.value.outcome == ending.outcome && r.value.durability == durability
                        && OnlyChanged(old(app.ledger), app.ledger, {})
    ensures r.Thrown? <==> ending.outcome.FailedBeforeTargetMutation? && SomeRetained(it.effects)
    ensures r.Thrown? ==> r.fault == Fault.ReceiptRefused && app.ledger == old(app.ledger)
  {
    hide Inv, StoredParts, Application.AwareOf, Attests, Truthful, Witnessed, FailedOutcomeOk;
    var paths := RecoveryPathConsequences(app.job, app.seed, it, recoveries);
    var receipt := FailedReceipt(app.job.plan, ending.outcome, ending.recovery, durability, paths, true);
    ReceiptRefused(app.job, app.seed, app.ledger, app.backend.trace, it, ending, durability, recoveries);
    if receipt.None? {
      app.IsSafe();
      return Thrown(Fault.ReceiptRefused);
    }
    ClassifiedTruthful(app.job, app.seed, app.ledger, app.backend.trace, it, ending, recoveries, receipt.value);
    ClassifiedWitnessed(app, it, ending, recoveries, receipt.value);
    var sealed :- SealState(app, FailureState(ending.outcome, RejectedVisible(it)).value, receipt.value);
    return Live(receipt.value);
  }

  // ---------------------------------------------------------------- undoing

  function NothingKnown(): View {
    EmptyView()
  }

  datatype UndoResult = UndoResult(recoveries: seq<EffectResult>, exact: bool, recovered: bool, indeterminate: bool)

  ghost predicate Faithful(job: Job, ledger: Ledger, it: InterruptedAttempt) {
    && EffectsRecorded(job, ledger, it.effects) && AllRejected(job, ledger, it.published.rejected)
    && AllCaptured(job, ledger, it.published.prepared.captures)
  }

  /** Part way through undoing: every recovery so far completed. */
  ghost predicate Undoing(job: Job, seed: Seed, ledger: Ledger, it: InterruptedAttempt, view: View, result: UndoResult) {
    var undo := Candidates(ledger, job.active);
    && ledger.state.Recovering?
    && Faithful(job, ledger, it)
    && RecoveriesRecorded(job, ledger, result.recoveries)
    && (forall i :: 0 <= i < |result.recoveries| ==> result.recoveries[i].outcome.Completed?)
    && (result.exact <==> forall i :: 0 <= i < |result.recoveries| ==>
                            ExactPossible(job, seed, it.published.prepared.captures, undo[i]))
    && (forall i :: |result.recoveries| <= i < |undo| && SlotAt(ledger, RecoverActiveObject, undo[i]).Done? ==>
                      FactAt(view, Key(RecoverActiveObject, Some(undo[i]))) == SlotAt(ledger, RecoverActiveObject, undo[i]).fact)
  }

  /** What undoing established. */
  ghost predicate UndoDone(job: Job, seed: Seed, ledger: Ledger, it: InterruptedAttempt, result: UndoResult) {
    var undo := Candidates(ledger, job.active);
    && ledger.state.Recovering?
    && Faithful(job, ledger, it)
    && RecoveriesRecorded(job, ledger, result.recoveries)
    && (result.recovered ==>
          |result.recoveries| == |undo| && forall i :: 0 <= i < |undo| ==> result.recoveries[i].outcome.Completed?)
    && (result.exact <==> forall i :: 0 <= i < |result.recoveries| ==>
                            ExactPossible(job, seed, it.published.prepared.captures, undo[i]))
  }

  lemma UndoingTurn(job: Job, seed: Seed, ledger: Ledger, it: InterruptedAttempt, view: View, result: UndoResult)
    requires Undoing(job, seed, ledger, it, view, result)
    requires |result.recoveries| < |Candidates(ledger, job.active)|
    ensures TurnOf(job, ledger, RecoverActiveObject, Candidates(ledger, job.active)[|result.recoveries|], |result.recoveries|)
  {
    var undo := Candidates(ledger, job.active);
    forall i | 0 <= i < |result.recoveries| ensures Cleared(ledger, RecoverActiveObject, undo[i]) {
      assert Recorded(ledger, RecoverActiveObject, undo[i]) == Some(result.recoveries[i].outcome);
    }
  }

  /** The candidates and the facts about the earlier phases do not change
      while one more recovery is recorded. */
  lemma UndoingMoves(job: Job, seed: Seed, before: Ledger, after: Ledger, it: InterruptedAttempt, view: View,
                     result: UndoResult, outcome: Outcome)
    requires Undoing(job, seed, before, it, view, result) && Distinct(job.active)
    requires |result.recoveries| < |Candidates(before, job.active)|
    requires var key := Key(RecoverActiveObject, Some(Candidates(before, job.active)[|result.recoveries|]));
             && after.state.Recovering? && Meaning(At(after, key)) == Some(outcome)
             && forall other: Key :: other != key ==> At(after, other) == At(before, other)
    ensures var p := Candidates(before, job.active)[|result.recoveries|];
            var result' := Extended(job, seed, it, result, p, outcome);
            && Candidates(after, job.active) == Candidates(before, job.active)
            && UndoDone(job, seed, after, it, result'.(recovered := false))
            && (outcome.Completed? ==> Undoing(job, seed, after, it, view, result'))
  {
    var undo := Candidates(before, job.active);
    CandidatesDistinct(before, job.active);
    CandidatesSame(before, after, job.active);
    assert OnlyChanged(before, after, {RecoverActiveObject});
    SameRecords(job, before, after, it.effects, it.published.rejected, {RecoverActiveObject});
    CapturesSame(job, before, after, it.published.prepared.captures, {RecoverActiveObject});
    assert forall i :: 0 <= i < |undo| && i != |result.recoveries| ==>
                         SlotAt(after, RecoverActiveObject, undo[i]) == SlotAt(before, RecoverActiveObject, undo[i]);
  }

  /** Undoes one candidate, unless an earlier run already did or may have. */
  method UndoNext(app: Application, view: View, p: Path, ghost k: nat) returns (r: Flow<Outcome>)
    requires app.Open() && app.ledger.state.Recovering? && p in app.job.active
    requires TurnOf(app.job, app.ledger, RecoverActiveObject, p, k)
    requires SlotAt(app.ledger, RecoverActiveObject, p).Done? ==>
               FactAt(view, Key(RecoverActiveObject, Some(p))) == SlotAt(app.ledger, RecoverActiveObject, p).fact
    modifies app, app.store, app.history, app.backend
    ensures r.Crashed? ==> app.MayCrash()
    ensures r.Thrown? && r.fault == BackendFault ==> !app.backend.Honest()
    ensures app.Safe()
    ensures !old(SlotAt(app.ledger, RecoverActiveObject, p)).Idle? ==>
              app.backend.trace == old(app.backend.trace) && app.ledger == old(app.ledger)
    ensures old(SlotAt(app.ledger, RecoverActiveObject, p)).Intended? ==> r == Live(Indeterminate)
    ensures r.Live? ==>
              && app.Open() && app.ledger.state.Recovering?
              && Meaning(SlotAt(app.ledger, RecoverActiveObject, p)) == Some(r.value)
              && forall other: Key :: other != Key(RecoverActiveObject, Some(p)) ==> At(app.ledger, other) == old(At(app.ledger, other))
    ensures r.Thrown? ==> r.fault == BackendFault
  {
    SoundFacts(app.job, app.seed, app.ledger, app.backend.trace, RecoverActiveObject, p);
    app.IsSafe();
    var key := Key(RecoverActiveObject, Some(p));
    var progress := app.ProgressFor(key);
    if progress.terminal.Some? {
      return Live(FactOutcome(FactAt(view, key).value));
    }
    if progress.intended {
      return Live(Indeterminate);
    }
    var outcome :- RunRecover(app, p, k);
    app.IsSafe();
    return Live(outcome);
  }

  /** The result after one more candidate, which ends it unless it was undone. */
  function Extended(job: Job, seed: Seed, it: InterruptedAttempt, result: UndoResult, p: Path, outcome: Outcome): UndoResult
    requires |it.published.prepared.captures| == |job.captures|
  {
    UndoResult(result.recoveries + [EffectResult(p, outcome)],
               result.exact && ExactPossible(job, seed, it.published.prepared.captures, p),
               outcome.Completed?, result.indeterminate || outcome.Indeterminate?)
  }

  /** The undoing went on or ended with the result. */
  ghost predicate Undid(candidates: seq<Path>, uncertain: bool, result: UndoResult) {
    && (result.recovered ==> result.indeterminate == uncertain)
    && (result.recoveries == [] ==> candidates == [])
    && (!result.recovered ==> result.recoveries != [] && !result.recoveries[|result.recoveries| - 1].outcome.Completed?)
  }

  /** One step of the undoing, with what it establishes. */
  method UndoStep(app: Application, it: InterruptedAttempt, view: View, result: UndoResult, candidates: seq<Path>)
    returns (r: Flow<UndoResult>)
    requires app.Open() && Undoing(app.job, app.seed, app.ledger, it, view, result)
    requires candidates == Candidates(app.ledger, app.job.active) && |result.recoveries| < |candidates|
    modifies app, app.store, app.history, app.backend
    ensures r.Crashed? ==> app.MayCrash()
    ensures r.Thrown? && r.fault == BackendFault ==> !app.backend.Honest()
    ensures app.Safe()
    ensures r.Live? ==>
              && app.Open() && Candidates(app.ledger, app.job.active) == candidates
              && OnlyChanged(old(app.ledger), app.ledger, {RecoverActiveObject})
              && |r.value.recoveries| == |result.recoveries| + 1
              && r.value.recovered == r.value.recoveries[|result.recoveries|].outcome.Completed?
              && (r.value.recovered ==> r.value.indeterminate == result.indeterminate)
              && UndoDone(app.job, app.seed, app.ledger, it, r.value.(recovered := false))
              && (r.value.recovered ==> Undoing(app.job, app.seed, app.ledger, it, view, r.value))
    ensures r.Thrown? ==> r.fault == BackendFault
  {
    hide Inv, StoredParts, Application.AwareOf, Attests;
    JobFacts(app);
    ghost var before := app.ledger;
    CandidatesMembers(app.ledger, app.job.active);
    assert candidates[|result.recoveries|] in candidates;
    UndoingTurn(app.job, app.seed, app.ledger, it, view, result);
    var outcome :- UndoNext(app, view, candidates[|result.recoveries|], |result.recoveries|);
    UndoingMoves(app.job, app.seed, before, app.ledger, it, view, result, outcome);
    app.IsSafe();
    return Live(Extended(app.job, app.seed, it, result, candidates[|result.recoveries|], outcome));
  }

  /** The undoing is done when it has reached the last candidate. */
  lemma UndoingDone(job: Job, seed: Seed, ledger: Ledger, it: InterruptedAttempt, view: View, result: UndoResult)
    requires Undoing(job, seed, ledger, it, view, result) && |result.recoveries| == |Candidates(ledger, job.active)|
    ensures UndoDone(job, seed, ledger, it, result)
  {
    assert forall i :: 0 <= i < |result.recoveries| ==> result.recoveries[i].outcome.Completed?;
  }

  /** Undoes the candidates in order; the first recovery that does not
      complete ends the attempt to recover. */
  method UndoEach(app: Application, it: InterruptedAttempt, view: View, candidates: seq<Path>, uncertain: bool)
    returns (r: Flow<UndoResult>)
    requires app.Open() && candidates == Candidates(app.ledger, app.job.active)
    requires Undoing(app.job, app.seed, app.ledger, it, view, UndoResult([], true, true, uncertain))
    modifies app, app.store, app.history, app.backend
    ensures r.Crashed? ==> app.MayCrash()
    ensures r.Thrown? && r.fault == BackendFault ==> !app.backend.Honest()
    ensures app.Safe()
    ensures r.Live? ==>
              && app.Open() && UndoDone(app.job, app.seed, app.ledger, it, r.value)
              && OnlyChanged(old(app.ledger), app.ledger, {RecoverActiveObject})
              && Undid(candidates, uncertain, r.value)
              && Candidates(app.ledger, app.job.active) == candidates
    ensures r.Thrown? ==> r.fault == BackendFault
  {
    hide Inv, StoredParts, Application.AwareOf, Attests, Undoing, UndoDone;
    app.IsSafe();
    ghost var first := app.ledger;
    var result := UndoResult([], true, true, uncertain);
    for i := 0 to |candidates|
      invariant app.Open() && app.Safe() && Candidates(app.ledger, app.job.active) == candidates
      invariant |result.recoveries| == i && result.recovered && result.indeterminate == uncertain
      invariant Undoing(app.job, app.seed, app.ledger, it, view, result)
      invariant OnlyChanged(first, app.ledger, {RecoverActiveObject})
    {
      result :- UndoStep(app, it, view, result, candidates);
      app.IsSafe();
      if !result.recovered {
        return Live(result);
      }
    }
    UndoingDone(app.job, app.seed, app.ledger, it, view, result);
    return Live(result);
  }

  predicate SomeCompleted(recoveries: seq<EffectResult>) {
    exists e :: e in recoveries && e.outcome.Completed?
  }

  lemma UndoClassified(job: Job, seed: Seed, ledger: Ledger, it: InterruptedAttempt, result: UndoResult, recovered: bool,
                       indeterminate: bool)
    requires UndoDone(job, seed, ledger, it, result) && OnlyDeclared(job, ledger)
    requires recovered ==> result.recovered
    ensures Classified(job, seed, ledger, it, EndingAfterRecovery(recovered, result.exact, indeterminate), result.recoveries)
  {
    if recovered && result.exact {
      forall p | p in Candidates(ledger, job.active) ensures Undone(seed, ledger, p) {
        UndoneCandidate(job, seed, ledger, it, result, p);
      }
    }
  }

  lemma UndoneCandidate(job: Job, seed: Seed, ledger: Ledger, it: InterruptedAttempt, result: UndoResult, p: Path)
    requires UndoDone(job, seed, ledger, it, result) && OnlyDeclared(job, ledger)
    requires result.recovered && result.exact && p in Candidates(ledger, job.active)
    ensures Undone(seed, ledger, p)
  {
    var undo := Candidates(ledger, job.active);
    var i :| 0 <= i < |undo| && undo[i] == p;
    assert ExactPossible(job, seed, it.published.prepared.captures, undo[i]);
    ExactPossibleIsExact(job, seed, ledger, it.published.prepared.captures, p);
  }

  /** Seals the ending after undoing. */
  method SealUndone(app: Application, it: InterruptedAttempt, result: UndoResult, recovered: bool, indeterminate: bool, durability: Durability)
    returns (r: Flow<Receipt>)
    requires app.Open() && UndoDone(app.job, app.seed, app.ledger, it, result) && (recovered ==> result.recovered)
    modifies app, app.store, app.history
    ensures r.Crashed? ==> app.MayCrash()
    ensures app.Safe()
    ensures r.Live? ==> app.ledger.receipt == Some(r.value)
                        && r.value.outcome == EndingAfterRecovery(recovered, result.exact, indeterminate).outcome
                        && r.value.durability == durability
                        && OnlyChanged(old(app.ledger), app.ledger, {})
    ensures !r.Thrown?
  {
    hide Inv, StoredParts, Application.AwareOf, Attests;
    SoundLedger(app);
    UndoClassified(app.job, app.seed, app.ledger, it, result, recovered, indeterminate);
    EndingsAccepted(EffectFailed, false, recovered, result.exact, indeterminate, durability);
    r := SealRecovery(app, it, EndingAfterRecovery(recovered, result.exact, indeterminate), durability, result.recoveries);
  }

  lemma UndoneStays(job: Job, seed: Seed, before: Ledger, after: Ledger, it: InterruptedAttempt, result: UndoResult)
    requires UndoDone(job, seed, before, it, result)
    requires OnlyChanged(before, after, {SynchronizeRecoveredNamespace}) && after.state.Recovering?
    ensures UndoDone(job, seed, after, it, result)
  {
    SameRecords(job, before, after, it.effects, it.published.rejected, {SynchronizeRecoveredNamespace});
    CapturesSame(job, before, after, it.published.prepared.captures, {SynchronizeRecoveredNamespace});
    CandidatesSame(before, after, job.active);
    assert forall p :: Recorded(after, RecoverActiveObject, p) == Recorded(before, RecoverActiveObject, p);
  }

  /** Recovery of a first run after undoing.  The status of the recovered
      namespace goes into the receipt, not into its classification. */
  method FinishFirstRecovery(app: Application, it: InterruptedAttempt, result: UndoResult) returns (r: Flow<Receipt>)
    requires app.Open() && UndoDone(app.job, app.seed, app.ledger, it, result)
    requires app.job.active != [] && !At(app.ledger, RecoveredSync()).Done?
    modifies app, app.store, app.history, app.backend
    ensures r.Crashed? ==> app.MayCrash()
    ensures r.Thrown? && r.fault == BackendFault ==> !app.backend.Honest()
    ensures app.Safe()
    ensures r.Live? ==> app.ledger.receipt == Some(r.value)
                        && r.value.outcome == EndingAfterRecovery(result.recovered, result.exact, result.indeterminate).outcome
                        && OnlyChanged(old(app.ledger), app.ledger, {SynchronizeRecoveredNamespace})
    ensures r.Thrown? ==> r.fault == BackendFault
  {
    hide Inv, StoredParts, Application.AwareOf, Attests;
    var durability := if SomeCompleted(result.recoveries) then it.durability.(active := Visible) else it.durability;
    if result.recovered && AllDomainsRequired(app.job.control) {
      ghost var before := app.ledger;
      var status :- RunSynchronization(app, Recovering, ActiveNamespace, SynchronizeRecoveredNamespace);
      UndoneStays(app.job, app.seed, before, app.ledger, it, result);
      durability := durability.(active := status);
    }
    r := SealUndone(app, it, result, result.recovered, result.indeterminate, durability);
  }

  // ---------------------------------------------------------------- the first run

  lemma InterruptibleClassified(job: Job, seed: Seed, ledger: Ledger, it: InterruptedAttempt)
    requires Interruptible(job, ledger, it)
    ensures UndoList(it.effects) == Candidates(ledger, job.active)
    ensures var ending := EndingWithoutRecovery(it.interruption, UndoList(it.effects) == []);
            && Classified(job, seed, ledger, it, ending, [])
            && FailedOutcomeOk(ending.outcome, ending.recovery, true, it.durability)
            && StateMayFollow(ledger.state, FailureState(ending.outcome, RejectedVisible(it)).value)
  {
    UndoListIsCandidates(ledger, job.active, it.effects);
    EndingsAccepted(it.interruption, UndoList(it.effects) == [], false, false, false, it.durability);
  }

  /** Seals an interrupted attempt without undoing anything: there is nothing
      to undo, or the control does not ask for it. */
  method SealWithoutRecovery(app: Application, it: InterruptedAttempt) returns (r: Flow<Receipt>)
    requires app.Open() && Interruptible(app.job, app.ledger, it)
    modifies app, app.store, app.history
    ensures r.Crashed? ==> app.MayCrash()
    ensures app.Safe()
    ensures r.Live? ==> OnlyChanged(old(app.ledger), app.ledger, {}) && !r.value.outcome.AttemptCompleted?
    ensures r.Live? ==> app.ledger.receipt == Some(r.value)
    ensures r.Thrown? <==> UndoList(it.effects) == [] && SomeRetained(it.effects)
                           && !it.interruption.ObservationMismatch? && !it.interruption.ObservationIndeterminate?
    ensures r.Thrown? ==> r.fault == Fault.ReceiptRefused && app.ledger == old(app.ledger)
  {
    InterruptibleClassified(app.job, app.seed, app.ledger, it);
    r := SealRecovery(app, it, EndingWithoutRecovery(it.interruption, UndoList(it.effects) == []), it.durability, []);
  }

  lemma UndoingStarts(job: Job, seed: Seed, before: Ledger, after: Ledger, it: InterruptedAttempt, view: View, uncertain: bool)
    requires Faithful(job, before, it) && after == before.(state := Recovering) && Knows(view, before, {RecoverActiveObject})
    ensures Undoing(job, seed, after, it, view, UndoResult([], true, true, uncertain))
    ensures Candidates(after, job.active) == Candidates(before, job.active)
  {
    assert OnlyChanged(before, after, {});
    SameRecords(job, before, after, it.effects, it.published.rejected, {});
    CapturesSame(job, before, after, it.published.prepared.captures, {});
    CandidatesSame(before, after, job.active);
  }

  /** An attempt under exact-prior-state control can be undone exactly. */
  lemma ExactControl(app: Application, it: InterruptedAttempt, result: UndoResult)
    requires app.Alive() && UndoDone(app.job, app.seed, app.ledger, it, result)
    ensures app.job.control.recovery.ExactPriorState? ==> result.exact
  {
    JobFacts(app);
    SoundMeans(app.job, app.seed, app.ledger, app.backend.trace);
    var undo := Candidates(app.ledger, app.job.active);
    CandidatesMembers(app.ledger, app.job.active);
    if app.job.control.recovery.ExactPriorState? {
      forall i | 0 <= i < |result.recoveries|
        ensures ExactPossible(app.job, app.seed, it.published.prepared.captures, undo[i])
      {
        assert undo[i] in undo;
        ExactControlIsExact(app.job, app.seed, app.ledger, it.published.prepared.captures, undo[i]);
      }
    }
  }

  /** Begins recovery and undoes the candidates. */
  method Undo(app: Application, it: InterruptedAttempt, view: View, candidates: seq<Path>) returns (r: Flow<UndoResult>)
    requires app.Open() && Faithful(app.job, app.ledger, it) && candidates == Candidates(app.ledger, app.job.active)
    requires StateMayFollow(app.ledger.state, Recovering) && Knows(view, app.ledger, {RecoverActiveObject})
    modifies app, app.store, app.history, app.backend
    ensures r.Crashed? ==> app.MayCrash()
    ensures r.Thrown? && r.fault == BackendFault ==> !app.backend.Honest()
    ensures app.Safe()
    ensures r.Live? ==>
              && app.Open() && UndoDone(app.job, app.seed, app.ledger, it, r.value)
              && OnlyChanged(old(app.ledger), app.ledger, {RecoverActiveObject})
              && Undid(candidates, Uncertain(it.interruption), r.value)
              && Candidates(app.ledger, app.job.active) == candidates
    ensures r.Thrown? ==> r.fault == BackendFault
  {
    hide Inv, StoredParts, Application.AwareOf, Attests;
    ghost var before := app.ledger;
    var state := app.State();
    if !state.Recovering? {
      var recovering :- PublishState(app, Recovering);
    }
    UndoingStarts(app.job, app.seed, before, app.ledger, it, view, Uncertain(it.interruption));
    r := UndoEach(app, it, view, candidates, Uncertain(it.interruption));
  }

  lemma RecoveredAll(job: Job, seed: Seed, before: Ledger, after: Ledger, it: InterruptedAttempt, result: UndoResult)
    requires UndoDone(job, seed, before, it, result)
    requires OnlyChanged(before, after, {SynchronizeRecoveredNamespace})
    requires !result.recovered ==>
               result.recoveries != [] && !result.recoveries[|result.recoveries| - 1].outcome.Completed?
    ensures AllRecovered(after, Candidates(before, job.active)) ==> result.recovered
  {
    if !result.recovered {
      var last := |result.recoveries| - 1;
      var p := Candidates(before, job.active)[last];
      assert p in Candidates(before, job.active);
      assert Recorded(before, RecoverActiveObject, p) == Some(result.recoveries[last].outcome);
      assert Recorded(after, RecoverActiveObject, p) == Recorded(before, RecoverActiveObject, p);
    }
  }

  /** Undoes the candidates of a first run and seals the ending. */
  method UndoFirst(app: Application, it: InterruptedAttempt, candidates: seq<Path>) returns (r: Flow<Receipt>)
    requires app.Open() && Faithful(app.job, app.ledger, it) && StateMayFollow(app.ledger.state, Recovering)
    requires candidates == Candidates(app.ledger, app.job.active) && candidates != []
    requires RecoverIdle(app.ledger) && !At(app.ledger, RecoveredSync()).Done?
    modifies app, app.store, app.history, app.backend
    ensures r.Crashed? ==> app.MayCrash()
    ensures r.Thrown? && r.fault == BackendFault ==> !app.backend.Honest()
    ensures app.Safe()
    ensures r.Live? ==> OnlyChanged(old(app.ledger), app.ledger, {RecoverActiveObject, SynchronizeRecoveredNamespace})
                        && !r.value.outcome.AttemptCompleted?
    ensures r.Live? ==> app.ledger.receipt == Some(r.value)
    ensures r.Live? && ExactlyRecovered(app.job, app.ledger, candidates) ==> r.value.outcome.FailedFullyRecovered?
    ensures r.Thrown? ==> r.fault == BackendFault
  {
    hide Inv, StoredParts, Application.AwareOf, Attests;
    RecoverUntouched(app);
    var result :- Undo(app, it, NothingKnown(), candidates);
    ExactControl(app, it, result);
    ghost var before := app.ledger;
    r := FinishFirstRecovery(app, it, result);
    if r.Live? {
      RecoveredAll(app.job, app.seed, before, app.ledger, it, result);
    }
  }

  ghost predicate ExactlyRecovered(job: Job, ledger: Ledger, candidates: seq<Path>) {
    job.control.recovery.ExactPriorState? && AllRecovered(ledger, candidates)
  }

  /** Recovery of a first run.  Under exact-prior-state control a run whose
      recoveries all complete is fully recovered.  It is refused when nothing
      can be undone but a directory was retained. */
  method RecoverFirst(app: Application, it: InterruptedAttempt) returns (r: Flow<Receipt>)
    requires app.Open() && Interruptible(app.job, app.ledger, it)
    requires RecoverIdle(app.ledger) && !At(app.ledger, RecoveredSync()).Done?
    modifies app, app.store, app.history, app.backend
    ensures r.Crashed? ==> app.MayCrash()
    ensures r.Thrown? && r.fault == BackendFault ==> !app.backend.Honest()
    ensures app.Safe()
    ensures r.Live? ==> OnlyChanged(old(app.ledger), app.ledger, {RecoverActiveObject, SynchronizeRecoveredNamespace})
                        && !r.value.outcome.AttemptCompleted?
    ensures r.Live? ==> app.ledger.receipt == Some(r.value)
    ensures r.Live? && UndoList(it.effects) != [] && ExactlyRecovered(app.job, app.ledger, UndoList(it.effects)) ==>
              r.value.outcome.FailedFullyRecovered?
    ensures r.Thrown? && r.fault != BackendFault ==>
              r.fault == Fault.ReceiptRefused && RetainedOnly(app.job, app.ledger) && app.ledger == old(app.ledger)
  {
    hide Inv, StoredParts, Application.AwareOf, Attests;
    InterruptibleClassified(app.job, app.seed, app.ledger, it);
    RetainedOnRecord(app.job, app.ledger, it);
    var candidates := RecoveryCandidates(it.effects);
    if candidates == [] || !RecoverySelected(app.job.control) {
      r := SealWithoutRecovery(app, it);
    } else {
      r := UndoFirst(app, it, candidates);
    }
  }

  lemma RecoverUntouched(app: Application)
    requires app.Alive() && RecoverIdle(app.ledger)
    ensures Untouched(app.ledger, {RecoverActiveObject})
  {
    SoundMeans(app.job, app.seed, app.ledger, app.backend.trace);
    forall key: Key | key.kind == RecoverActiveObject ensures At(app.ledger, key).Idle? {
      if key in app.ledger.slots {
        assert JobDeclares(app.job, key);
        assert Recorded(app.ledger, RecoverActiveObject, key.path.value).None?;
      }
    }
  }
}
