/** Journals whose plan keeps the engine from sealing what it did.

    The conditions of module Completion under which a seal, the evidence or a
    receipt is refused are met by runs of small jobs: each lemma follows the
    steps of one, call by call, and applies the exact condition there.
 */
module PlanCorners {
  import opened Wrappers
  import opened Paths
  import opened Plans
  import opened Schedule
  import opened Journal
  import opened Record
  import opened History
  import opened Ledgers
  import opened Jobs
  import opened Protocol
  import opened Receipts
  import opened Backend
  import opened Applications
  import opened Phases
  import opened Preparation
  import opened Publication
  import opened Execution
  import opened Recovery
  import opened Completion
  import opened Apply
  import opened Restart
  import opened ResumePreparation
  import opened Runs
  import opened Corners

  // ---------------------------------------------------------------- jobs of one decision

  /** A job of one decision that takes no payload, without recovery. */
  function Single(d: Decision): Job {
    Job([d], Control(NoRecovery, AllDomains), [], [], [], [], if MechanismRequired(d.active) then [d.path] else [])
  }

  lemma SingleOk(d: Decision)
    requires d.rejected.NoRejected?
    ensures Plain(Single(d)) && SeedOk(Single(d), SeedOf([d])) && PlanPaths([d]) == [d.path]
  {
    var plan := [d];
    PlainLists(plan, Single(d).control);
    forall p ensures p in Single(d).active <==> MechanismPath(plan, p) {
      assert d in plan;
    }
    SeedPlanned(plan);
  }

  /** The removal of a directory if it is empty. */
  function Removal(p: Path): Decision {
    Decision(p, RemoveDirectoryIfEmpty, NoRejected, None, true)
  }

  /** Keeping an object that is not there. */
  function KeptAbsent(p: Path): Decision {
    Decision(p, RetainObserved, NoRejected, None, false)
  }

  /** What such a run hands to its completion. */
  function SingleMutated(d: Decision): MutatedAttempt {
    var job := Single(d);
    var effects := if job.active == [] then [] else [EffectResult(d.path, ConditionalRetained)];
    var durability := PreparedDurability(job).(rejected := RejectedStatus(job));
    MutatedAttempt(PublishedAttempt(PreparedAttempt([], PreparedDurability(job)), [], durability), effects, durability)
  }

  /** The ledger of a run whose only effect, if any, retained its object. */
  function SingleExecuted(d: Decision): Ledger {
    var ledger := EmptyLedger().(state := Mutating);
    if Single(d).active == [] then ledger
    else Placed(ledger, Mutating, Key(PublishActiveObject, Some(d.path)),
                Done(EventCompleted, Some(ActiveFact(d.path, ConditionalRetained))))
  }

  function SingleObserved(d: Decision): Ledger {
    Placed(SingleExecuted(d), EffectsVisible, ObserveKey(d.path), Done(EventCompleted, None)).(state := ResultObserved)
  }

  /** Nothing changed, so the active phase is over without a synchronization. */
  lemma SinglePassed(d: Decision, ledger: Ledger)
    requires ledger.slots == SingleExecuted(d).slots
    ensures ActivePassed(Single(d), ledger) && !ActiveChanged(Single(d), ledger)
    ensures RejectedBehind(Single(d), ledger) && ActiveBehind(Single(d), ledger) && RecoverIdle(ledger)
  {
    assert forall p :: Recorded(ledger, RecoverActiveObject, p).None?;
  }

  lemma ReachSingle(d: Decision, declaration: Declaration) returns (steps: seq<Step>, trace: Trace)
    requires d.rejected.NoRejected? && declaration.effects == EffectsOf(JobKeys(Single(d)))
    requires MechanismRequired(d.active) ==> d.active.RemoveDirectoryIfEmpty?
    ensures Reached(Single(d), SeedOf([d]), declaration, steps, trace) && LedgerOf(steps) == SingleExecuted(d)
  {
    hide Reached, LedgerOf, EffectsOf, JobKeys, JobOk, SeedOf;
    SingleOk(d);
    var job := Single(d);
    steps := ReachMutating(job, SeedOf([d]), declaration);
    trace := [];
    if job.active != [] {
      NothingBefore(job);
      steps, trace := ReachMechanism(job, SeedOf([d]), declaration, steps, [], PublishActiveObject, d.path, 0,
                                     ConditionalRetained, ActiveFact(d.path, ConditionalRetained));
    }
  }

  /** Its result is observed. */
  lemma ReachSingleObserved(d: Decision, declaration: Declaration) returns (steps: seq<Step>, trace: Trace)
    requires d.rejected.NoRejected? && declaration.effects == EffectsOf(JobKeys(Single(d)))
    requires MechanismRequired(d.active) ==> d.active.RemoveDirectoryIfEmpty?
    ensures Reached(Single(d), SeedOf([d]), declaration, steps, trace) && LedgerOf(steps) == SingleObserved(d)
  {
    hide Reached, LedgerOf, EffectsOf, JobKeys, JobOk, SeedOf, RejectedBehind, ActiveBehind, RecoverIdle, ActivePassed;
    var job, seed := Single(d), SeedOf([d]);
    SingleOk(d);
    var executed, calls := ReachSingle(d, declaration);
    trace := calls;
    SinglePassed(d, LedgerOf(executed));
    var visible := ReachState(job, seed, declaration, executed, calls, EffectsVisible);
    SinglePassed(d, LedgerOf(visible));
    var observed := ReachEffect(job, seed, declaration, visible, calls, ObserveKey(d.path), EventCompleted, None);
    NeutralIdle(LedgerOf(visible), EffectsVisible, ObserveKey(d.path), Done(EventCompleted, None));
    steps := ReachState(job, seed, declaration, observed, calls, ResultObserved);
  }

  // ---------------------------------------------------------------- an absent object that is kept

  /** A plan that keeps an absent object can be carried out and observed, and
      then no evidence can be made of it. */
  lemma KeptAbsentHasNoEvidence(p: Path, declaration: Declaration) returns (steps: seq<Step>, trace: Trace)
    requires declaration.effects == EffectsOf(JobKeys(Single(KeptAbsent(p))))
    ensures Reached(Single(KeptAbsent(p)), SeedOf([KeptAbsent(p)]), declaration, steps, trace)
    ensures PlanCorner(EvidenceRefused, Single(KeptAbsent(p)), LedgerOf(steps))
    ensures var job, m, seed := Single(KeptAbsent(p)), SingleMutated(KeptAbsent(p)), SeedOf([KeptAbsent(p)]);
            && Verdict(job, seed, m, 0, Gone).Matched?
            && forall projection ::
                 CompletedEvidenceOf(job, seed, projection, [CompletedConsequence(job, m, 0, Gone)],
                                     m.durability.(completed := Confirmed)).None?
  {
    hide Reached, LedgerOf, EffectsOf, JobKeys, JobOk, SeedOf;
    var d := KeptAbsent(p);
    var job, m, seed := Single(d), SingleMutated(d), SeedOf([d]);
    steps, trace := ReachSingleObserved(d, declaration);
    SingleOk(d);
    var ledger, o := LedgerOf(steps), Comparison([CompletedConsequence(job, m, 0, Gone)], false, false);
    KeptAbsentCompared(p, ledger);
    JobLists(job);
    FreshDurabilityOk(job, m.effects);
    forall projection
      ensures CompletedEvidenceOf(job, seed, projection, o.paths, m.durability.(completed := Confirmed)).None?
    {
      EvidenceAccepted(job, seed, ledger, m, [Gone], o, projection);
    }
  }

  lemma KeptAbsentCompared(p: Path, ledger: Ledger)
    requires ledger == SingleObserved(KeptAbsent(p))
    ensures var job, m, seed := Single(KeptAbsent(p)), SingleMutated(KeptAbsent(p)), SeedOf([KeptAbsent(p)]);
            && Mutated(job, ledger, m) && RetainedFits(job, m.effects) && EvidenceGap(job, m)
            && Verdict(job, seed, m, 0, Gone).Matched?
            && Compared(job, seed, ledger, m, [Gone], 1, Comparison([CompletedConsequence(job, m, 0, Gone)], false, false))
            && GapOnRecord(job, ledger)
  {
    var d := KeptAbsent(p);
    SingleOk(d);
    assert d in [d];
    assert KeepsAbsent(Single(d).plan[0], OutcomeOf(SingleMutated(d).effects, p));
    assert KeepsAbsent(Single(d).plan[0], Recorded(ledger, PublishActiveObject, p));
  }

  // ---------------------------------------------------------------- a directory that is retained

  /** The evidence of a retained directory. */
  function RemovalEvidence(p: Path, projection: nat): CompletedEvidence {
    CompletedEvidence(projection, [Consequence(p, Some(ConditionalRetained), None, Observed(true), true)],
                      SingleMutated(Removal(p)).durability.(completed := Confirmed))
  }

  lemma RemovalEvidenceRight(p: Path, projection: nat, ledger: Ledger)
    requires Recorded(ledger, PublishActiveObject, p) == Some(ConditionalRetained) && Recorded(ledger, PublishRejectedObject, p).None?
    ensures EvidenceRight(Single(Removal(p)), SeedOf([Removal(p)]), ledger, RemovalEvidence(p, projection))
  {
    var d := Removal(p);
    SingleOk(d);
    assert d in [d];
    FreshDurabilityOk(Single(d), SingleMutated(d).effects);
    assert EvidencePath(Single(d), SeedOf([d]), ledger, 0) == RemovalEvidence(p, projection).paths[0];
  }

  function RemovalPublished(p: Path, projection: nat): Ledger {
    Placed(Placed(SingleObserved(Removal(p)), ResultObserved, EvidenceKey(),
                  Done(EventCompleted, Some(EvidenceFact(RemovalEvidence(p, projection))))),
           ResultObserved, EvidenceSync(),
           Done(EventCompleted, Some(SynchronizationFact(CompletedEvidenceDomain, Confirmed))))
  }

  lemma ReachRemovalPublished(p: Path, projection: nat, declaration: Declaration) returns (steps: seq<Step>, trace: Trace)
    requires declaration.effects == EffectsOf(JobKeys(Single(Removal(p))))
    ensures Reached(Single(Removal(p)), SeedOf([Removal(p)]), declaration, steps, trace)
    ensures LedgerOf(steps) == RemovalPublished(p, projection)
  {
    hide Reached, LedgerOf, EffectsOf, JobKeys, JobOk, SeedOf, EvidenceRight, RecoverIdle;
    var d := Removal(p);
    var job, seed := Single(d), SeedOf([d]);
    var observed, calls := ReachSingleObserved(d, declaration);
    trace := calls;
    var fact := EvidenceFact(RemovalEvidence(p, projection));
    RemovalEvidenceRight(p, projection, Placed(SingleObserved(d), ResultObserved, EvidenceKey(), Intended));
    ObservedIdle(d);
    var published := ReachEffect(job, seed, declaration, observed, calls, EvidenceKey(), EventCompleted, Some(fact));
    NeutralIdle(LedgerOf(observed), ResultObserved, EvidenceKey(), Done(EventCompleted, Some(fact)));
    steps := ReachEffect(job, seed, declaration, published, calls, EvidenceSync(), EventCompleted,
                         Some(SynchronizationFact(CompletedEvidenceDomain, Confirmed)));
  }

  lemma ObservedIdle(d: Decision)
    ensures RecoverIdle(SingleObserved(d))
  {
    assert forall p :: Recorded(SingleObserved(d), RecoverActiveObject, p).None?;
  }

  function RemovalSlot(p: Path, projection: nat, key: Key): Slot {
    if key == Key(PublishActiveObject, Some(p)) then Done(EventCompleted, Some(ActiveFact(p, ConditionalRetained)))
    else if key == ObserveKey(p) then Done(EventCompleted, None)
    else if key == EvidenceKey() then Done(EventCompleted, Some(EvidenceFact(RemovalEvidence(p, projection))))
    else if key == EvidenceSync() then Done(EventCompleted, Some(SynchronizationFact(CompletedEvidenceDomain, Confirmed)))
    else Idle
  }

  lemma RemovalSlots(p: Path, projection: nat)
    ensures var ledger := RemovalPublished(p, projection);
            ledger.state.ResultObserved? && ledger.receipt.None? && forall key :: At(ledger, key) == RemovalSlot(p, projection, key)
  {
  }

  lemma RemovalIsMutated(p: Path, projection: nat)
    ensures Mutated(Single(Removal(p)), RemovalPublished(p, projection), SingleMutated(Removal(p)))
    ensures RetainedFits(Single(Removal(p)), SingleMutated(Removal(p)).effects)
    ensures NeverSynchronized(Single(Removal(p)), SingleMutated(Removal(p)))
  {
    hide RemovalPublished;
    RemovalSlots(p, projection);
    var d := Removal(p);
    assert d in [d];
    assert MayRetain([d], p);
  }

  lemma RemovalIsFinished(p: Path, projection: nat, kinds: set<EffectKind>)
    requires SynchronizeActiveNamespace !in kinds && SealReceipt !in kinds && kinds !! RecoveryKinds()
    ensures Finished(Single(Removal(p)), RemovalPublished(p, projection), kinds)
  {
    hide RemovalPublished;
    RemovalSlots(p, projection);
    assert PlanPaths([Removal(p)]) == [p];
  }

  lemma RemovalIsFresh(p: Path, projection: nat)
    ensures FreshBase(Single(Removal(p)), RemovalPublished(p, projection), SingleMutated(Removal(p)))
  {
    hide RemovalPublished, Mutated, Finished, RetainedFits;
    RemovalSlots(p, projection);
    RemovalIsMutated(p, projection);
    RemovalIsFinished(p, projection, PreparationKinds() + RejectedKinds() + {PublishActiveObject});
  }

  /** A run whose only effect retains its directory has everything behind it
      but the synchronization it declared and never runs, and no success seal
      is accepted. */
  lemma RetainedIsNotSealed(p: Path, projection: nat, declaration: Declaration) returns (steps: seq<Step>, trace: Trace)
    requires declaration.effects == EffectsOf(JobKeys(Single(Removal(p))))
    ensures Reached(Single(Removal(p)), SeedOf([Removal(p)]), declaration, steps, trace)
    ensures PlanCorner(StepRefused, Single(Removal(p)), LedgerOf(steps))
    ensures forall key :: JobDeclares(Single(Removal(p)), key) && SuccessRequired(key.kind) ==>
                            (CompletedSlot(At(LedgerOf(steps), key)) <==> key !in {SealKey(), ActiveSync()})
    ensures forall receipt, evidence ::
              !SealAllowed(Single(Removal(p)), LedgerOf(steps), ApplicationCompleted, receipt, Some(evidence))
  {
    hide Reached, LedgerOf, EffectsOf, JobKeys, SeedOf, FreshBase, SealAllowed, JobDoneButSeal, RemovalPublished, Finished,
      Single, SingleMutated, NeverSynchronized;
    steps, trace := ReachRemovalPublished(p, projection, declaration);
    var job, ledger := Single(Removal(p)), LedgerOf(steps);
    RemovalIsFresh(p, projection);
    RemovalIsMutated(p, projection);
    RemovalIsFinished(p, projection, {ObserveResult, PublishCompletedEvidence, SynchronizeCompletedEvidence});
    RemovalIsUnsynchronized(p, projection);
    FreshDone(job, ledger, SingleMutated(Removal(p)));
    forall receipt, evidence ensures !SealAllowed(job, ledger, ApplicationCompleted, receipt, Some(evidence)) {
      SealDone(job, ledger, receipt, evidence);
    }
  }

  lemma RemovalIsUnsynchronized(p: Path, projection: nat)
    ensures var job, ledger := Single(Removal(p)), RemovalPublished(p, projection);
            && PlanCorner(StepRefused, job, ledger)
            && forall key :: JobDeclares(job, key) && SuccessRequired(key.kind) ==>
                               (CompletedSlot(At(ledger, key)) <==> key !in {SealKey(), ActiveSync()})
  {
    hide RemovalPublished;
    RemovalSlots(p, projection);
    assert PlanPaths([Removal(p)]) == [p];
  }

  // ---------------------------------------------------------------- a retained directory and a failed effect

  /** A job that removes one directory if it is empty and makes another. */
  function Pair(p: Path, q: Path): Job {
    Job([Removal(p), NewDirectory(q)], Control(NoRecovery, AllDomains), [], [], [], [], [p, q])
  }


  lemma PairOk(p: Path, q: Path)
    requires Less(p, q)
    ensures Plain(Pair(p, q)) && SeedOk(Pair(p, q), SeedOf(Pair(p, q).plan)) && p != q
    ensures PlanPaths(Pair(p, q).plan) == [p, q] && MayRetain(Pair(p, q).plan, p)
  {
    hide CapturesOf, RejectedPaths, SeedOf, Less;
    var plan := Pair(p, q).plan;
    PlainLists(plan, Pair(p, q).control);
    assert PlanPaths(plan) == [p, q];
    LessAntisymmetric(p, q);
    forall r ensures r in [p, q] <==> MechanismPath(plan, r) {
      assert plan[0] in plan && plan[1] in plan;
    }
    assert plan[..1] == [Removal(p)];
    SeedPlanned(plan);
  }

  /** The first effect retains its directory, the second fails. */
  function PairExecuted(p: Path, q: Path): Ledger {
    Placed(Placed(EmptyLedger().(state := Mutating), Mutating, Key(PublishActiveObject, Some(p)),
                  Done(EventCompleted, Some(ActiveFact(p, ConditionalRetained)))),
           Mutating, Key(PublishActiveObject, Some(q)), Done(EventFailed, Some(ActiveFact(q, Failed))))
  }

  function PairStopped(p: Path, q: Path): InterruptedAttempt {
    var job := Pair(p, q);
    var durability := PreparedDurability(job).(rejected := RejectedStatus(job));
    InterruptedAttempt(PublishedAttempt(PreparedAttempt([], PreparedDurability(job)), [], durability),
                       [EffectResult(p, ConditionalRetained), EffectResult(q, Failed)], EffectFailed, durability)
  }

  lemma ReachPairStopped(p: Path, q: Path, declaration: Declaration) returns (steps: seq<Step>, trace: Trace)
    requires Less(p, q) && declaration.effects == EffectsOf(JobKeys(Pair(p, q)))
    ensures Reached(Pair(p, q), SeedOf(Pair(p, q).plan), declaration, steps, trace)
    ensures LedgerOf(steps) == PairExecuted(p, q).(state := RecoveryPending)
  {
    hide Reached, LedgerOf, EffectsOf, JobKeys, JobOk, SeedOf, RecoverIdle, RejectedBehind, ActiveBehind, Less;
    var job, seed := Pair(p, q), SeedOf(Pair(p, q).plan);
    PairOk(p, q);
    var mutating := ReachMutating(job, seed, declaration);
    NothingBefore(job);
    PairTurn(p, q, LedgerOf(mutating), 0);
    var one, first := ReachMechanism(job, seed, declaration, mutating, [], PublishActiveObject, p, 0, ConditionalRetained,
                                     ActiveFact(p, ConditionalRetained));
    PlacedIdle(LedgerOf(mutating), Mutating, PublishActiveObject, p, SlotAt(LedgerOf(one), PublishActiveObject, p));
    PairTurn(p, q, LedgerOf(one), 1);
    var two, second := ReachMechanism(job, seed, declaration, one, first, PublishActiveObject, q, 1, Failed, ActiveFact(q, Failed));
    PlacedIdle(LedgerOf(one), Mutating, PublishActiveObject, q, SlotAt(LedgerOf(two), PublishActiveObject, q));
    trace := second;
    PairBehind(p, q, LedgerOf(two));
    steps := ReachState(job, seed, declaration, two, trace, RecoveryPending);
  }

  lemma PairTurn(p: Path, q: Path, ledger: Ledger, k: nat)
    requires RecoverIdle(ledger) && k < 2
    requires k == 1 ==> Recorded(ledger, PublishActiveObject, p) == Some(ConditionalRetained)
    ensures TurnOf(Pair(p, q), ledger, PublishActiveObject, [p, q][k], k)
  {
  }

  lemma PairBehind(p: Path, q: Path, ledger: Ledger)
    ensures RejectedBehind(Pair(p, q), ledger)
  {
  }

  lemma PairRecorded(p: Path, q: Path)
    requires p != q
    ensures var job, ledger, it := Pair(p, q), PairExecuted(p, q).(state := RecoveryPending), PairStopped(p, q);
            EffectsRecorded(job, ledger, it.effects) && Candidates(ledger, job.active) == [] && ledger.receipt.None?
  {
    var ledger := PairExecuted(p, q).(state := RecoveryPending);
    assert [p, q][..1] == [p] && [p][..0] == [];
    assert Candidates(ledger, [p]) == [];
  }

  lemma PairConstructible(p: Path, q: Path, ledger: Ledger)
    requires MayRetain(Pair(p, q).plan, p)
    ensures var job, it := Pair(p, q), PairStopped(p, q);
            && Constructible(job, it) && RetainedFits(job, it.effects) && SomeRetained(it.effects)
            && AllRejected(job, ledger, it.published.rejected) && AllCaptured(job, ledger, it.published.prepared.captures)
  {
    hide MayRetain;
    var it := PairStopped(p, q);
    assert it.effects[0] in it.effects;
  }

  /** Both results are on record, and nothing can be undone. */
  lemma PairInterrupted(p: Path, q: Path)
    requires Less(p, q)
    ensures var job, ledger, it := Pair(p, q), PairExecuted(p, q).(state := RecoveryPending), PairStopped(p, q);
            Interruptible(job, ledger, it) && PlanCorner(Fault.ReceiptRefused, job, ledger) && UndoList(it.effects) == []
  {
    hide Less, JobOk, EffectsRecorded, Candidates, MayRetain, PairExecuted, RetainedOnly, SomeRetained, RetainedFits,
      AllRejected, AllCaptured, InterruptionOk;
    PairOk(p, q);
    var job, ledger, it := Pair(p, q), PairExecuted(p, q).(state := RecoveryPending), PairStopped(p, q);
    PairRecorded(p, q);
    PairConstructible(p, q, ledger);
    UndoListIsCandidates(ledger, job.active, it.effects);
    RetainedOnRecord(job, ledger, it);
  }

  /** After a retained directory and a failed effect the receipt of the failure
      is refused, whatever it says about durability. */
  lemma RetainedHasNoReceipt(p: Path, q: Path, declaration: Declaration) returns (steps: seq<Step>, trace: Trace)
    requires Less(p, q) && declaration.effects == EffectsOf(JobKeys(Pair(p, q)))
    ensures Reached(Pair(p, q), SeedOf(Pair(p, q).plan), declaration, steps, trace)
    ensures PlanCorner(Fault.ReceiptRefused, Pair(p, q), LedgerOf(steps))
    ensures var job, seed, it := Pair(p, q), SeedOf(Pair(p, q).plan), PairStopped(p, q);
            var ending := EndingWithoutRecovery(EffectFailed, true);
            && Interruptible(job, LedgerOf(steps), it)
            && FailedReceipt(job.plan, ending.outcome, ending.recovery, it.durability, PathsAfter(job, seed, it, [], job.plan), true).None?
  {
    hide LedgerOf, Accepted, Sound, EffectsOf, JobKeys, JobOk, SeedOf, Less, Interruptible, FailedReceipt, PathsAfter,
      PlanCorner, Classified;
    steps, trace := ReachPairStopped(p, q, declaration);
    PairInterrupted(p, q);
    PairOk(p, q);
    PairConstructible(p, q, LedgerOf(steps));
    var job, seed, it := Pair(p, q), SeedOf(Pair(p, q).plan), PairStopped(p, q);
    InterruptibleClassified(job, seed, LedgerOf(steps), it);
    Recovery.ReceiptRefused(job, seed, LedgerOf(steps), trace, it, EndingWithoutRecovery(EffectFailed, true), it.durability, []);
  }

  // ---------------------------------------------------------------- staging twice

  /** A job of two new files. */
  function Files(p: Path, q: Path): Job {
    Job([Decision(p, ActivateIncoming, NoRejected, Some(0), false), Decision(q, ActivateIncoming, NoRejected, Some(1), false)],
        Control(NoRecovery, AllDomains), [], [0, 1], [p, q], [], [p, q])
  }


  lemma FilesOk(p: Path, q: Path)
    requires Less(p, q)
    ensures JobOk(Files(p, q)) && SeedOk(Files(p, q), SeedOf(Files(p, q).plan)) && p != q
  {
    hide CapturesOf, RejectedPaths, SeedOf, Less;
    var plan := Files(p, q).plan;
    PlainLists(plan, Files(p, q).control);
    assert PlanPaths(plan) == [p, q];
    LessAntisymmetric(p, q);
    forall r ensures r in [p, q] <==> MechanismPath(plan, r) {
      assert plan[0] in plan && plan[1] in plan;
    }
    SeedPlanned(plan);
  }

  /** Both files are intended and the first one is staged. */
  function HalfStaged(p: Path, q: Path, evidence: nat): Ledger {
    Placed(Placed(Placed(EmptyLedger(), Preparing, StageKey(p), Intended), Preparing, StageKey(q), Intended),
           Preparing, StageKey(p), Done(EventCompleted, Some(StageFact(Completed, evidence))))
  }

  lemma ReachHalfStaged(p: Path, q: Path, evidence: nat, declaration: Declaration) returns (steps: seq<Step>)
    requires Less(p, q) && declaration.effects == EffectsOf(JobKeys(Files(p, q)))
    ensures Reached(Files(p, q), SeedOf(Files(p, q).plan), declaration, steps, []) && LedgerOf(steps) == HalfStaged(p, q, evidence)
    ensures RecoverIdle(LedgerOf(steps)) && StagesAgree(LedgerOf(steps))
  {
    hide Reached, LedgerOf, Sound, EffectsOf, JobKeys, JobOk, SeedOf, RecoverIdle, Less, StagesAgree;
    var job, seed := Files(p, q), SeedOf(Files(p, q).plan);
    FilesOk(p, q);
    ReachNothing(job, seed, declaration);
    var fact := Some(StageFact(Completed, evidence));
    StagingIdle(p, q, evidence);
    var one := ReachEvent(job, seed, declaration, [], [], Move(StageKey(p), Intent, None));
    var two := ReachEvent(job, seed, declaration, one, [], Move(StageKey(q), Intent, None));
    steps := ReachEvent(job, seed, declaration, two, [], Move(StageKey(p), EventCompleted, fact));
  }

  lemma StagingIdle(p: Path, q: Path, evidence: nat)
    ensures RecoverIdle(EmptyLedger()) && RecoverIdle(HalfStaged(p, q, evidence)) && StagesAgree(HalfStaged(p, q, evidence))
    ensures var one := Placed(EmptyLedger(), Preparing, StageKey(p), Intended);
            RecoverIdle(one) && RecoverIdle(Placed(one, Preparing, StageKey(q), Intended))
  {
    assert forall ledger: Ledger, r :: SlotAt(ledger, RecoverActiveObject, r).Idle? ==> Recorded(ledger, RecoverActiveObject, r).None?;
  }

  /** A run that died between staging two files can be taken up; where the
      files are staged again with other evidence, the attempt is stranded. */
  lemma StagedTwice(p: Path, q: Path, before: nat, again: nat, declaration: Declaration)
    returns (steps: seq<Step>, restaged: seq<Step>)
    requires Less(p, q) && before != again && declaration.effects == EffectsOf(JobKeys(Files(p, q)))
    ensures Reached(Files(p, q), SeedOf(Files(p, q).plan), declaration, steps, [])
    ensures LedgerOf(steps) == HalfStaged(p, q, before) && !NotTakenUp(LedgerOf(steps)) && !Stranded(Files(p, q), LedgerOf(steps))
    ensures Reached(Files(p, q), SeedOf(Files(p, q).plan), declaration, restaged, []) && Stranded(Files(p, q), LedgerOf(restaged))
    ensures LedgerOf(restaged) == Placed(LedgerOf(steps), Preparing, StageKey(q),
                                         Done(EventCompleted, Some(StageFact(Completed, again))))
  {
    hide Reached, Sound, LedgerOf, EffectsOf, JobKeys, JobOk, SeedOf, Less, StagesAgree, RecoverIdle, HalfStaged;
    steps := ReachHalfStaged(p, q, before, declaration);
    FilesOk(p, q);
    HalfStagedSlots(p, q, before);
    ReachedSound(Files(p, q), SeedOf(Files(p, q).plan), declaration, steps, []);
    RestagingMayConflict(Files(p, q), SeedOf(Files(p, q).plan), LedgerOf(steps), [], p, q, before, again);
    restaged := ReachEvent(Files(p, q), SeedOf(Files(p, q).plan), declaration, steps, [],
                           Move(StageKey(q), EventCompleted, Some(StageFact(Completed, again))));
  }

  lemma HalfStagedSlots(p: Path, q: Path, evidence: nat)
    requires p != q
    ensures var ledger := HalfStaged(p, q, evidence);
            && At(ledger, StageKey(p)) == Done(EventCompleted, Some(StageFact(Completed, evidence)))
            && At(ledger, StageKey(q)).Intended? && ledger.state.Preparing? && ledger.receipt.None? && ledger.completed.None?
  {
  }

  lemma ReachedSound(job: Job, seed: Seed, declaration: Declaration, steps: seq<Step>, trace: Trace)
    requires Reached(job, seed, declaration, steps, trace)
    ensures Sound(job, seed, LedgerOf(steps), trace)
  {
  }
}
