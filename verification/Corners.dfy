/** Journals at which a restart cannot do what it is meant to.

    Each lemma follows the steps of a run, call by call, to a journal that the
    history accepts and on which the invariant holds.  They exist for every
    pair of paths.  Some attempts can then never be ended, some only undone,
    and some never be reported as completed.
 */
module Corners {
  import opened Wrappers
  import opened Paths
  import opened Plans
  import opened Schedule
  import opened Journal
  import opened Record
  import opened History
  import opened Ledgers
  import opened Jobs
  import opened Protocol
  import opened Receipts
  import opened Backend
  import opened Applications
  import opened Restart
  import opened Phases
  import opened Execution
  import opened Completion
  import opened Apply
  import opened ResumeExecution
  import opened ResumeCompletion
  import opened Runs

  // ---------------------------------------------------------------- following a run

  /** The journal and the calls are those of a run without a receipt. */
  ghost predicate Reached(job: Job, seed: Seed, declaration: Declaration, steps: seq<Step>, trace: Trace) {
    && declaration.effects == EffectsOf(JobKeys(job)) && Accepted(declaration, steps)
    && Sound(job, seed, LedgerOf(steps), trace)
    && LedgerOf(steps).receipt.None? && LedgerOf(steps).completed.None?
  }

  /** One more step. */
  lemma ReachEntry(job: Job, seed: Seed, declaration: Declaration, steps: seq<Step>, trace: Trace, state: State, move: Option<Move>)
    returns (after: seq<Step>)
    requires Reached(job, seed, declaration, steps, trace)
    requires var entry := Entry(state, move, None, None);
             && Allows(declaration.effects, LedgerOf(steps), entry)
             && Sound(job, seed, Enter(LedgerOf(steps), entry), trace)
    ensures Reached(job, seed, declaration, after, trace)
    ensures LedgerOf(after) == Enter(LedgerOf(steps), Entry(state, move, None, None))
  {
    hide Replay, JobKeys, EffectsOf, Resolves;
    SoundMeans(job, seed, LedgerOf(steps), trace);
    DeclarationLookups(job, declaration);
    var event: Option<Event> := None;
    if move.Some? {
      var i :| 0 <= i < |declaration.effects| && KeyOf(declaration.effects[i]) == move.value.key;
      event := Some(Event(|EventsOf(steps)|, move.value.kind, declaration.effects[i]));
    }
    var step := Step(declaration, |steps|, LastOf(steps), state, event, if move.Some? then move.value.fact else None, None, None);
    assert EntryOf(step) == Entry(state, move, None, None);
    AdmissibleIsAllowed(declaration, steps, step);
    AcceptedAppend(declaration, steps, step);
    LedgerAppend(steps, step);
    after := steps + [step];
  }

  /** A state change. */
  lemma ReachState(job: Job, seed: Seed, declaration: Declaration, steps: seq<Step>, trace: Trace, state: State)
    returns (after: seq<Step>)
    requires Reached(job, seed, declaration, steps, trace)
    requires StateMayFollow(LedgerOf(steps).state, state) && !Successful(state) && !state.Recovered?
    requires state.Prepared? ==> Finished(job, LedgerOf(steps), PreparationKinds())
    requires RecoverIdle(LedgerOf(steps)) || state.Recovering?
    requires Reaches(job, LedgerOf(steps), state)
    ensures Reached(job, seed, declaration, after, trace) && LedgerOf(after) == LedgerOf(steps).(state := state)
  {
    var entry := Entry(state, None, None, None);
    FinishedSame(job, LedgerOf(steps), Enter(LedgerOf(steps), entry));
    SoundNeutral(job, seed, LedgerOf(steps), trace, entry);
    after := ReachEntry(job, seed, declaration, steps, trace, state, None);
  }

  /** Intent and terminal event of an effect that is neither a capture nor a
      mechanism, in the state the run is in. */
  lemma ReachEffect(job: Job, seed: Seed, declaration: Declaration, steps: seq<Step>, trace: Trace, key: Key,
                    terminal: EventKind, fact: Option<Fact>) returns (after: seq<Step>)
    requires Reached(job, seed, declaration, steps, trace)
    requires Neutral(key.kind) && JobDeclares(job, key) && At(LedgerOf(steps), key).Idle? && Due(job, LedgerOf(steps), key)
    requires key != SealKey()
    requires EvidenceFits(job, seed, Placed(LedgerOf(steps), LedgerOf(steps).state, key, Intended), Move(key, terminal, fact))
    requires !terminal.Intent? && SlotFits(job, key, terminal, fact)
    requires var state := LedgerOf(steps).state;
             && (RecoverIdle(LedgerOf(steps)) || state.Recovering?) && (key == RecoveredSync() ==> state.Recovering?)
             && !Successful(state) && !state.Recovered?
    ensures Reached(job, seed, declaration, after, trace)
    ensures LedgerOf(after) == Placed(LedgerOf(steps), LedgerOf(steps).state, key, Done(terminal, fact))
  {
    var state := LedgerOf(steps).state;
    var intended := ReachEvent(job, seed, declaration, steps, trace, Move(key, Intent, None));
    DueKept(job, LedgerOf(steps), key);
    NeutralIdle(LedgerOf(steps), state, key, Intended);
    after := ReachEvent(job, seed, declaration, intended, trace, Move(key, terminal, fact));
    PlacedTwice(LedgerOf(steps), state, key, Done(terminal, fact));
  }

  lemma DueKept(job: Job, ledger: Ledger, key: Key)
    requires Due(job, ledger, key) && Neutral(key.kind)
    ensures Due(job, Placed(ledger, ledger.state, key, Intended), key)
  {
    var next := Placed(ledger, ledger.state, key, Intended);
    assert forall kind, q :: Mechanism(kind) ==> SlotAt(next, kind, q) == SlotAt(ledger, kind, q);
    assert forall q :: Recorded(next, PublishRejectedObject, q) == Recorded(ledger, PublishRejectedObject, q);
    assert forall q :: Recorded(next, PublishActiveObject, q) == Recorded(ledger, PublishActiveObject, q);
    assert forall q :: Recorded(next, RecoverActiveObject, q) == Recorded(ledger, RecoverActiveObject, q);
    CandidatesSame(ledger, next, job.active);
  }

  lemma ReachEvent(job: Job, seed: Seed, declaration: Declaration, steps: seq<Step>, trace: Trace, move: Move)
    returns (after: seq<Step>)
    requires Reached(job, seed, declaration, steps, trace)
    requires Neutral(move.key.kind) && JobDeclares(job, move.key) && MoveAllowed(LedgerOf(steps), move)
    requires MoveFits(job, LedgerOf(steps), move) && EvidenceFits(job, seed, LedgerOf(steps), move)
    requires var state := LedgerOf(steps).state;
             && (RecoverIdle(LedgerOf(steps)) || state.Recovering?) && (move.key == RecoveredSync() ==> state.Recovering?)
             && !Successful(state) && !state.Recovered?
    ensures Reached(job, seed, declaration, after, trace)
    ensures LedgerOf(after) == Placed(LedgerOf(steps), LedgerOf(steps).state, move.key, SlotAfter(move))
  {
    var ledger := LedgerOf(steps);
    NeutralIdle(ledger, ledger.state, move.key, SlotAfter(move));
    SoundMeans(job, seed, ledger, trace);
    JobDeclared(job, move.key);
    FitsIsAllowed(job, ledger, declaration.effects, ledger.state, move);
    SoundNeutral(job, seed, ledger, trace, Entry(ledger.state, Some(move), None, None));
    after := ReachEntry(job, seed, declaration, steps, trace, ledger.state, Some(move));
  }

  /** Intent, call and terminal event of an active effect or a recovery whose
      turn it is. */
  lemma ReachMechanism(job: Job, seed: Seed, declaration: Declaration, steps: seq<Step>, trace: Trace, kind: EffectKind, p: Path,
                       k: nat, outcome: Outcome, fact: Fact) returns (after: seq<Step>, calls: Trace)
    requires Reached(job, seed, declaration, steps, trace) && (kind.PublishActiveObject? || kind.RecoverActiveObject?)
    requires TurnOf(job, LedgerOf(steps), kind, p, k) && SlotAt(LedgerOf(steps), kind, p).Idle? && p in job.active
    requires RunsIn(kind, LedgerOf(steps).state)
    requires SlotFits(job, Key(kind, Some(p)), TerminalOf(outcome), Some(fact)) && FactOutcome(fact) == outcome
    ensures Reached(job, seed, declaration, after, calls)
    ensures LedgerOf(after) == Placed(LedgerOf(steps), LedgerOf(steps).state, Key(kind, Some(p)), Done(TerminalOf(outcome), Some(fact)))
  {
    var ledger := LedgerOf(steps);
    var state := ledger.state;
    SoundUncalled(job, seed, ledger, trace, kind, p);
    TurnIntended(job, ledger, state, kind, p, k);
    var intended := ReachTurn(job, seed, declaration, steps, trace, kind, p, k, Move(Key(kind, Some(p)), Intent, None));
    var call := Call(kind, p, outcome, false, |intended|);
    calls := trace + [call];
    assert Called(trace, calls, kind, p, |intended|);
    MechanismCalled(job, seed, LedgerOf(intended), trace, calls, kind, p, k);
    after := ReachTurn(job, seed, declaration, intended, calls, kind, p, k,
                       Move(Key(kind, Some(p)), TerminalOf(outcome), Some(fact)));
    PlacedTwice(ledger, state, Key(kind, Some(p)), Done(TerminalOf(outcome), Some(fact)));
  }

  lemma ReachTurn(job: Job, seed: Seed, declaration: Declaration, steps: seq<Step>, trace: Trace, kind: EffectKind, p: Path,
                  k: nat, move: Move) returns (after: seq<Step>)
    requires Reached(job, seed, declaration, steps, trace) && (kind.PublishActiveObject? || kind.RecoverActiveObject?)
    requires TurnOf(job, LedgerOf(steps), kind, p, k) && p in job.active && RunsIn(kind, LedgerOf(steps).state)
    requires move.key == Key(kind, Some(p)) && MoveAllowed(LedgerOf(steps), move)
    requires !move.kind.Intent? ==> move.fact.Some? && SlotFits(job, move.key, move.kind, move.fact)
                                    && LatestCall(trace, kind, p, FactOutcome(move.fact.value))
    ensures Reached(job, seed, declaration, after, trace)
    ensures LedgerOf(after) == Placed(LedgerOf(steps), LedgerOf(steps).state, move.key, SlotAfter(move))
  {
    hide Inv, EffectsOf, JobKeys, Accepted, CallPaths, Candidates, LedgerOf;
    var ledger := LedgerOf(steps);
    TurnBeforeRecovered(job, seed, ledger, trace, kind, k);
    KeepMechanism(job, seed, ledger, trace, Entry(ledger.state, Some(move), None, None), kind, k);
    JobDeclared(job, move.key);
    FitsIsAllowed(job, ledger, declaration.effects, ledger.state, move);
    after := ReachEntry(job, seed, declaration, steps, trace, ledger.state, Some(move));
  }

  // ---------------------------------------------------------------- a bare job

  /** A job with nothing to capture, to stage or to reject. */
  ghost predicate Plain(job: Job) {
    JobOk(job) && job.captures == [] && job.selection == [] && job.stages == [] && job.rejected == []
  }

  /** A job of two active effects on new paths: nothing to capture, to stage or
      to reject, everything to be made durable, and recovery selected. */
  ghost predicate Bare(job: Job, a: Path, b: Path) {
    && Plain(job) && a != b && job.active == [a, b] && PlanPaths(job.plan) == [a, b]
    && job.control == Control(ExactPriorState, AllDomains)
  }

  function NewDirectory(p: Path): Decision {
    Decision(p, ActivateIncoming, NoRejected, Some(0), false)
  }

  function BareJob(a: Path, b: Path): Job {
    Job([NewDirectory(a), NewDirectory(b)], Control(ExactPriorState, AllDomains), [], [], [], [], [a, b])
  }

  /** A plan that neither captures nor rejects anything. */
  lemma {:induction false} PlainLists(plan: Plan, control: Control)
    requires forall d :: d in plan ==> d.rejected.NoRejected? && !NeedsCapture(d, control)
    ensures CapturesOf(plan, control) == [] && RejectedPaths(plan) == []
  {
    if plan != [] {
      assert plan[|plan| - 1] in plan;
      PlainLists(plan[..|plan| - 1], control);
    }
  }

  /** There is such a job for any two paths. */
  lemma BareExists(a: Path, b: Path)
    requires Less(a, b)
    ensures Bare(BareJob(a, b), a, b) && SeedOk(BareJob(a, b), SeedOf(BareJob(a, b).plan))
  {
    hide CapturesOf, RejectedPaths, SeedOf, Less;
    var plan := BareJob(a, b).plan;
    PlainLists(plan, BareJob(a, b).control);
    assert PlanPaths(plan) == [a, b];
    LessAntisymmetric(a, b);
    forall p ensures p in [a, b] <==> MechanismPath(plan, p) {
      assert plan[0] in plan && plan[1] in plan;
    }
    SeedPlanned(plan);
  }

  /** Before the first step. */
  lemma ReachNothing(job: Job, seed: Seed, declaration: Declaration)
    requires JobOk(job) && SeedOk(job, seed) && declaration.effects == EffectsOf(JobKeys(job))
    ensures Reached(job, seed, declaration, [], []) && LedgerOf([]) == EmptyLedger()
  {
    NothingSound(job, seed);
    DeclarationLookups(job, declaration);
  }

  /** What a plain run reaches first: its active phase. */
  lemma ReachMutating(job: Job, seed: Seed, declaration: Declaration) returns (steps: seq<Step>)
    requires Plain(job) && SeedOk(job, seed) && declaration.effects == EffectsOf(JobKeys(job))
    ensures Reached(job, seed, declaration, steps, []) && LedgerOf(steps) == EmptyLedger().(state := Mutating)
  {
    NothingBefore(job);
    ReachNothing(job, seed, declaration);
    var prepared := ReachState(job, seed, declaration, [], [], Prepared);
    steps := ReachState(job, seed, declaration, prepared, [], Mutating);
  }

  lemma NothingBefore(job: Job)
    requires job.captures == [] && job.selection == [] && job.stages == []
    ensures forall state :: Finished(job, EmptyLedger().(state := state), PreparationKinds())
    ensures forall state :: RecoverIdle(EmptyLedger().(state := state))
  {
    assert CapturePaths(job.captures) == [];
    assert forall state, kind, p :: SlotAt(EmptyLedger().(state := state), kind, p).Idle?;
  }

  function ActiveDone(ledger: Ledger, p: Path, outcome: Outcome): Ledger {
    Placed(ledger, ledger.state, Key(PublishActiveObject, Some(p)), Done(TerminalOf(outcome), Some(ActiveFact(p, outcome))))
  }

  /** The ledger after both effects. */
  function Executed(a: Path, b: Path, second: Outcome): Ledger {
    ActiveDone(ActiveDone(EmptyLedger().(state := Mutating), a, Completed), b, second)
  }

  /** The first effect completes, the second ends in any way. */
  lemma ReachExecuted(job: Job, seed: Seed, declaration: Declaration, a: Path, b: Path, second: Outcome)
    returns (steps: seq<Step>, trace: Trace)
    requires Bare(job, a, b) && SeedOk(job, seed) && declaration.effects == EffectsOf(JobKeys(job))
    ensures Reached(job, seed, declaration, steps, trace) && LedgerOf(steps) == Executed(a, b, second)
    ensures RecoverIdle(LedgerOf(steps)) && RejectedBehind(job, LedgerOf(steps))
  {
    hide Reached, Sound, LedgerOf, EffectsOf, JobKeys, JobOk;
    var mutating := ReachMutating(job, seed, declaration);
    NothingBefore(job);
    ActiveTurn(job, LedgerOf(mutating), a, b, 0);
    var one, first := ReachMechanism(job, seed, declaration, mutating, [], PublishActiveObject, a, 0, Completed, ActiveFact(a, Completed));
    PlacedIdle(LedgerOf(mutating), Mutating, PublishActiveObject, a, SlotAt(LedgerOf(one), PublishActiveObject, a));
    ActiveTurn(job, LedgerOf(one), a, b, 1);
    steps, trace := ReachMechanism(job, seed, declaration, one, first, PublishActiveObject, b, 1, second, ActiveFact(b, second));
    PlacedIdle(LedgerOf(one), Mutating, PublishActiveObject, b, SlotAt(LedgerOf(steps), PublishActiveObject, b));
  }

  lemma ActiveTurn(job: Job, ledger: Ledger, a: Path, b: Path, k: nat)
    requires Bare(job, a, b) && RecoverIdle(ledger) && k < 2
    requires k == 1 ==> Recorded(ledger, PublishActiveObject, a) == Some(Completed)
    ensures TurnOf(job, ledger, PublishActiveObject, [a, b][k], k)
  {
  }

  // ---------------------------------------------------------------- interruptions that cannot be rebuilt

  /** The second effect failed and the first is being undone. */
  lemma ReachRecovering(job: Job, seed: Seed, declaration: Declaration, a: Path, b: Path, undone: Outcome)
    returns (steps: seq<Step>, trace: Trace)
    requires Bare(job, a, b) && SeedOk(job, seed) && declaration.effects == EffectsOf(JobKeys(job))
    requires undone.Completed? || undone.Indeterminate?
    ensures Reached(job, seed, declaration, steps, trace)
    ensures LedgerOf(steps) ==
            Placed(Executed(a, b, Failed).(state := Recovering), Recovering, Key(RecoverActiveObject, Some(a)),
                   Done(TerminalOf(undone), Some(RecoveryFact(a, undone))))
    ensures Candidates(LedgerOf(steps), job.active) == [a]
  {
    hide Reached, Sound, LedgerOf, EffectsOf, JobKeys, JobOk, SeedOk, RejectedBehind, ActiveBehind, Finished,
      RecoverIdle;
    var executed, calls := ReachExecuted(job, seed, declaration, a, b, Failed);
    var pending := ReachState(job, seed, declaration, executed, calls, RecoveryPending);
    FinishedSame(job, LedgerOf(executed), LedgerOf(pending));
    var recovering := ReachState(job, seed, declaration, pending, calls, Recovering);
    OneCandidate(job, LedgerOf(recovering), a, b);
    steps, trace := ReachMechanism(job, seed, declaration, recovering, calls, RecoverActiveObject, a, 0, undone, RecoveryFact(a, undone));
    OneCandidate(job, LedgerOf(steps), a, b);
  }

  lemma OneCandidate(job: Job, ledger: Ledger, a: Path, b: Path)
    requires Bare(job, a, b)
    requires Recorded(ledger, PublishActiveObject, a) == Some(Completed) && Recorded(ledger, PublishActiveObject, b) == Some(Failed)
    ensures Candidates(ledger, job.active) == [a]
  {
    assert [a, b][..1] == [a] && [a][..0] == [];
    assert Candidates(ledger, [a]) == [a];
  }

  /** Every restart takes the attempt up and none can finish it: stranded, it
      stays stranded (`Runs.ResumeRepeatedly`). */
  ghost predicate NeverRestarts(job: Job, seed: Seed, declaration: Declaration, steps: seq<Step>, trace: Trace) {
    && Reached(job, seed, declaration, steps, trace)
    && !NotTakenUp(LedgerOf(steps)) && Stranded(job, LedgerOf(steps))
  }

  /** A run that died after an uncertain recovery of a failed attempt can never
      be restarted. */
  lemma UncertainRecovery(job: Job, seed: Seed, declaration: Declaration, a: Path, b: Path) returns (steps: seq<Step>, trace: Trace)
    requires Bare(job, a, b) && SeedOk(job, seed) && declaration.effects == EffectsOf(JobKeys(job))
    ensures NeverRestarts(job, seed, declaration, steps, trace) && LedgerOf(steps).state.Recovering?
    ensures Recorded(LedgerOf(steps), PublishActiveObject, b) == Some(Failed)
    ensures Recorded(LedgerOf(steps), RecoverActiveObject, a) == Some(Indeterminate)
  {
    hide Reached, Sound, LedgerOf, EffectsOf, JobKeys, JobOk, FoundIn, SomeActive;
    steps, trace := ReachRecovering(job, seed, declaration, a, b, Indeterminate);
    FailedFound(job, LedgerOf(steps), a, b);
  }

  lemma FailedFound(job: Job, ledger: Ledger, a: Path, b: Path)
    requires Bare(job, a, b) && Recorded(ledger, PublishActiveObject, b) == Some(Failed)
    ensures FoundIn(job, ledger) == Some(Found(EffectFailed, ledger.durability.active))
  {
    assert b in job.active;
  }

  /** A run that died after a failed attempt was undone and the recovered
      namespace confirmed, but not sealed, can never be restarted. */
  lemma ConfirmedRecovery(job: Job, seed: Seed, declaration: Declaration, a: Path, b: Path) returns (steps: seq<Step>, trace: Trace)
    requires Bare(job, a, b) && SeedOk(job, seed) && declaration.effects == EffectsOf(JobKeys(job))
    ensures NeverRestarts(job, seed, declaration, steps, trace) && LedgerOf(steps).state.Recovering?
    ensures Recorded(LedgerOf(steps), RecoverActiveObject, a) == Some(Completed)
    ensures Recorded(LedgerOf(steps), PublishActiveObject, b) == Some(Failed) && RecoveredConfirmed(LedgerOf(steps))
  {
    hide Reached, Sound, LedgerOf, EffectsOf, JobKeys, JobOk, SeedOk, RejectedBehind, ActiveBehind, FoundIn,
      SomeActive, Candidates;
    var undone, calls := ReachRecovering(job, seed, declaration, a, b, Completed);
    trace := calls;
    assert AllRecovered(LedgerOf(undone), Candidates(LedgerOf(undone), job.active));
    steps := ReachEffect(job, seed, declaration, undone, calls, RecoveredSync(), EventCompleted,
                         Some(SynchronizationFact(ActiveNamespace, Confirmed)));
    FailedFound(job, LedgerOf(steps), a, b);
  }

  // ---------------------------------------------------------------- a synchronization that is merely visible

  /** A run that died after the active namespace was reported merely visible
      balks: the first restart throws and hands it to recovery, and only the
      second one ends (`Runs.ResumeBalked`). */
  lemma VisibleSynchronization(job: Job, seed: Seed, declaration: Declaration, a: Path, b: Path)
    returns (steps: seq<Step>, trace: Trace)
    requires Bare(job, a, b) && SeedOk(job, seed) && declaration.effects == EffectsOf(JobKeys(job))
    ensures Reached(job, seed, declaration, steps, trace) && !NotTakenUp(LedgerOf(steps)) && Balked(job, LedgerOf(steps))
    ensures LedgerOf(steps).state.Mutating? && !RestartRefused(job, LedgerOf(steps))
  {
    hide Reached, Sound, LedgerOf, EffectsOf, JobKeys, JobOk;
    steps, trace := ReachSynchronized(job, seed, declaration, a, b, Visible);
    assert a in job.active;
  }

  lemma ReachSynchronized(job: Job, seed: Seed, declaration: Declaration, a: Path, b: Path, status: Status)
    returns (steps: seq<Step>, trace: Trace)
    requires Bare(job, a, b) && SeedOk(job, seed) && declaration.effects == EffectsOf(JobKeys(job)) && !status.NotAttempted?
    ensures Reached(job, seed, declaration, steps, trace) && RecoverIdle(LedgerOf(steps))
    ensures RejectedBehind(job, LedgerOf(steps)) && ActivePassed(job, LedgerOf(steps))
    ensures LedgerOf(steps) == Placed(Executed(a, b, Completed), Mutating, ActiveSync(),
                                      Done(StatusTerminal(status), Some(SynchronizationFact(ActiveNamespace, status))))
  {
    hide Reached, Sound, LedgerOf, EffectsOf, JobKeys, JobOk;
    var executed, calls := ReachExecuted(job, seed, declaration, a, b, Completed);
    trace := calls;
    steps := ReachEffect(job, seed, declaration, executed, calls, ActiveSync(), StatusTerminal(status),
                         Some(SynchronizationFact(ActiveNamespace, status)));
    NeutralIdle(LedgerOf(executed), Mutating, ActiveSync(), At(LedgerOf(steps), ActiveSync()));
  }

  // ---------------------------------------------------------------- evidence that was not published

  /** A journal of the attempt, whatever happened to it. */
  ghost predicate Continues(job: Job, seed: Seed, declaration: Declaration, steps: seq<Step>, trace: Trace) {
    && declaration.effects == EffectsOf(JobKeys(job)) && Accepted(declaration, steps)
    && Sound(job, seed, LedgerOf(steps), trace)
  }

  /** However the attempt goes on, it is not reported as completed. */
  ghost predicate NeverSucceeds(job: Job, seed: Seed, declaration: Declaration, steps: seq<Step>) {
    forall later: seq<Step>, trace: Trace ::
      Continues(job, seed, declaration, later, trace) && steps <= later && ReceiptAfter(later).Some? ==>
        !ReceiptAfter(later).value.outcome.AttemptCompleted?
  }

  lemma FallenNeverSucceeds(job: Job, seed: Seed, declaration: Declaration, steps: seq<Step>)
    requires Fallen(LedgerOf(steps))
    ensures NeverSucceeds(job, seed, declaration, steps)
  {
    hide JobKeys, EffectsOf, Accepted, LedgerOf, Fallen;
    forall later: seq<Step>, trace: Trace |
      Continues(job, seed, declaration, later, trace) && steps <= later && ReceiptAfter(later).Some?
      ensures !ReceiptAfter(later).value.outcome.AttemptCompleted?
    {
      SoundMeans(job, seed, LedgerOf(later), trace);
      DeclarationLookups(job, declaration);
      NeverCompletes(job, seed, declaration, steps, later, trace);
    }
  }

  lemma NothingStaged(before: Ledger, after: Ledger, key: Key)
    requires forall k: Key :: k.kind.StageIncomingPayload? ==> At(before, k).Idle?
    requires OnlyChanged(before, after, {key.kind}) && !key.kind.StageIncomingPayload?
    ensures StagesAgree(after)
  {
  }

  /** A run that died after it failed to publish the evidence of an attempt
      that went through can never be completed: a restart throws where the
      results still match, and undoes the attempt where they do not
      (`ResumeCompletion.ResumeComplete`, `Runs.PastActiveEnds`). */
  lemma UnpublishedEvidence(job: Job, seed: Seed, declaration: Declaration, a: Path, b: Path)
    returns (steps: seq<Step>, trace: Trace)
    requires Bare(job, a, b) && SeedOk(job, seed) && declaration.effects == EffectsOf(JobKeys(job))
    ensures Reached(job, seed, declaration, steps, trace)
    ensures LedgerOf(steps).state.ResultObserved? && !ToRecover(job, LedgerOf(steps))
    ensures Finished(job, LedgerOf(steps), {ObserveResult}) && FailedPublication(LedgerOf(steps))
    ensures !NotTakenUp(LedgerOf(steps)) && NeverSucceeds(job, seed, declaration, steps)
  {
    hide Reached, Sound, LedgerOf, EffectsOf, JobKeys, JobOk, SeedOk, SomeUnfinished, Executed, NeverSucceeds, Finished,
      StagesAgree, RecoverIdle;
    var observed: seq<Step>;
    observed, trace := ReachObserved(job, seed, declaration, a, b);
    steps := ReachEffect(job, seed, declaration, observed, trace, EvidenceKey(), EventFailed, None);
    var before, after := LedgerOf(observed), LedgerOf(steps);
    NothingStaged(before, after, EvidenceKey());
    UnchangedKinds(job, before, after, {PublishCompletedEvidence}, {ObserveResult});
    ReachedOpen(job, seed, declaration, steps, trace);
    FallenAt(after, EvidenceKey());
    FallenNeverSucceeds(job, seed, declaration, steps);
  }

  lemma ReachVisible(job: Job, seed: Seed, declaration: Declaration, a: Path, b: Path) returns (steps: seq<Step>, trace: Trace)
    requires Bare(job, a, b) && SeedOk(job, seed) && declaration.effects == EffectsOf(JobKeys(job))
    ensures Reached(job, seed, declaration, steps, trace) && RecoverIdle(LedgerOf(steps))
    ensures LedgerOf(steps) == Placed(Executed(a, b, Completed), EffectsVisible, ActiveSync(),
                                      Done(EventCompleted, Some(SynchronizationFact(ActiveNamespace, Confirmed))))
  {
    hide Reached, Sound, LedgerOf, EffectsOf, JobKeys, JobOk, RejectedBehind, ActivePassed;
    var synchronized, calls := ReachSynchronized(job, seed, declaration, a, b, Confirmed);
    trace := calls;
    steps := ReachState(job, seed, declaration, synchronized, calls, EffectsVisible);
    FinishedSame(job, LedgerOf(synchronized), LedgerOf(steps));
  }

  lemma ReachObserved(job: Job, seed: Seed, declaration: Declaration, a: Path, b: Path) returns (steps: seq<Step>, trace: Trace)
    requires Bare(job, a, b) && SeedOk(job, seed) && declaration.effects == EffectsOf(JobKeys(job))
    ensures Reached(job, seed, declaration, steps, trace) && RecoverIdle(LedgerOf(steps))
    ensures LedgerOf(steps).state.ResultObserved? && Finished(job, LedgerOf(steps), {ObserveResult})
    ensures At(LedgerOf(steps), EvidenceKey()).Idle? && At(LedgerOf(steps), EvidenceSync()).Idle?
    ensures forall key: Key :: key.kind.StageIncomingPayload? || key.kind.PublishRejectedObject? ==> At(LedgerOf(steps), key).Idle?
    ensures forall p :: p in job.active ==> Recorded(LedgerOf(steps), PublishActiveObject, p) == Some(Completed)
  {
    hide Reached, Sound, LedgerOf, EffectsOf, JobKeys, JobOk, Finished, RejectedBehind, ActiveBehind, RecoverIdle;
    var visible, calls := ReachVisible(job, seed, declaration, a, b);
    trace := calls;
    var one := Observe(job, seed, declaration, visible, calls, a);
    var two := Observe(job, seed, declaration, one, calls, b);
    steps := ReachState(job, seed, declaration, two, calls, ResultObserved);
    FinishedSame(job, LedgerOf(two), LedgerOf(steps));
    BothObserved(job, LedgerOf(steps), a, b);
  }

  lemma BothObserved(job: Job, ledger: Ledger, a: Path, b: Path)
    requires Bare(job, a, b) && CompletedSlot(At(ledger, ObserveKey(a))) && CompletedSlot(At(ledger, ObserveKey(b)))
    ensures Finished(job, ledger, {ObserveResult})
  {
    forall key: Key | key.kind == ObserveResult && JobDeclares(job, key) ensures CompletedSlot(At(ledger, key)) {
      assert key == ObserveKey(a) || key == ObserveKey(b);
    }
  }

  lemma Observe(job: Job, seed: Seed, declaration: Declaration, steps: seq<Step>, trace: Trace, p: Path) returns (after: seq<Step>)
    requires Reached(job, seed, declaration, steps, trace) && RecoverIdle(LedgerOf(steps))
    requires LedgerOf(steps).state.EffectsVisible? && p in PlanPaths(job.plan) && At(LedgerOf(steps), ObserveKey(p)).Idle?
    ensures Reached(job, seed, declaration, after, trace) && RecoverIdle(LedgerOf(after))
    ensures LedgerOf(after) == Placed(LedgerOf(steps), EffectsVisible, ObserveKey(p), Done(EventCompleted, None))
  {
    SoundMeans(job, seed, LedgerOf(steps), trace);
    after := ReachEffect(job, seed, declaration, steps, trace, ObserveKey(p), EventCompleted, None);
    NeutralIdle(LedgerOf(steps), EffectsVisible, ObserveKey(p), Done(EventCompleted, None));
  }

  // ---------------------------------------------------------------- evidence that was not made durable

  /** The evidence of a bare job, under a projection. */
  function BareEvidence(a: Path, b: Path, projection: nat): CompletedEvidence {
    CompletedEvidence(projection,
                      [Consequence(a, Some(Completed), None, Observed(true), true),
                       Consequence(b, Some(Completed), None, Observed(true), true)],
                      Durability(Confirmed, NotAttempted, NotAttempted, Confirmed, NotAttempted, Confirmed))
  }

  lemma BareEvidenceRight(a: Path, b: Path, projection: nat, ledger: Ledger)
    requires Less(a, b)
    requires Recorded(ledger, PublishActiveObject, a) == Some(Completed) && Recorded(ledger, PublishActiveObject, b) == Some(Completed)
    requires Recorded(ledger, PublishRejectedObject, a).None? && Recorded(ledger, PublishRejectedObject, b).None?
    ensures EvidenceRight(BareJob(a, b), SeedOf(BareJob(a, b).plan), ledger, BareEvidence(a, b, projection))
  {
    hide SeedOf, Less, JobOk, Executed;
    BareExists(a, b);
    var plan := BareJob(a, b).plan;
    assert plan[0] in plan && plan[1] in plan;
    var job, seed := BareJob(a, b), SeedOf(plan);
    assert seed[a] == Absent && seed[b] == Absent;
    assert EvidencePath(job, seed, ledger, 0) == BareEvidence(a, b, projection).paths[0];
    assert EvidencePath(job, seed, ledger, 1) == BareEvidence(a, b, projection).paths[1];
  }

  lemma ReachPublished(declaration: Declaration, a: Path, b: Path, first: nat) returns (steps: seq<Step>, trace: Trace)
    requires Less(a, b) && declaration.effects == EffectsOf(JobKeys(BareJob(a, b)))
    ensures Reached(BareJob(a, b), SeedOf(BareJob(a, b).plan), declaration, steps, trace) && RecoverIdle(LedgerOf(steps))
    ensures LedgerOf(steps).state.ResultObserved? && At(LedgerOf(steps), EvidenceSync()).Idle?
    ensures At(LedgerOf(steps), EvidenceKey()) == Done(EventCompleted, Some(EvidenceFact(BareEvidence(a, b, first))))
    ensures forall key: Key :: key.kind.StageIncomingPayload? ==> At(LedgerOf(steps), key).Idle?
  {
    hide Reached, Sound, LedgerOf, EffectsOf, JobKeys, SeedOf, Less, EvidenceRight, JobOk, SeedOk, Finished,
      Executed, SomeUnfinished, RecoverIdle, EvidenceOk;
    var job, evidence := BareJob(a, b), BareEvidence(a, b, first);
    var seed := SeedOf(job.plan);
    BareExists(a, b);
    var observed, calls := ReachObserved(job, seed, declaration, a, b);
    trace := calls;
    assert a in job.active && b in job.active;
    BareEvidenceRight(a, b, first, Placed(LedgerOf(observed), ResultObserved, EvidenceKey(), Intended));
    steps := ReachEffect(job, seed, declaration, observed, calls, EvidenceKey(), EventCompleted, Some(EvidenceFact(evidence)));
    NeutralIdle(LedgerOf(observed), ResultObserved, EvidenceKey(), At(LedgerOf(steps), EvidenceKey()));
  }

  lemma ReachUnconfirmed(declaration: Declaration, a: Path, b: Path, first: nat) returns (steps: seq<Step>, trace: Trace)
    requires Less(a, b) && declaration.effects == EffectsOf(JobKeys(BareJob(a, b)))
    ensures Reached(BareJob(a, b), SeedOf(BareJob(a, b).plan), declaration, steps, trace)
    ensures LedgerOf(steps).state.ResultObserved? && !ToRecover(BareJob(a, b), LedgerOf(steps)) && !NotTakenUp(LedgerOf(steps))
    ensures At(LedgerOf(steps), EvidenceKey()) == Done(EventCompleted, Some(EvidenceFact(BareEvidence(a, b, first))))
    ensures At(LedgerOf(steps), EvidenceSync()) ==
            Done(EventFailed, Some(SynchronizationFact(CompletedEvidenceDomain, Unconfirmed)))
  {
    hide Reached, Sound, LedgerOf, EffectsOf, JobKeys, SeedOf, Less, EvidenceRight, JobOk, SeedOk, SomeUnfinished,
      RecoverIdle, BareJob, BareEvidence;
    var published, calls := ReachPublished(declaration, a, b, first);
    trace := calls;
    ReachedOpen(BareJob(a, b), SeedOf(BareJob(a, b).plan), declaration, published, trace);
    steps := ReachEffect(BareJob(a, b), SeedOf(BareJob(a, b).plan), declaration, published, calls, EvidenceSync(), EventFailed,
                         Some(SynchronizationFact(CompletedEvidenceDomain, Unconfirmed)));
  }

  lemma ReachedOpen(job: Job, seed: Seed, declaration: Declaration, steps: seq<Step>, trace: Trace)
    requires Reached(job, seed, declaration, steps, trace)
    ensures LedgerOf(steps).receipt.None? && LedgerOf(steps).completed.None?
  {
  }

  /** A run that died after it failed to make its evidence durable can never be
      completed, and its seal is refused under every other projection, however
      the evidence is published and made durable again. */
  lemma UnconfirmedEvidence(declaration: Declaration, a: Path, b: Path, first: nat) returns (steps: seq<Step>, trace: Trace)
    requires Less(a, b) && declaration.effects == EffectsOf(JobKeys(BareJob(a, b)))
    ensures Reached(BareJob(a, b), SeedOf(BareJob(a, b).plan), declaration, steps, trace)
    ensures LedgerOf(steps).state.ResultObserved? && !ToRecover(BareJob(a, b), LedgerOf(steps)) && !NotTakenUp(LedgerOf(steps))
    ensures FailedSynchronization(LedgerOf(steps)) && !FailedPublication(LedgerOf(steps))
    ensures forall projection :: SealRefused(BareJob(a, b), LedgerOf(steps), Reprojected(LedgerOf(steps), projection)) <==>
                                   projection != first
    ensures NeverSucceeds(BareJob(a, b), SeedOf(BareJob(a, b).plan), declaration, steps)
  {
    hide Reached, LedgerOf, EffectsOf, JobKeys, SeedOf, Less, ToRecover, NotTakenUp, NeverSucceeds;
    steps, trace := ReachUnconfirmed(declaration, a, b, first);
    FallenAt(LedgerOf(steps), EvidenceSync());
    FallenNeverSucceeds(BareJob(a, b), SeedOf(BareJob(a, b).plan), declaration, steps);
  }
}
