/** Executing the active schedule: the effects that change the target. */
module Execution {
  import opened Wrappers
  import opened Paths
  import opened Plans
  import opened Journal
  import opened History
  import opened Ledgers
  import opened Jobs
  import opened Protocol
  import opened Receipts
  import opened Backend
  import opened Applications
  import opened Phases
  import opened Preparation
  import opened Publication

  datatype ActiveExecution = Complete(mutated: MutatedAttempt) | Stopped(interrupted: InterruptedAttempt)

  /** Objects were retained only where the plan allows it. */
  predicate RetainedFits(job: Job, effects: seq<EffectResult>) {
    forall e :: e in effects && e.outcome.ConditionalRetained? ==> MayRetain(job.plan, e.path)
  }

  /** An interrupted attempt agrees with the journal and can be constructed. */
  ghost predicate Interruptible(job: Job, ledger: Ledger, it: InterruptedAttempt) {
    && RetainedFits(job, it.effects)
    && EffectsRecorded(job, ledger, it.effects)
    && AllRejected(job, ledger, it.published.rejected)
    && AllCaptured(job, ledger, it.published.prepared.captures)
    && InterruptionOk(ledger.state, it.interruption, it.effects, job.active, it.durability.active)
  }

  lemma InterruptibleState(job: Job, before: Ledger, after: Ledger, it: InterruptedAttempt)
    requires EffectsRecorded(job, before, it.effects) && AllRejected(job, before, it.published.rejected)
    requires AllCaptured(job, before, it.published.prepared.captures)
    requires OnlyChanged(before, after, {}) && RetainedFits(job, it.effects)
    requires InterruptionOk(after.state, it.interruption, it.effects, job.active, it.durability.active)
    ensures Interruptible(job, after, it)
  {
    SameRecords(job, before, after, it.effects, it.published.rejected, {});
    CapturesSame(job, before, after, it.published.prepared.captures, {});
  }

  /** The state an interruption is published in. */
  function InterruptedIn(interruption: Interruption): State {
    if Uncertain(interruption) then StateIndeterminate else RecoveryPending
  }

  /** The interrupted attempt can be constructed once its state is published. */
  predicate Constructible(job: Job, it: InterruptedAttempt) {
    InterruptionOk(InterruptedIn(it.interruption), it.interruption, it.effects, job.active, it.durability.active)
  }

  /** Makes the interruption durable and hands the attempt to recovery. */
  method Interrupt(app: Application, it: InterruptedAttempt) returns (r: Flow<InterruptedAttempt>)
    requires app.Open() && RecoverIdle(app.ledger)
    requires EffectsRecorded(app.job, app.ledger, it.effects) && AllRejected(app.job, app.ledger, it.published.rejected)
    requires AllCaptured(app.job, app.ledger, it.published.prepared.captures) && RetainedFits(app.job, it.effects)
    requires PastRejected(app.ledger.state) || RejectedDurable(app.job, app.ledger)
    modifies app, app.store, app.history
    ensures r.Crashed? ==> app.MayCrash()
    ensures app.Safe()
    ensures r.Live? ==> r.value == it && app.Open() && Interruptible(app.job, app.ledger, it) && RecoverIdle(app.ledger)
                        && OnlyChanged(old(app.ledger), app.ledger, {})
    ensures var interrupted := old(app.ledger).(state := InterruptedIn(it.interruption));
            && (app.ledger == old(app.ledger) || app.ledger == interrupted)
            && (r == Thrown(PhaseRefused) ==> app.ledger == interrupted)
    ensures r.Thrown? ==> (r.fault == PhaseRefused && !Constructible(app.job, it))
                          || (r.fault == StepRefused && old(app.ledger).state !in {Mutating, EffectsVisible, ResultObserved})
  {
    hide Inv, StoredParts, Application.AwareOf, Attests;
    var state := InterruptedIn(it.interruption);
    ghost var before := app.ledger;
    RejectedAllDone(app.job, app.ledger, it.published.rejected);
    var published :- PublishState(app, state);
    app.IsSafe();
    if !Constructible(app.job, it) {
      return Thrown(PhaseRefused);
    }
    InterruptibleState(app.job, before, app.ledger, it);
    UnchangedKinds(app.job, before, app.ledger, {}, {});
    return Live(it);
  }

  // ---------------------------------------------------------------- the first run

  predicate Changed(effects: seq<EffectResult>) {
    exists e :: e in effects && e.outcome.Completed?
  }

  /** Part way through the active schedule; nothing failed yet. */
  ghost predicate Executing(job: Job, ledger: Ledger, published: PublishedAttempt, effects: seq<EffectResult>) {
    && ledger.state.Mutating?
    && AllCaptured(job, ledger, published.prepared.captures)
    && AllRejected(job, ledger, published.rejected)
    && Finished(job, ledger, PreparationKinds() + RejectedKinds())
    && Untouched(ledger, {SynchronizeActiveNamespace} + CompletionKinds() + RecoveryKinds())
    && EffectsRecorded(job, ledger, effects) && SemanticallyComplete(effects) && RetainedFits(job, effects)
    && (forall i :: 0 <= i < |effects| ==> CompletedSlot(SlotAt(ledger, PublishActiveObject, job.active[i])))
    && (forall i :: |effects| <= i < |job.active| ==> SlotAt(ledger, PublishActiveObject, job.active[i]).Idle?)
    && published.durability == PreparedDurability(job).(rejected := RejectedStatus(job))
  }

  lemma ExecutingTurn(job: Job, ledger: Ledger, published: PublishedAttempt, effects: seq<EffectResult>)
    requires Executing(job, ledger, published, effects) && |effects| < |job.active|
    ensures TurnOf(job, ledger, PublishActiveObject, job.active[|effects|], |effects|)
    ensures SlotAt(ledger, PublishActiveObject, job.active[|effects|]).Idle?
  {
    UntouchedRecover(ledger, {SynchronizeActiveNamespace} + CompletionKinds() + RecoveryKinds());
    RejectedAllDone(job, ledger, published.rejected);
    forall i | 0 <= i < |effects| ensures Cleared(ledger, PublishActiveObject, job.active[i]) {
      assert effects[i] in effects;
    }
  }

  /** One more active effect is recorded. */
  lemma ExecutingMoves(job: Job, before: Ledger, published: PublishedAttempt, effects: seq<EffectResult>, outcome: Outcome)
    requires Executing(job, before, published, effects) && |effects| < |job.active| && Distinct(job.active)
    ensures var p := job.active[|effects|];
            var after := Placed(before, Mutating, Key(PublishActiveObject, Some(p)), Done(TerminalOf(outcome), Some(ActiveFact(p, outcome))));
            var effects' := effects + [EffectResult(p, outcome)];
            && RecoverIdle(after) && RejectedDurable(job, after) && Untouched(after, RecoveryKinds()) && EffectsRecorded(job, after, effects')
            && AllCaptured(job, after, published.prepared.captures) && AllRejected(job, after, published.rejected)
            && (outcome.Completed? || (outcome.ConditionalRetained? && MayRetain(job.plan, p)) ==>
                  Executing(job, after, published, effects'))
  {
    var p := job.active[|effects|];
    var after := Placed(before, Mutating, Key(PublishActiveObject, Some(p)), Done(TerminalOf(outcome), Some(ActiveFact(p, outcome))));
    assert OnlyChanged(before, after, {PublishActiveObject});
    UnchangedKinds(job, before, after, {PublishActiveObject}, PreparationKinds() + RejectedKinds());
    UnchangedKinds(job, before, after, {PublishActiveObject},
                   {SynchronizeActiveNamespace} + CompletionKinds() + RecoveryKinds());
    UntouchedRecover(after, {SynchronizeActiveNamespace} + CompletionKinds() + RecoveryKinds());
    CapturesSame(job, before, after, published.prepared.captures, {PublishActiveObject});
    assert forall q :: Recorded(after, PublishRejectedObject, q) == Recorded(before, PublishRejectedObject, q);
    assert forall i :: 0 <= i < |job.active| && i != |effects| ==>
                         SlotAt(after, PublishActiveObject, job.active[i]) == SlotAt(before, PublishActiveObject, job.active[i]);
  }

  /** The attempt as interrupted by its latest effect. */
  function StoppedAt(published: PublishedAttempt, effects: seq<EffectResult>): InterruptedAttempt
    requires effects != []
  {
    var uncertain := effects[|effects| - 1].outcome.Indeterminate?;
    var active := if uncertain then StatusIndeterminate else if Changed(effects) then Visible else NotAttempted;
    InterruptedAttempt(published, effects, if uncertain then EffectIndeterminate else EffectFailed,
                       published.durability.(active := active))
  }

  lemma StoppedFits(job: Job, ledger: Ledger, published: PublishedAttempt, effects: seq<EffectResult>)
    requires effects != [] && EffectsRecorded(job, ledger, effects)
    requires effects[|effects| - 1].outcome.Failed? || effects[|effects| - 1].outcome.Indeterminate?
    ensures Constructible(job, StoppedAt(published, effects))
  {
  }

  /** Executes one effect; a failed or uncertain one interrupts. */
  method ExecuteNext(app: Application, published: PublishedAttempt, effects: seq<EffectResult>) returns (r: Flow<EffectResult>)
    requires app.Open() && Executing(app.job, app.ledger, published, effects) && |effects| < |app.job.active|
    modifies app, app.store, app.history, app.backend
    ensures r.Crashed? ==> app.MayCrash()
    ensures r.Thrown? && r.fault == BackendFault ==> !app.backend.Honest()
    ensures app.Safe()
    ensures r.Live? && !r.value.outcome.Completed? && !r.value.outcome.ConditionalRetained? ==> Fallen(app.ledger)
    ensures r.Live? ==>
              && app.Open() && app.ledger.state.Mutating? && Untouched(app.ledger, RecoveryKinds()) && RecoverIdle(app.ledger)
              && EffectsRecorded(app.job, app.ledger, effects + [r.value])
              && AllRejected(app.job, app.ledger, published.rejected)
              && AllCaptured(app.job, app.ledger, published.prepared.captures)
              && RetainedFits(app.job, effects + [r.value]) && RejectedDurable(app.job, app.ledger)
    ensures r.Live? && (r.value.outcome.Completed? || r.value.outcome.ConditionalRetained?) ==>
              Executing(app.job, app.ledger, published, effects + [r.value])
    ensures r.Thrown? ==> r.fault == BackendFault
  {
    hide Inv, StoredParts, Application.AwareOf, Attests;
    JobFacts(app);
    ExecutingTurn(app.job, app.ledger, published, effects);
    ghost var before := app.ledger;
    var p := app.job.active[|effects|];
    var outcome :- RunActive(app, p, MayRetain(app.job.plan, p), true, |effects|);
    ExecutingMoves(app.job, before, published, effects, outcome);
    if !outcome.Completed? && !outcome.ConditionalRetained? {
      FallenAt(app.ledger, Key(PublishActiveObject, Some(p)));
    }
    app.IsSafe();
    return Live(EffectResult(p, outcome));
  }

  /** Interrupts at the latest effect, which failed or is uncertain. */
  method StopAt(app: Application, published: PublishedAttempt, effects: seq<EffectResult>) returns (r: Flow<InterruptedAttempt>)
    requires app.Open() && RecoverIdle(app.ledger) && RejectedDurable(app.job, app.ledger)
    requires app.ledger.state.Mutating? || PastActive(app.ledger.state)
    requires EffectsRecorded(app.job, app.ledger, effects) && AllRejected(app.job, app.ledger, published.rejected)
    requires AllCaptured(app.job, app.ledger, published.prepared.captures) && RetainedFits(app.job, effects)
    requires effects != [] && (effects[|effects| - 1].outcome.Failed? || effects[|effects| - 1].outcome.Indeterminate?)
    modifies app, app.store, app.history
    ensures r.Crashed? ==> app.MayCrash()
    ensures app.Safe()
    ensures r.Live? ==> app.Open() && Interruptible(app.job, app.ledger, r.value) && RecoverIdle(app.ledger)
                        && OnlyChanged(old(app.ledger), app.ledger, {})
    ensures !r.Thrown?
  {
    hide Inv, StoredParts, Application.AwareOf, Attests;
    StoppedFits(app.job, app.ledger, published, effects);
    r := Interrupt(app, StoppedAt(published, effects));
    if r.Live? {
      app.IsSafe();
    }
  }

  /** Executes the active effects in scheduled order; the first that neither
      completes nor retains its object interrupts the attempt. */
  method ExecuteEach(app: Application, published: PublishedAttempt) returns (r: Flow<(seq<EffectResult>, Option<InterruptedAttempt>)>)
    requires app.Open() && Executing(app.job, app.ledger, published, [])
    modifies app, app.store, app.history, app.backend
    ensures r.Crashed? ==> app.MayCrash()
    ensures r.Thrown? && r.fault == BackendFault ==> !app.backend.Honest()
    ensures app.Safe()
    ensures r.Live? && r.value.1.Some? ==> Fallen(app.ledger)
    ensures r.Live? ==> app.Open()
    ensures r.Live? && r.value.1.None? ==>
              |r.value.0| == |app.job.active| && Executing(app.job, app.ledger, published, r.value.0)
    ensures r.Live? && r.value.1.Some? ==> Interruptible(app.job, app.ledger, r.value.1.value) && Untouched(app.ledger, RecoveryKinds())
    ensures r.Thrown? ==> r.fault == BackendFault
  {
    hide Inv, StoredParts, Application.AwareOf, Attests;
    app.IsSafe();
    var effects: seq<EffectResult> := [];
    for i := 0 to |app.job.active|
      invariant app.Open() && app.Safe()
      invariant |effects| == i && Executing(app.job, app.ledger, published, effects)
    {
      var next :- ExecuteNext(app, published, effects);
      effects := effects + [next];
      if next.outcome.Failed? || next.outcome.Indeterminate? {
        ghost var before := app.ledger;
        var stopped :- StopAt(app, published, effects);
        FallenKept(before, app.ledger, {});
        UnchangedKinds(app.job, before, app.ledger, {}, RecoveryKinds());
        app.IsSafe();
        return Live((effects, Some(stopped)));
      }
      app.IsSafe();
    }
    return Live((effects, None));
  }

  // ---------------------------------------------------------------- completion of the phase

  function ActiveStatus(job: Job, effects: seq<EffectResult>): Status {
    if !Changed(effects) then NotAttempted
    else if AllDomainsRequired(job.control) then Confirmed
    else Visible
  }

  /** A first run whose active effects all went through.  The declared active
      synchronization is run only if something changed. */
  ghost predicate FreshlyMutated(job: Job, ledger: Ledger, m: MutatedAttempt) {
    && ledger.state.EffectsVisible?
    && EffectsRecorded(job, ledger, m.effects) && |m.effects| == |job.active| && SemanticallyComplete(m.effects)
    && RetainedFits(job, m.effects)
    && AllCaptured(job, ledger, m.published.prepared.captures) && AllRejected(job, ledger, m.published.rejected)
    && Finished(job, ledger, PreparationKinds() + RejectedKinds() + {PublishActiveObject})
    && (Changed(m.effects) ==> Finished(job, ledger, {SynchronizeActiveNamespace}))
    && (!Changed(m.effects) ==> Untouched(ledger, {SynchronizeActiveNamespace}))
    && Untouched(ledger, CompletionKinds() + RecoveryKinds())
    && m.durability == PreparedDurability(job).(rejected := RejectedStatus(job), active := ActiveStatus(job, m.effects))
  }

  /** The facts a complete active phase starts from, before and after its
      synchronization. */
  ghost predicate Executed(job: Job, ledger: Ledger, published: PublishedAttempt, effects: seq<EffectResult>) {
    && ledger.state.Mutating?
    && EffectsRecorded(job, ledger, effects) && |effects| == |job.active| && SemanticallyComplete(effects)
    && RetainedFits(job, effects)
    && AllCaptured(job, ledger, published.prepared.captures) && AllRejected(job, ledger, published.rejected)
    && Finished(job, ledger, PreparationKinds() + RejectedKinds() + {PublishActiveObject})
    && Untouched(ledger, CompletionKinds() + RecoveryKinds())
    && published.durability == PreparedDurability(job).(rejected := RejectedStatus(job))
  }

  lemma ExecutedAll(job: Job, before: Ledger, after: Ledger, published: PublishedAttempt, effects: seq<EffectResult>)
    requires Executing(job, before, published, effects) && |effects| == |job.active|
    requires OnlyChanged(before, after, {SynchronizeActiveNamespace}) && after.state.Mutating?
    ensures Executed(job, after, published, effects)
  {
    UnchangedKinds(job, before, after, {SynchronizeActiveNamespace}, PreparationKinds() + RejectedKinds());
    UnchangedKinds(job, before, after, {SynchronizeActiveNamespace}, CompletionKinds() + RecoveryKinds());
    CapturesSame(job, before, after, published.prepared.captures, {SynchronizeActiveNamespace});
    SameRecords(job, before, after, effects, published.rejected, {SynchronizeActiveNamespace});
    forall key: Key | key.kind == PublishActiveObject && JobDeclares(job, key) ensures CompletedSlot(At(after, key)) {
      var i :| 0 <= i < |job.active| && job.active[i] == key.path.value;
      assert CompletedSlot(SlotAt(before, PublishActiveObject, job.active[i]));
      assert key == Key(PublishActiveObject, Some(job.active[i]));
    }
  }

  /** The synchronization that interrupts: uncertain, or not confirmed. */
  function UnsynchronizedAt(published: PublishedAttempt, effects: seq<EffectResult>, status: Status): InterruptedAttempt {
    var uncertain := status.StatusIndeterminate?;
    InterruptedAttempt(published, effects, if uncertain then DurabilityIndeterminateThere else DurabilityUnconfirmedThere,
                       published.durability.(active := if uncertain then StatusIndeterminate else Unconfirmed))
  }

  /** Makes the active namespace durable after a change. */
  method SynchronizeActive(app: Application, published: PublishedAttempt, effects: seq<EffectResult>) returns (r: Flow<Status>)
    requires app.Open() && Executing(app.job, app.ledger, published, effects) && |effects| == |app.job.active|
    requires Changed(effects) && AllDomainsRequired(app.job.control)
    modifies app, app.store, app.history, app.backend
    ensures r.Crashed? ==> app.MayCrash()
    ensures r.Thrown? && r.fault == BackendFault ==> !app.backend.Honest()
    ensures app.Safe()
    ensures r.Live? && !r.value.Confirmed? ==> Fallen(app.ledger)
    ensures r.Live? ==> app.Open() && Executed(app.job, app.ledger, published, effects) && !r.value.NotAttempted?
    ensures r.Live? && r.value.Confirmed? ==> Finished(app.job, app.ledger, {SynchronizeActiveNamespace})
    ensures r.Thrown? ==> r.fault == BackendFault
  {
    hide Inv, StoredParts, Application.AwareOf, Attests;
    ghost var before := app.ledger;
    UntouchedRecover(app.ledger, {SynchronizeActiveNamespace} + CompletionKinds() + RecoveryKinds());
    r := RunSynchronization(app, Mutating, ActiveNamespace, SynchronizeActiveNamespace);
    if r.Live? {
      ExecutedAll(app.job, before, app.ledger, published, effects);
      if r.value != Confirmed {
        FallenAt(app.ledger, Key(SynchronizeActiveNamespace, None));
      }
    }
  }

  /** Interrupts at a synchronization that was not confirmed. */
  method InterruptUnsynchronized(app: Application, published: PublishedAttempt, effects: seq<EffectResult>, status: Status)
    returns (r: Flow<InterruptedAttempt>)
    requires app.Open() && Executed(app.job, app.ledger, published, effects)
    modifies app, app.store, app.history
    ensures r.Crashed? ==> app.MayCrash()
    ensures app.Safe()
    ensures r.Live? ==> OnlyChanged(old(app.ledger), app.ledger, {})
    ensures r.Live? ==> app.Open() && Interruptible(app.job, app.ledger, r.value) && Untouched(app.ledger, RecoveryKinds())
    ensures !r.Thrown?
  {
    UntouchedRecover(app.ledger, CompletionKinds() + RecoveryKinds());
    assert Constructible(app.job, UnsynchronizedAt(published, effects, status));
    r := Interrupt(app, UnsynchronizedAt(published, effects, status));
  }

  lemma MutatedFresh(job: Job, before: Ledger, after: Ledger, published: PublishedAttempt, effects: seq<EffectResult>)
    requires Executed(job, before, published, effects) && after == before.(state := EffectsVisible)
    requires if Changed(effects) && AllDomainsRequired(job.control) then Finished(job, before, {SynchronizeActiveNamespace})
             else Untouched(before, {SynchronizeActiveNamespace})
    ensures var m := MutatedAttempt(published, effects, published.durability.(active := ActiveStatus(job, effects)));
            FreshlyMutated(job, after, m) && MutatedOk(EffectsVisible, effects, job.active, m.durability.active)
  {
    assert OnlyChanged(before, after, {});
    SameRecords(job, before, after, effects, published.rejected, {});
    CapturesSame(job, before, after, published.prepared.captures, {});
    if !AllDomainsRequired(job.control) {
      assert forall key: Key :: key.kind == SynchronizeActiveNamespace ==> !JobDeclares(job, key);
    }
  }

  /** What the results say has changed is what the journal says. */
  lemma ChangedRecorded(job: Job, ledger: Ledger, effects: seq<EffectResult>)
    requires EffectsRecorded(job, ledger, effects)
    ensures ActiveChanged(job, ledger) <==> Changed(effects)
  {
    if ActiveChanged(job, ledger) {
      var p :| p in job.active && Recorded(ledger, PublishActiveObject, p) == Some(Completed);
      var i :| 0 <= i < |job.active| && job.active[i] == p;
      assert i < |effects|;
      assert effects[i] in effects;
    }
    if Changed(effects) {
      var e :| e in effects && e.outcome.Completed?;
      var i :| 0 <= i < |effects| && effects[i] == e;
      assert job.active[i] in job.active;
    }
  }

  /** All effects went through. */
  lemma AllPassed(job: Job, ledger: Ledger, effects: seq<EffectResult>)
    requires EffectsRecorded(job, ledger, effects) && |effects| == |job.active| && SemanticallyComplete(effects)
    ensures ActivePassed(job, ledger)
  {
    forall p | p in job.active ensures Passed(ledger, p) {
      var i :| 0 <= i < |job.active| && job.active[i] == p;
      assert effects[i] in effects;
    }
  }

  lemma ExecutedBehind(job: Job, ledger: Ledger, published: PublishedAttempt, effects: seq<EffectResult>)
    requires Executed(job, ledger, published, effects)
    requires Changed(effects) && AllDomainsRequired(job.control) ==> Finished(job, ledger, {SynchronizeActiveNamespace})
    ensures RejectedBehind(job, ledger) && ActiveBehind(job, ledger)
  {
    RejectedAllDone(job, ledger, published.rejected);
    AllPassed(job, ledger, effects);
    ChangedRecorded(job, ledger, effects);
    assert RejectedDurable(job, ledger) by {
      assert RejectedSync().kind in RejectedKinds();
    }
    if ActiveChanged(job, ledger) && AllDomainsRequired(job.control) {
      assert JobDeclares(job, ActiveSync());
    }
  }

  /** Moves on to `effects_visible`. */
  method FinishExecution(app: Application, published: PublishedAttempt, effects: seq<EffectResult>) returns (r: Flow<MutatedAttempt>)
    requires app.Open() && Executed(app.job, app.ledger, published, effects)
    requires if Changed(effects) && AllDomainsRequired(app.job.control)
             then Finished(app.job, app.ledger, {SynchronizeActiveNamespace})
             else Untouched(app.ledger, {SynchronizeActiveNamespace})
    modifies app, app.store, app.history
    ensures r.Crashed? ==> app.MayCrash()
    ensures app.Safe()
    ensures r.Live? ==> app.Open() && FreshlyMutated(app.job, app.ledger, r.value)
    ensures !r.Thrown?
  {
    hide Finished, Untouched, EffectsRecorded, AllCaptured, AllRejected, JobDeclares;
    ExecutedBehind(app.job, app.ledger, published, effects);
    ghost var before := app.ledger;
    UntouchedRecover(app.ledger, CompletionKinds() + RecoveryKinds());
    MutatedFresh(app.job, before, before.(state := EffectsVisible), published, effects);
    var visible :- PublishState(app, EffectsVisible);
    app.IsSafe();
    return Live(MutatedAttempt(published, effects, published.durability.(active := ActiveStatus(app.job, effects))));
  }

  /** Synchronizes where asked for, then finishes the phase. */
  method ConcludeExecution(app: Application, published: PublishedAttempt, effects: seq<EffectResult>) returns (r: Flow<ActiveExecution>)
    requires app.Open() && Executing(app.job, app.ledger, published, effects) && |effects| == |app.job.active|
    modifies app, app.store, app.history, app.backend
    ensures r.Crashed? ==> app.MayCrash()
    ensures r.Thrown? && r.fault == BackendFault ==> !app.backend.Honest()
    ensures app.Safe()
    ensures r.Live? && r.value.Stopped? ==> Fallen(app.ledger)
    ensures r.Live? ==> app.Open()
    ensures r.Live? && r.value.Stopped? ==> Interruptible(app.job, app.ledger, r.value.interrupted) && Untouched(app.ledger, RecoveryKinds())
    ensures r.Live? && r.value.Complete? ==> FreshlyMutated(app.job, app.ledger, r.value.mutated)
    ensures r.Thrown? ==> r.fault == BackendFault
  {
    hide Inv, StoredParts, Application.AwareOf, Attests;
    if Changed(effects) && AllDomainsRequired(app.job.control) {
      var status :- SynchronizeActive(app, published, effects);
      if status != Confirmed {
        ghost var before := app.ledger;
        var stopped :- InterruptUnsynchronized(app, published, effects, status);
        FallenKept(before, app.ledger, {});
        app.IsSafe();
        return Live(Stopped(stopped));
      }
    } else {
      ExecutedAll(app.job, app.ledger, app.ledger, published, effects);
    }
    var mutated :- FinishExecution(app, published, effects);
    app.IsSafe();
    return Live(Complete(mutated));
  }

  lemma ExecutingStarts(job: Job, ledger: Ledger, published: PublishedAttempt)
    requires FreshlyPublished(job, ledger, published)
    ensures Executing(job, ledger, published, [])
  {
  }

  /** The active phase of a first run. */
  method ExecuteActive(app: Application, published: PublishedAttempt) returns (r: Flow<ActiveExecution>)
    requires app.Open() && FreshlyPublished(app.job, app.ledger, published)
    modifies app, app.store, app.history, app.backend
    ensures r.Crashed? ==> app.MayCrash()
    ensures r.Thrown? && r.fault == BackendFault ==> !app.backend.Honest()
    ensures app.Safe()
    ensures r.Live? && r.value.Stopped? ==> Fallen(app.ledger)
    ensures r.Live? ==> app.Open()
    ensures r.Live? && r.value.Stopped? ==> Interruptible(app.job, app.ledger, r.value.interrupted) && Untouched(app.ledger, RecoveryKinds())
    ensures r.Live? && r.value.Complete? ==> FreshlyMutated(app.job, app.ledger, r.value.mutated)
    ensures r.Thrown? ==> r.fault == BackendFault
  {
    ExecutingStarts(app.job, app.ledger, published);
    var executed :- ExecuteEach(app, published);
    if executed.1.Some? {
      app.IsSafe();
      return Live(Stopped(executed.1.value));
    }
    r := ConcludeExecution(app, published, executed.0);
  }
}
