/** The active phase and the recovery of a restarted run. */
module ResumeExecution {
  import opened Wrappers
  import opened Paths
  import opened Plans
  import opened Journal
  import opened Record
  import opened History
  import opened Ledgers
  import opened Jobs
  import opened Protocol
  import opened Receipts
  import opened Backend
  import opened Applications
  import opened RestartView
  import opened Phases
  import opened Preparation
  import opened Publication
  import opened Execution
  import opened Recovery
  import opened Completion
  import opened ResumePreparation
  import opened ResumePublication

  // ---------------------------------------------------------------- going forward

  function ActiveKey(p: Path): Key {
    Key(PublishActiveObject, Some(p))
  }

  /** The states of a run that goes forward in its active phase. */
  predicate Forward(state: State) {
    state.Mutating? || PastActive(state)
  }

  /** An honest backend retains objects only where the plan allows it. */
  lemma RetentionHonest(app: Application, p: Path)
    requires app.Open() && At(app.ledger, ActiveKey(p)).Done?
    ensures Recorded(app.ledger, PublishActiveObject, p) == Some(ConditionalRetained) && app.backend.honest ==>
              MayRetain(app.job.plan, p)
  {
    hide Core, PhaseGate, ActiveGate, PreparedGate, SyncGate, StoredParts, WrittenAhead, Witnessed;
    SoundMeans(app.job, app.seed, app.ledger, app.backend.trace);
    app.AwareMeans();
    AttestedMeans(app.job, app.store.steps, app.backend);
    var slot := At(app.ledger, ActiveKey(p));
    assert SlotFits(app.job, ActiveKey(p), slot.kind, slot.fact);
    assert app.backend.honest ==> MovePlausible(app.job, app.backend.recordOf, Move(ActiveKey(p), slot.kind, slot.fact));
  }

  /** An effect that has not begun was not left behind. */
  lemma IdleIsMutating(app: Application, p: Path)
    requires app.Open() && Forward(app.ledger.state) && p in app.job.active && !At(app.ledger, ActiveKey(p)).Done?
    ensures app.ledger.state.Mutating?
  {
    Behind(app);
    assert PastActive(app.ledger.state) ==> Passed(app.ledger, p);
  }

  /** Part way through the active schedule of a restarted run. */
  ghost predicate Reexecuting(job: Job, ledger: Ledger, published: PublishedAttempt, view: View, effects: seq<EffectResult>) {
    && Republished(job, ledger, published)
    && |effects| <= |job.active|
    && (forall i :: 0 <= i < |effects| ==>
          && effects[i].path == job.active[i]
          && Recorded(ledger, PublishActiveObject, job.active[i]) == Some(effects[i].outcome))
    && SemanticallyComplete(effects) && RetainedFits(job, effects)
    && (forall i :: |effects| <= i < |job.active| && At(ledger, ActiveKey(job.active[i])).Done? ==>
                      FactAt(view, ActiveKey(job.active[i])) == At(ledger, ActiveKey(job.active[i])).fact)
  }

  /** Nothing after an effect that did not go through was begun. */
  lemma LaterIdle(app: Application, k: nat)
    requires app.Alive() && k < |app.job.active| && !Passed(app.ledger, app.job.active[k])
    ensures forall j :: k < j < |app.job.active| ==> Recorded(app.ledger, PublishActiveObject, app.job.active[j]).None?
  {
    SoundMeans(app.job, app.seed, app.ledger, app.backend.trace);
  }

  lemma ReexecutingTurn(job: Job, ledger: Ledger, published: PublishedAttempt, view: View, effects: seq<EffectResult>)
    requires Reexecuting(job, ledger, published, view, effects) && |effects| < |job.active| && RecoverIdle(ledger)
    ensures TurnOf(job, ledger, PublishActiveObject, job.active[|effects|], |effects|)
  {
    forall i | 0 <= i < |effects| ensures Cleared(ledger, PublishActiveObject, job.active[i]) {
      assert effects[i] in effects;
    }
  }

  /** One more active effect of a restarted run: retained, uncertain, or
      executed now.  An intent without a terminal event is never repeated. */
  method ReexecuteNext(app: Application, published: PublishedAttempt, view: View, effects: seq<EffectResult>) returns (r: Flow<Outcome>)
    requires app.Open() && Reexecuting(app.job, app.ledger, published, view, effects) && |effects| < |app.job.active|
    requires RecoverIdle(app.ledger) && Forward(app.ledger.state)
    modifies app, app.store, app.history, app.backend
    ensures r.Crashed? ==> app.MayCrash()
    ensures app.Safe()
    ensures !old(At(app.ledger, ActiveKey(app.job.active[|effects|]))).Idle? ==>
              app.backend.trace == old(app.backend.trace) && app.ledger == old(app.ledger)
    ensures old(At(app.ledger, ActiveKey(app.job.active[|effects|]))).Intended? ==> r == Live(Indeterminate)
    ensures r.Live? ==>
              var p := app.job.active[|effects|];
              && app.Open() && Recorded(app.ledger, PublishActiveObject, p) == Some(r.value)
              && (r.value.ConditionalRetained? ==> MayRetain(app.job.plan, p))
              && (forall other: Key :: other != ActiveKey(p) ==> At(app.ledger, other) == At(old(app.ledger), other))
              && (app.ledger.state == old(app.ledger).state || app.ledger.state.Mutating?)
    ensures r.Thrown? ==> r.fault == BackendFault && !app.backend.Honest()
  {
    hide Inv, StoredParts, Application.AwareOf, Attests;
    app.IsSafe();
    var p := app.job.active[|effects|];
    SoundFacts(app.job, app.seed, app.ledger, app.backend.trace, PublishActiveObject, p);
    var progress := app.ProgressFor(ActiveKey(p));
    if progress.terminal.Some? {
      var outcome := FactOutcome(FactAt(view, ActiveKey(p)).value);
      RetentionHonest(app, p);
      return if outcome.ConditionalRetained? && !MayRetain(app.job.plan, p) then Thrown(BackendFault) else Live(outcome);
    }
    if progress.intended {
      return Live(Indeterminate);
    }
    IdleIsMutating(app, p);
    ReexecutingTurn(app.job, app.ledger, published, view, effects);
    var outcome :- RunActive(app, p, MayRetain(app.job.plan, p), false, |effects|);
    app.IsSafe();
    return Live(outcome);
  }

  lemma ReexecutingMoves(job: Job, before: Ledger, after: Ledger, published: PublishedAttempt, view: View,
                         effects: seq<EffectResult>, outcome: Outcome)
    requires Reexecuting(job, before, published, view, effects) && |effects| < |job.active| && Distinct(job.active)
    requires RecoverIdle(before)
    requires var p := job.active[|effects|];
             && Recorded(after, PublishActiveObject, p) == Some(outcome)
             && (outcome.ConditionalRetained? ==> MayRetain(job.plan, p))
             && forall other: Key :: other != ActiveKey(p) ==> At(after, other) == At(before, other)
    ensures var effects' := effects + [EffectResult(job.active[|effects|], outcome)];
            && RecoverIdle(after) && Republished(job, after, published) && RetainedFits(job, effects')
            && (forall i :: 0 <= i < |effects'| ==>
                  && effects'[i].path == job.active[i]
                  && Recorded(after, PublishActiveObject, job.active[i]) == Some(effects'[i].outcome))
            && (outcome.Completed? || outcome.ConditionalRetained? ==> Reexecuting(job, after, published, view, effects'))
            && OnlyChanged(before, after, {PublishActiveObject})
  {
    assert OnlyChanged(before, after, {PublishActiveObject});
    CapturesSame(job, before, after, published.prepared.captures, {PublishActiveObject});
    UnchangedKinds(job, before, after, {PublishActiveObject}, {});
    assert forall q :: Recorded(after, PublishRejectedObject, q) == Recorded(before, PublishRejectedObject, q);
    assert forall i :: 0 <= i < |job.active| && i != |effects| ==>
                         At(after, ActiveKey(job.active[i])) == At(before, ActiveKey(job.active[i]));
  }

  /** Goes on with the active schedule; stops where an effect did not go
      through. */
  method ReexecuteEach(app: Application, published: PublishedAttempt, view: View)
    returns (r: Flow<(seq<EffectResult>, Option<InterruptedAttempt>)>)
    requires app.Open() && Reexecuting(app.job, app.ledger, published, view, []) && RecoverIdle(app.ledger)
    requires Forward(app.ledger.state)
    modifies app, app.store, app.history, app.backend
    ensures r.Crashed? ==> app.MayCrash()
    ensures app.Safe()
    ensures r.Live? ==> app.Open() && RecoverIdle(app.ledger)
    ensures old(ActivePassed(app.job, app.ledger)) ==> app.ledger == old(app.ledger) && (r.Live? ==> r.value.1.None?)
    ensures r.Live? && r.value.1.None? ==> Forward(app.ledger.state)
    ensures r.Live? && r.value.1.None? ==>
              && |r.value.0| == |app.job.active| && Reexecuting(app.job, app.ledger, published, view, r.value.0)
              && OnlyChanged(old(app.ledger), app.ledger, {PublishActiveObject})
    ensures r.Live? && r.value.1.Some? ==>
              Interruptible(app.job, app.ledger, r.value.1.value) && OnlyChanged(old(app.ledger), app.ledger, {PublishActiveObject})
    ensures r.Thrown? ==> r.fault == BackendFault && !app.backend.Honest()
  {
    hide Inv, StoredParts, Application.AwareOf, Attests, Reexecuting, Interruptible;
    app.IsSafe();
    JobFacts(app);
    ghost var first := app.ledger;
    var effects: seq<EffectResult> := [];
    for i := 0 to |app.job.active|
      invariant app.Open() && app.Safe() && |effects| == i && RecoverIdle(app.ledger) && Forward(app.ledger.state)
      invariant Reexecuting(app.job, app.ledger, published, view, effects)
      invariant ActivePassed(app.job, first) ==> app.ledger == first
      invariant OnlyChanged(first, app.ledger, {PublishActiveObject})
    {
      ghost var before := app.ledger;
      assert ActivePassed(app.job, first) ==> Passed(first, app.job.active[i]);
      var outcome :- ReexecuteNext(app, published, view, effects);
      ReexecutingMoves(app.job, before, app.ledger, published, view, effects, outcome);
      effects := effects + [EffectResult(app.job.active[i], outcome)];
      if outcome.Failed? || outcome.Indeterminate? {
        LaterIdle(app, i);
        var stopped :- StopAt(app, published, effects);
        app.IsSafe();
        return Live((effects, Some(stopped)));
      }
      app.IsSafe();
    }
    return Live((effects, None));
  }

  /** A restarted run whose active effects all went through. */
  ghost predicate Remutated(job: Job, ledger: Ledger, m: MutatedAttempt) {
    && (ledger.state.EffectsVisible? || ledger.state.ResultObserved?)
    && Mutated(job, ledger, m) && RetainedFits(job, m.effects) && RecoverIdle(ledger)
    && m.durability == m.published.durability.(active := ActiveStatus(job, m.effects))
  }

  /** The durability that the view reports for the active namespace is the one
      of its synchronization. */
  ghost predicate ViewNamespace(view: View, ledger: Ledger) {
    At(ledger, ActiveSync()).Done? ==>
      At(ledger, ActiveSync()).fact == Some(SynchronizationFact(ActiveNamespace, view.durability.active))
  }

  /** The status that the journal records for the active synchronization. */
  predicate SynchronizedAs(ledger: Ledger, status: Status) {
    At(ledger, ActiveSync()) == Done(StatusTerminal(status), Some(SynchronizationFact(ActiveNamespace, status)))
  }

  lemma SynchronizedBefore(app: Application, view: View)
    requires app.Open() && At(app.ledger, ActiveSync()).Done? && ViewNamespace(view, app.ledger)
    ensures SynchronizedAs(app.ledger, view.durability.active)
    ensures !view.durability.active.NotAttempted?
  {
    SoundMeans(app.job, app.seed, app.ledger, app.backend.trace);
    var slot := At(app.ledger, ActiveSync());
    assert SlotFits(app.job, ActiveSync(), slot.kind, slot.fact);
  }

  /** A synchronization that is asked for and was not concluded was not left
      behind. */
  lemma UnsynchronizedIsMutating(app: Application)
    requires app.Open() && Forward(app.ledger.state) && ActiveChanged(app.job, app.ledger)
    requires AllDomainsRequired(app.job.control) && !At(app.ledger, ActiveSync()).Done?
    ensures app.ledger.state.Mutating?
  {
    Behind(app);
  }

  /** Makes the active namespace durable unless an earlier run did. */
  method ResynchronizeActive(app: Application, view: View) returns (r: Flow<Status>)
    requires app.Open() && RecoverIdle(app.ledger) && Forward(app.ledger.state) && ViewNamespace(view, app.ledger)
    requires ActivePassed(app.job, app.ledger) && ActiveChanged(app.job, app.ledger) && AllDomainsRequired(app.job.control)
    modifies app, app.store, app.history
    ensures r.Crashed? ==> app.MayCrash()
    ensures app.Safe()
    ensures r.Live? ==> app.Open() && RecoverIdle(app.ledger) && Forward(app.ledger.state)
                        && OnlyChanged(old(app.ledger), app.ledger, {SynchronizeActiveNamespace})
                        && SynchronizedAs(app.ledger, r.value) && !r.value.NotAttempted?
    ensures old(At(app.ledger, ActiveSync())).Done? ==> app.ledger == old(app.ledger)
    ensures r.Thrown? ==> r.fault == BackendFault && !app.backend.Honest()
  {
    hide Inv, StoredParts, Application.AwareOf, Attests;
    app.IsSafe();
    assert JobDeclares(app.job, ActiveSync());
    var progress := app.ProgressFor(ActiveSync());
    if progress.terminal.Some? {
      SynchronizedBefore(app, view);
      return Live(view.durability.active);
    }
    UnsynchronizedIsMutating(app);
    ghost var before := app.ledger;
    r := RunSynchronization(app, Mutating, ActiveNamespace, SynchronizeActiveNamespace);
    if r.Live? {
      NeutralIdle(before, Mutating, ActiveSync(), At(app.ledger, ActiveSync()));
    }
  }

  lemma ReexecutedAll(job: Job, before: Ledger, after: Ledger, published: PublishedAttempt, view: View, effects: seq<EffectResult>)
    requires Reexecuting(job, before, published, view, effects) && |effects| == |job.active|
    requires OnlyChanged(before, after, {SynchronizeActiveNamespace})
    ensures forall d :: Mutated(job, after, MutatedAttempt(published, effects, d))
    ensures RejectedBehind(job, after) && ActivePassed(job, after)
    ensures ActiveChanged(job, after) <==> Changed(effects)
    ensures ActiveChanged(job, before) <==> Changed(effects)
  {
    CapturesSame(job, before, after, published.prepared.captures, {SynchronizeActiveNamespace});
    SameRecords(job, before, after, effects, published.rejected, {SynchronizeActiveNamespace});
    AllPassed(job, after, effects);
    ChangedRecorded(job, after, effects);
    ChangedRecorded(job, before, effects);
    RejectedAllDone(job, after, published.rejected);
  }

  /** The interruption at a synchronization of a restarted run; unlike a first
      run it passes the status on as it is. */
  function ResynchronizedAt(published: PublishedAttempt, effects: seq<EffectResult>, status: Status): InterruptedAttempt {
    InterruptedAttempt(published, effects,
                       if status.StatusIndeterminate? then DurabilityIndeterminateThere else DurabilityUnconfirmedThere,
                       published.durability.(active := status))
  }

  /** Something changed, everything has to be durable, and the journal records
      that the active namespace is merely visible.  A restart cannot say what
      interrupted such an attempt. */
  predicate MerelyVisible(job: Job, ledger: Ledger) {
    ActiveChanged(job, ledger) && AllDomainsRequired(job.control) && SynchronizedAs(ledger, Visible)
  }

  /** The journal of an attempt that may have been handed to recovery. */
  predicate GivenUp(before: Ledger, after: Ledger) {
    after == before || after == before.(state := RecoveryPending)
  }

  /** Concludes the active phase of a restarted run.  Over a synchronization on
      record as merely visible it hands the attempt to recovery and throws. */
  method ConcludeReexecution(app: Application, published: PublishedAttempt, view: View, effects: seq<EffectResult>)
    returns (r: Flow<ActiveExecution>)
    requires app.Open() && Reexecuting(app.job, app.ledger, published, view, effects) && |effects| == |app.job.active|
    requires RecoverIdle(app.ledger) && Forward(app.ledger.state) && ViewNamespace(view, app.ledger)
    modifies app, app.store, app.history
    ensures r.Crashed? ==> app.MayCrash()
    ensures app.Safe()
    ensures r.Live? ==> app.Open() && RecoverIdle(app.ledger) && OnlyChanged(old(app.ledger), app.ledger, {SynchronizeActiveNamespace})
    ensures r.Live? && r.value.Stopped? ==> Interruptible(app.job, app.ledger, r.value.interrupted)
    ensures r.Live? && r.value.Complete? ==>
              Remutated(app.job, app.ledger, r.value.mutated) && r.value.mutated.published == published
    ensures r.Live? ==> !MerelyVisible(app.job, app.ledger) && !old(MerelyVisible(app.job, app.ledger))
    ensures r.Thrown? ==> (r.fault == BackendFault && !app.backend.Honest())
                          || (r.fault == PhaseRefused && MerelyVisible(app.job, app.ledger) && app.ledger.state.RecoveryPending?)
    ensures old(MerelyVisible(app.job, app.ledger)) ==> GivenUp(old(app.ledger), app.ledger)
    ensures old(MerelyVisible(app.job, app.ledger)) && app.backend.Honest() && !r.Crashed? ==>
              r == Thrown(PhaseRefused) && app.ledger == old(app.ledger).(state := RecoveryPending)
  {
    hide Inv, StoredParts, Application.AwareOf, Attests;
    ghost var before := app.ledger;
    ReexecutedAll(app.job, before, before, published, view, effects);
    var active := if Changed(effects) then Visible else NotAttempted;
    if active.Visible? && AllDomainsRequired(app.job.control) {
      active :- ResynchronizeActive(app, view);
    }
    ReexecutedAll(app.job, before, app.ledger, published, view, effects);
    r := ConcludeSynchronized(app, MutatedAttempt(published, effects, published.durability.(active := active)));
  }

  lemma VisibleKept(job: Job, before: Ledger, after: Ledger)
    requires OnlyChanged(before, after, {})
    ensures MerelyVisible(job, after) <==> MerelyVisible(job, before)
  {
    assert forall p :: Recorded(after, PublishActiveObject, p) == Recorded(before, PublishActiveObject, p);
  }

  /** A merely visible synchronization cannot be constructed as an
      interruption. */
  lemma ResynchronizedFits(job: Job, ledger: Ledger, m: MutatedAttempt)
    requires Mutated(job, ledger, m) && !m.durability.active.NotAttempted? && m.durability.active != Confirmed
    ensures Constructible(job, ResynchronizedAt(m.published, m.effects, m.durability.active)) <==> !m.durability.active.Visible?
  {
  }

  /** The status in hand is the one on record. */
  ghost predicate StatusKnown(job: Job, ledger: Ledger, m: MutatedAttempt) {
    && (ActiveChanged(job, ledger) <==> Changed(m.effects))
    && m.durability == m.published.durability.(active := m.durability.active)
    && if !Changed(m.effects) then m.durability.active.NotAttempted?
       else if !AllDomainsRequired(job.control) then m.durability.active.Visible?
       else SynchronizedAs(ledger, m.durability.active) && !m.durability.active.NotAttempted?
  }

  /** Stops at a synchronization that was not confirmed, or finishes. */
  method ConcludeSynchronized(app: Application, m: MutatedAttempt) returns (r: Flow<ActiveExecution>)
    requires app.Open() && Mutated(app.job, app.ledger, m) && RetainedFits(app.job, m.effects) && RecoverIdle(app.ledger)
    requires Forward(app.ledger.state) && RejectedBehind(app.job, app.ledger) && StatusKnown(app.job, app.ledger, m)
    modifies app, app.store, app.history
    ensures r.Crashed? ==> app.MayCrash()
    ensures app.Safe()
    ensures r.Live? ==> app.Open() && RecoverIdle(app.ledger) && OnlyChanged(old(app.ledger), app.ledger, {})
    ensures r.Live? && r.value.Stopped? ==> Interruptible(app.job, app.ledger, r.value.interrupted)
    ensures r.Live? && r.value.Complete? ==>
              Remutated(app.job, app.ledger, r.value.mutated) && r.value.mutated.published == m.published
    ensures r.Live? ==> !MerelyVisible(app.job, app.ledger)
    ensures r.Thrown? ==> r.fault == PhaseRefused && MerelyVisible(app.job, app.ledger)
                          && app.ledger == old(app.ledger).(state := RecoveryPending)
    ensures old(MerelyVisible(app.job, app.ledger)) ==> GivenUp(old(app.ledger), app.ledger)
  {
    hide Inv, StoredParts, Application.AwareOf, Attests;
    if Changed(m.effects) && AllDomainsRequired(app.job.control) && m.durability.active != Confirmed {
      ResynchronizedFits(app.job, app.ledger, m);
      ghost var before := app.ledger;
      r := InterruptResynchronized(app, m);
      return;
    }
    r := FinishReexecution(app, m);
  }

  method InterruptResynchronized(app: Application, m: MutatedAttempt) returns (r: Flow<ActiveExecution>)
    requires app.Open() && Mutated(app.job, app.ledger, m) && RetainedFits(app.job, m.effects) && RecoverIdle(app.ledger)
    requires Forward(app.ledger.state) && RejectedBehind(app.job, app.ledger) && StatusKnown(app.job, app.ledger, m)
    requires Changed(m.effects) && AllDomainsRequired(app.job.control) && m.durability.active != Confirmed
    modifies app, app.store, app.history
    ensures r.Crashed? ==> app.MayCrash()
    ensures app.Safe()
    ensures r.Live? ==> r.value.Stopped? && app.Open() && RecoverIdle(app.ledger) && OnlyChanged(old(app.ledger), app.ledger, {})
                        && Interruptible(app.job, app.ledger, r.value.interrupted)
    ensures r.Live? ==> !MerelyVisible(app.job, app.ledger)
    ensures r.Thrown? ==> r.fault == PhaseRefused && MerelyVisible(app.job, app.ledger)
                          && app.ledger == old(app.ledger).(state := RecoveryPending)
    ensures old(MerelyVisible(app.job, app.ledger)) ==> GivenUp(old(app.ledger), app.ledger)
  {
    hide Inv, StoredParts, Application.AwareOf, Attests;
    ResynchronizedFits(app.job, app.ledger, m);
    ghost var before := app.ledger;
    var stopped := Interrupt(app, ResynchronizedAt(m.published, m.effects, m.durability.active));
    if stopped.Crashed? {
      return Crashed;
    }
    VisibleKept(app.job, before, app.ledger);
    if stopped.Thrown? {
      return Thrown(stopped.fault);
    }
    app.IsSafe();
    return Live(Stopped(stopped.value));
  }

  /** What a concluded active phase has behind it. */
  lemma ReexecutedBehind(job: Job, ledger: Ledger, m: MutatedAttempt)
    requires Mutated(job, ledger, m) && StatusKnown(job, ledger, m)
    requires Changed(m.effects) && AllDomainsRequired(job.control) ==> m.durability.active == Confirmed
    ensures ActiveBehind(job, ledger) && !MerelyVisible(job, ledger)
    ensures forall state :: PastActive(state) ==> MutatedOk(state, m.effects, job.active, m.durability.active)
  {
    AllPassed(job, ledger, m.effects);
  }

  method FinishReexecution(app: Application, m: MutatedAttempt) returns (r: Flow<ActiveExecution>)
    requires app.Open() && Mutated(app.job, app.ledger, m) && RetainedFits(app.job, m.effects) && RecoverIdle(app.ledger)
    requires Forward(app.ledger.state) && RejectedBehind(app.job, app.ledger) && StatusKnown(app.job, app.ledger, m)
    requires Changed(m.effects) && AllDomainsRequired(app.job.control) ==> m.durability.active == Confirmed
    modifies app, app.store, app.history
    ensures r.Crashed? ==> app.MayCrash()
    ensures app.Safe()
    ensures r.Live? ==> r.value.Complete? && app.Open() && RecoverIdle(app.ledger) && OnlyChanged(old(app.ledger), app.ledger, {})
                        && Remutated(app.job, app.ledger, r.value.mutated) && r.value.mutated.published == m.published
    ensures r.Live? ==> !MerelyVisible(app.job, app.ledger)
    ensures !r.Thrown?
  {
    hide Inv, StoredParts, Application.AwareOf, Attests, MerelyVisible, MutatedOk, ActiveBehind, RejectedBehind;
    ghost var before := app.ledger;
    ReexecutedBehind(app.job, app.ledger, m);
    var state := app.State();
    if !state.ResultObserved? {
      var visible :- PublishState(app, EffectsVisible);
    }
    VisibleKept(app.job, before, app.ledger);
    MutatedSame(app.job, before, app.ledger, m, {});
    UnchangedKinds(app.job, before, app.ledger, {}, {});
    app.IsSafe();
    if !MutatedOk(if state.ResultObserved? then state else EffectsVisible, m.effects, app.job.active, m.durability.active) {
      return Thrown(PhaseRefused);
    }
    return Live(Complete(m));
  }

  /** The active phase of a restarted run. */
  method ResumeExecute(app: Application, published: PublishedAttempt, view: View) returns (r: Flow<ActiveExecution>)
    requires app.Open() && Republished(app.job, app.ledger, published) && RecoverIdle(app.ledger)
    requires Knows(view, app.ledger, {PublishActiveObject}) && ViewNamespace(view, app.ledger) && Forward(app.ledger.state)
    modifies app, app.store, app.history, app.backend
    ensures r.Crashed? ==> app.MayCrash()
    ensures app.Safe()
    ensures r.Live? ==> app.Open() && RecoverIdle(app.ledger) && OnlyChanged(old(app.ledger), app.ledger, ActiveKinds())
    ensures r.Live? && r.value.Stopped? ==> Interruptible(app.job, app.ledger, r.value.interrupted)
    ensures r.Live? && r.value.Complete? ==>
              Remutated(app.job, app.ledger, r.value.mutated) && r.value.mutated.published == published
    ensures r.Live? ==> !old(ActivePassed(app.job, app.ledger) && MerelyVisible(app.job, app.ledger))
    ensures r.Thrown? ==> (r.fault == BackendFault && !app.backend.Honest())
                          || (r.fault == PhaseRefused && MerelyVisible(app.job, app.ledger) && app.ledger.state.RecoveryPending?)
    ensures old(ActivePassed(app.job, app.ledger) && MerelyVisible(app.job, app.ledger)) ==> GivenUp(old(app.ledger), app.ledger)
    ensures old(ActivePassed(app.job, app.ledger) && MerelyVisible(app.job, app.ledger)) && app.backend.Honest() && !r.Crashed? ==>
              r == Thrown(PhaseRefused) && app.ledger == old(app.ledger).(state := RecoveryPending)
  {
    hide Inv, StoredParts, Application.AwareOf, Attests;
    var executed :- ReexecuteEach(app, published, view);
    if executed.1.Some? {
      app.IsSafe();
      return Live(Stopped(executed.1.value));
    }
    r := ConcludeReexecution(app, published, view, executed.0);
  }

  // ---------------------------------------------------------------- the first cause on record

  /** The effects of the earlier runs, up to the first that did not go
      through. */
  method RetainedEffects(app: Application, view: View) returns (r: Flow<seq<EffectResult>>)
    requires app.Open() && Knows(view, app.ledger, {PublishActiveObject})
    ensures r.Live? ==> EffectsRecorded(app.job, app.ledger, r.value) && RetainedFits(app.job, r.value) && StopsLast(r.value)
    ensures !r.Crashed?
    ensures r.Thrown? ==> r.fault == BackendFault && !app.backend.Honest()
  {
    hide Inv, StoredParts, Application.AwareOf, Attests;
    var effects: seq<EffectResult> := [];
    for i := 0 to |app.job.active|
      invariant |effects| == i && SemanticallyComplete(effects) && RetainedFits(app.job, effects)
      invariant EffectsMatch(app.job, app.ledger, effects)
    {
      var next :- RetainedEffect(app, view, i);
      if next.None? {
        LaterIdle(app, i);
        return Live(effects);
      }
      effects := effects + [EffectResult(app.job.active[i], next.value)];
      if next.value.Failed? || next.value.Indeterminate? {
        LaterIdle(app, i);
        return Live(effects);
      }
    }
    return Live(effects);
  }

  /** The effects are what the journal says about the first of the schedule. */
  ghost predicate EffectsMatch(job: Job, ledger: Ledger, effects: seq<EffectResult>) {
    && |effects| <= |job.active|
    && forall i :: 0 <= i < |effects| ==>
         effects[i].path == job.active[i] && Recorded(ledger, PublishActiveObject, job.active[i]) == Some(effects[i].outcome)
  }

  /** Only the last effect may not have gone through. */
  predicate StopsLast(effects: seq<EffectResult>) {
    forall i :: 0 <= i < |effects| - 1 ==> effects[i].outcome.Completed? || effects[i].outcome.ConditionalRetained?
  }

  /** What the journal says about one effect, an intent without a terminal
      event being uncertain. */
  method RetainedEffect(app: Application, view: View, i: nat) returns (r: Flow<Option<Outcome>>)
    requires app.Open() && Knows(view, app.ledger, {PublishActiveObject}) && i < |app.job.active|
    ensures r.Live? ==> r.value == Recorded(app.ledger, PublishActiveObject, app.job.active[i])
                        && (r.value == Some(ConditionalRetained) ==> MayRetain(app.job.plan, app.job.active[i]))
    ensures !r.Crashed?
    ensures r.Thrown? ==> r.fault == BackendFault && !app.backend.Honest()
  {
    var p := app.job.active[i];
    SoundFacts(app.job, app.seed, app.ledger, app.backend.trace, PublishActiveObject, p);
    var progress := app.ProgressFor(ActiveKey(p));
    if !progress.intended {
      return Live(None);
    }
    var outcome := if progress.terminal.None? then Indeterminate else FactOutcome(FactAt(view, ActiveKey(p)).value);
    if outcome.ConditionalRetained? && !MayRetain(app.job.plan, p) {
      RetentionHonest(app, p);
      return Thrown(BackendFault);
    }
    return Live(Some(outcome));
  }

  datatype Found = Found(interruption: Interruption, active: Status)

  predicate SomeActive(job: Job, ledger: Ledger, outcome: Outcome) {
    exists p :: p in job.active && Recorded(ledger, PublishActiveObject, p) == Some(outcome)
  }

  function FoundSynchronization(ledger: Ledger): Option<Found> {
    match At(ledger, ActiveSync())
    case Idle => None
    case Intended => Some(Found(DurabilityIndeterminateThere, StatusIndeterminate))
    case Done(EventCompleted, _) => None
    case Done(EventIndeterminate, _) => Some(Found(DurabilityIndeterminateThere, StatusIndeterminate))
    case Done(_, _) => Some(Found(DurabilityUnconfirmedThere, Unconfirmed))
  }

  /** The first planned path, in plan order, whose observation failed or is
      uncertain. */
  function FoundObservation(plan: Plan, ledger: Ledger): Option<Found> {
    if plan == [] then None
    else
      match At(ledger, ObserveKey(plan[0].path))
      case Done(EventFailed, _) => Some(Found(ObservationMismatch, ledger.durability.active))
      case Intended | Done(EventIndeterminate, _) => Some(Found(ObservationIndeterminate, StatusIndeterminate))
      case _ => FoundObservation(plan[1..], ledger)
  }

  /** What stopped the earlier runs, from the journal alone: an active effect,
      else the active synchronization, else an observation. */
  function FoundIn(job: Job, ledger: Ledger): Option<Found> {
    if SomeActive(job, ledger, Failed) then Some(Found(EffectFailed, ledger.durability.active))
    else if SomeActive(job, ledger, Indeterminate) then Some(Found(EffectIndeterminate, StatusIndeterminate))
    else if FoundSynchronization(ledger).Some? then FoundSynchronization(ledger)
    else FoundObservation(job.plan, ledger)
  }

  /** The interruption found in a journal cannot be constructed.  After a failed
      effect that happens when the replay facts add up to an active durability
      which is neither unattempted nor visible; at an uncertain observation it
      happens always. */
  predicate RestartRefused(job: Job, ledger: Ledger) {
    match FoundIn(job, ledger)
    case None => true
    case Some(Found(EffectFailed, active)) => !active.NotAttempted? && !active.Visible?
    case Some(Found(ObservationMismatch, active)) => !active.NotAttempted? && !active.Visible? && !active.Confirmed?
    case Some(Found(ObservationIndeterminate, _)) => true
    case Some(_) => false
  }

  method FindObservation(app: Application, view: View) returns (found: Option<Found>)
    requires app.Open() && view.durability == app.ledger.durability
    ensures found == FoundObservation(app.job.plan, app.ledger)
  {
    hide Inv, StoredParts, Application.AwareOf, Attests;
    assert app.job.plan[0..] == app.job.plan;
    for i := 0 to |app.job.plan|
      invariant FoundObservation(app.job.plan, app.ledger) == FoundObservation(app.job.plan[i..], app.ledger)
    {
      var key := ObserveKey(app.job.plan[i].path);
      assert PlanPaths(app.job.plan)[i] == app.job.plan[i].path;
      assert app.job.plan[i..][1..] == app.job.plan[i + 1..];
      var progress := app.ProgressFor(key);
      if progress.terminal == Some(EventFailed) {
        return Some(Found(ObservationMismatch, view.durability.active));
      }
      if progress.terminal == Some(EventIndeterminate) || (progress.intended && progress.terminal.None?) {
        return Some(Found(ObservationIndeterminate, StatusIndeterminate));
      }
    }
    return None;
  }

  lemma UndeclaredIdle(app: Application, key: Key)
    requires app.Open() && !JobDeclares(app.job, key)
    ensures At(app.ledger, key).Idle?
  {
    SoundMeans(app.job, app.seed, app.ledger, app.backend.trace);
  }

  method FindSynchronization(app: Application) returns (found: Option<Found>)
    requires app.Open()
    ensures found == FoundSynchronization(app.ledger)
  {
    if !JobDeclares(app.job, ActiveSync()) {
      UndeclaredIdle(app, ActiveSync());
      return None;
    }
    var progress := app.ProgressFor(ActiveSync());
    if progress.intended && progress.terminal != Some(EventCompleted) {
      return if progress.terminal == Some(EventIndeterminate) || progress.terminal.None?
        then Some(Found(DurabilityIndeterminateThere, StatusIndeterminate))
        else Some(Found(DurabilityUnconfirmedThere, Unconfirmed));
    }
    return None;
  }

  /** The results in memory tell which outcomes are on record. */
  lemma LastTells(job: Job, ledger: Ledger, effects: seq<EffectResult>, outcome: Outcome)
    requires EffectsRecorded(job, ledger, effects) && StopsLast(effects) && (outcome.Failed? || outcome.Indeterminate?)
    ensures SomeActive(job, ledger, outcome) <==> effects != [] && effects[|effects| - 1].outcome == outcome
  {
    if SomeActive(job, ledger, outcome) {
      var p :| p in job.active && Recorded(ledger, PublishActiveObject, p) == Some(outcome);
      var i :| 0 <= i < |job.active| && job.active[i] == p;
      assert i < |effects|;
    }
    if effects != [] && effects[|effects| - 1].outcome == outcome {
      assert job.active[|effects| - 1] in job.active;
    }
  }

  method FindInterruption(app: Application, view: View, effects: seq<EffectResult>) returns (found: Option<Found>)
    requires app.Open() && view.durability == app.ledger.durability
    requires EffectsRecorded(app.job, app.ledger, effects) && StopsLast(effects)
    ensures found == FoundIn(app.job, app.ledger)
  {
    hide Inv, StoredParts, Application.AwareOf, Attests, FoundObservation, FoundSynchronization, EffectsRecorded, StopsLast;
    LastTells(app.job, app.ledger, effects, Failed);
    LastTells(app.job, app.ledger, effects, Indeterminate);
    if effects != [] {
      var last := effects[|effects| - 1].outcome;
      if last.Failed? {
        return Some(Found(EffectFailed, view.durability.active));
      }
      if last.Indeterminate? {
        return Some(Found(EffectIndeterminate, StatusIndeterminate));
      }
    }
    found := FindSynchronization(app);
    if found.None? {
      found := FindObservation(app, view);
    }
  }

  /** An observation was begun. */
  lemma {:induction false} FoundBegun(plan: Plan, ledger: Ledger)
    requires FoundObservation(plan, ledger).Some?
    ensures exists p :: !SlotAt(ledger, ObserveResult, p).Idle?
  {
    if At(ledger, ObserveKey(plan[0].path)).Idle? {
      FoundBegun(plan[1..], ledger);
    } else {
      assert !SlotAt(ledger, ObserveResult, plan[0].path).Idle?;
    }
  }

  /** A synchronization or an observation interrupts only after all effects. */
  lemma FoundAfterAll(app: Application, effects: seq<EffectResult>)
    requires app.Open() && EffectsRecorded(app.job, app.ledger, effects) && StopsLast(effects)
    requires !SomeActive(app.job, app.ledger, Failed) && !SomeActive(app.job, app.ledger, Indeterminate)
    requires FoundIn(app.job, app.ledger).Some?
    ensures |effects| == |app.job.active| && SemanticallyComplete(effects)
  {
    Behind(app);
    LastTells(app.job, app.ledger, effects, Failed);
    LastTells(app.job, app.ledger, effects, Indeterminate);
    if FoundSynchronization(app.ledger).None? {
      FoundBegun(app.job.plan, app.ledger);
    }
    assert ActivePassed(app.job, app.ledger);
    assert |effects| < |app.job.active| ==> Passed(app.ledger, app.job.active[|effects|]);
    forall e | e in effects ensures e.outcome.Completed? || e.outcome.ConditionalRetained? {
      var i :| 0 <= i < |effects| && effects[i] == e;
    }
  }

  /** The interruption that was found can be constructed exactly unless the
      restart is refused. */
  lemma FoundFits(app: Application, it: InterruptedAttempt)
    requires app.Open() && EffectsRecorded(app.job, app.ledger, it.effects) && StopsLast(it.effects)
    requires FoundIn(app.job, app.ledger) == Some(Found(it.interruption, it.durability.active))
    ensures Constructible(app.job, it) <==> !RestartRefused(app.job, app.ledger)
  {
    LastTells(app.job, app.ledger, it.effects, Failed);
    LastTells(app.job, app.ledger, it.effects, Indeterminate);
    if !SomeActive(app.job, app.ledger, Failed) && !SomeActive(app.job, app.ledger, Indeterminate) {
      FoundAfterAll(app, it.effects);
      FoundKinds(app.job, app.ledger);
    }
  }

  lemma {:induction false} ObservationKinds(plan: Plan, ledger: Ledger)
    ensures FoundObservation(plan, ledger).Some? ==>
              FoundObservation(plan, ledger).value.interruption in {ObservationMismatch, ObservationIndeterminate}
    ensures FoundObservation(plan, ledger).Some? && FoundObservation(plan, ledger).value.interruption.ObservationIndeterminate? ==>
              FoundObservation(plan, ledger).value.active.StatusIndeterminate?
  {
    if plan != [] {
      ObservationKinds(plan[1..], ledger);
    }
  }

  lemma FoundKinds(job: Job, ledger: Ledger)
    requires !SomeActive(job, ledger, Failed) && !SomeActive(job, ledger, Indeterminate)
    ensures FoundIn(job, ledger).Some? ==> !AtEffect(FoundIn(job, ledger).value.interruption)
    ensures FoundIn(job, ledger).Some? && Uncertain(FoundIn(job, ledger).value.interruption) ==>
              FoundIn(job, ledger).value.active.StatusIndeterminate?
    ensures FoundIn(job, ledger).Some? && FoundIn(job, ledger).value.interruption.DurabilityUnconfirmedThere? ==>
              FoundIn(job, ledger).value.active.Unconfirmed?
  {
    ObservationKinds(job.plan, ledger);
  }

  /** What a refused restart leaves: the journal as it was or, unless recovery
      had begun, in the state of the interruption that was found. */
  function RefusalLeaves(job: Job, ledger: Ledger): Ledger {
    match FoundIn(job, ledger)
    case Some(Found(interruption, _)) =>
      if ledger.state.Recovering? then ledger else ledger.(state := InterruptedIn(interruption))
    case None => ledger
  }

  /** What is found does not depend on the state. */
  lemma {:induction false} ObservationSame(plan: Plan, ledger: Ledger, state: State)
    ensures FoundObservation(plan, ledger.(state := state)) == FoundObservation(plan, ledger)
  {
    if plan != [] {
      ObservationSame(plan[1..], ledger, state);
    }
  }

  lemma FoundSame(job: Job, ledger: Ledger, state: State)
    ensures FoundIn(job, ledger.(state := state)) == FoundIn(job, ledger)
    ensures RestartRefused(job, ledger.(state := state)) <==> RestartRefused(job, ledger)
  {
    ObservationSame(job.plan, ledger, state);
    assert forall p :: Recorded(ledger.(state := state), PublishActiveObject, p) == Recorded(ledger, PublishActiveObject, p);
  }

  /** A merely visible synchronization can be recovered from once the attempt
      was handed to recovery. */
  lemma VisibleRecovers(job: Job, ledger: Ledger)
    requires MerelyVisible(job, ledger) && ActivePassed(job, ledger)
    ensures FoundIn(job, ledger) == Some(Found(DurabilityUnconfirmedThere, Unconfirmed))
    ensures !RestartRefused(job, ledger)
  {
  }

  /** Rebuilds the interrupted attempt from the journal.  Unless the backend
      broke its contract it is refused exactly when the interruption found in
      the journal cannot be constructed. */
  method RestartInterruption(app: Application, published: PublishedAttempt, view: View) returns (r: Flow<InterruptedAttempt>)
    requires app.Open() && Republished(app.job, app.ledger, published) && Shows(view, app.ledger)
    requires app.ledger.state.Mutating? || app.ledger.state.RecoveryPending? || app.ledger.state.Recovering?
    modifies app, app.store, app.history
    ensures r.Crashed? ==> app.MayCrash()
    ensures app.Safe()
    ensures r.Live? ==> app.Open() && Interruptible(app.job, app.ledger, r.value) && OnlyChanged(old(app.ledger), app.ledger, {})
    ensures r.Live? ==> old(FoundIn(app.job, app.ledger)) == Some(Found(r.value.interruption, r.value.durability.active))
    ensures r.Live? ==> !old(RestartRefused(app.job, app.ledger))
    ensures r.Thrown? ==> (r.fault == BackendFault && !app.backend.Honest())
                          || (r.fault == PhaseRefused && old(RestartRefused(app.job, app.ledger)))
    ensures app.ledger == old(app.ledger) || app.ledger == RefusalLeaves(app.job, old(app.ledger))
    ensures r == Thrown(PhaseRefused) ==> app.ledger == RefusalLeaves(app.job, old(app.ledger))
    ensures app.backend.Honest() && !r.Crashed? ==> (r == Thrown(PhaseRefused) <==> old(RestartRefused(app.job, app.ledger)))
  {
    hide Inv, StoredParts, Application.AwareOf, Attests, FoundObservation, FoundSynchronization, EffectsRecorded, StopsLast, RestartRefused;
    app.IsSafe();
    var effects :- RetainedEffects(app, view);
    var found := FindInterruption(app, view, effects);
    if found.None? {
      NothingFound(app.job, app.ledger);
      return Thrown(PhaseRefused);
    }
    var it := InterruptedAttempt(published, effects, found.value.interruption,
                                 published.durability.(active := found.value.active));
    FoundFits(app, it);
    r := PublishFound(app, it);
  }

  lemma NothingFound(job: Job, ledger: Ledger)
    requires FoundIn(job, ledger).None?
    ensures RestartRefused(job, ledger)
  {
  }

  lemma RecoveringOnly(app: Application)
    requires app.Open() && !app.ledger.state.Recovering?
    ensures RecoverIdle(app.ledger)
  {
    SoundMeans(app.job, app.seed, app.ledger, app.backend.trace);
  }

  /** Publishes the state of the interruption unless recovery began already,
      and constructs the interrupted attempt. */
  method PublishFound(app: Application, it: InterruptedAttempt) returns (r: Flow<InterruptedAttempt>)
    requires app.Open() && Republished(app.job, app.ledger, it.published)
    requires app.ledger.state.Mutating? || app.ledger.state.RecoveryPending? || app.ledger.state.Recovering?
    requires EffectsRecorded(app.job, app.ledger, it.effects) && RetainedFits(app.job, it.effects)
    modifies app, app.store, app.history
    ensures r.Crashed? ==> app.MayCrash()
    ensures app.Safe()
    ensures r.Live? ==> r.value == it && app.Open() && Interruptible(app.job, app.ledger, it)
                        && OnlyChanged(old(app.ledger), app.ledger, {})
    ensures r.Live? ==> Constructible(app.job, it)
    ensures var published := if old(app.ledger).state.Recovering? then old(app.ledger)
                             else old(app.ledger).(state := InterruptedIn(it.interruption));
            (app.ledger == old(app.ledger) || app.ledger == published) && (!r.Crashed? ==> app.ledger == published)
    ensures r.Thrown? ==> r.fault == PhaseRefused && !Constructible(app.job, it)
  {
    hide Inv, StoredParts, Application.AwareOf, Attests;
    app.IsSafe();
    ghost var before := app.ledger;
    var state := app.State();
    if !state.Recovering? {
      RecoveringOnly(app);
      state := InterruptedIn(it.interruption);
      var published :- PublishState(app, state);
      app.IsSafe();
    }
    if !InterruptionOk(state, it.interruption, it.effects, app.job.active, it.durability.active) {
      return Thrown(PhaseRefused);
    }
    InterruptibleState(app.job, before, app.ledger, it);
    return Live(it);
  }

  // ---------------------------------------------------------------- recovery of a restarted run

  /** The recovered namespace is on record as confirmed. */
  predicate RecoveredConfirmed(ledger: Ledger) {
    CompletedSlot(At(ledger, RecoveredSync()))
  }

  /** The durability that the view reports for the namespace is the one of its
      synchronization after recovery. */
  ghost predicate ViewRecovered(view: View, ledger: Ledger) {
    At(ledger, RecoveredSync()).Done? ==>
      At(ledger, RecoveredSync()).fact == Some(SynchronizationFact(ActiveNamespace, view.durability.active))
  }

  /** After undoing, a restarted run counts an unconfirmed recovered namespace
      as not recovered: the attempt is fully recovered exactly when every
      candidate was undone, exactly, and where all domains have to be durable
      the recovered namespace is confirmed. */
  method FinishResumedRecovery(app: Application, it: InterruptedAttempt, view: View, result: UndoResult) returns (r: Flow<Receipt>)
    requires app.Open() && UndoDone(app.job, app.seed, app.ledger, it, result) && app.job.active != []
    requires ViewRecovered(view, app.ledger)
    modifies app, app.store, app.history
    ensures r.Crashed? ==> app.MayCrash()
    ensures app.Safe()
    ensures r.Live? ==> app.ledger.receipt == Some(r.value) && !r.value.outcome.AttemptCompleted?
    ensures r.Live? ==>
              (r.value.outcome.FailedFullyRecovered? <==>
               result.recovered && result.exact && (AllDomainsRequired(app.job.control) ==> RecoveredConfirmed(app.ledger)))
    ensures r.Live? && result.recovered && AllDomainsRequired(app.job.control) ==>
              (r.value.durability.active.Confirmed? <==> RecoveredConfirmed(app.ledger))
    ensures r.Thrown? ==> r.fault == BackendFault && !app.backend.Honest()
  {
    hide Inv, StoredParts, Application.AwareOf, Attests;
    var durability := if result.recoveries != [] then it.durability.(active := Visible) else it.durability;
    if !result.recovered || !AllDomainsRequired(app.job.control) {
      r := SealUndone(app, it, result, result.recovered, result.indeterminate, durability);
      return;
    }
    ghost var before := app.ledger;
    UndoneAll(app.job, app.seed, app.ledger, it, result);
    var status :- ResynchronizeRecovered(app, view);
    UndoneStays(app.job, app.seed, before, app.ledger, it, result);
    r := SealUndone(app, it, result, status.0.Confirmed?, result.indeterminate || status.1 || status.0.StatusIndeterminate?,
                    durability.(active := status.0));
  }

  /** Where every recovery completed, every candidate was undone. */
  lemma UndoneAll(job: Job, seed: Seed, ledger: Ledger, it: InterruptedAttempt, result: UndoResult)
    requires UndoDone(job, seed, ledger, it, result) && result.recovered
    ensures AllRecovered(ledger, Candidates(ledger, job.active))
  {
    var undo := Candidates(ledger, job.active);
    forall p | p in undo ensures Recorded(ledger, RecoverActiveObject, p) == Some(Completed) {
      var i :| 0 <= i < |undo| && undo[i] == p;
      assert result.recoveries[i].outcome.Completed?;
    }
  }

  /** A recorded status of the recovered namespace. */
  lemma RecoveredBefore(app: Application, view: View)
    requires app.Open() && At(app.ledger, RecoveredSync()).Done? && ViewRecovered(view, app.ledger)
    ensures At(app.ledger, RecoveredSync()).kind == StatusTerminal(view.durability.active)
  {
    SoundMeans(app.job, app.seed, app.ledger, app.backend.trace);
    var slot := At(app.ledger, RecoveredSync());
    assert SlotFits(app.job, RecoveredSync(), slot.kind, slot.fact);
  }

  /** The recovered namespace: synchronized before, uncertain, or now. */
  method ResynchronizeRecovered(app: Application, view: View) returns (r: Flow<(Status, bool)>)
    requires app.Open() && app.ledger.state.Recovering? && app.job.active != [] && AllDomainsRequired(app.job.control)
    requires ViewRecovered(view, app.ledger) && AllRecovered(app.ledger, Candidates(app.ledger, app.job.active))
    modifies app, app.store, app.history
    ensures r.Crashed? ==> app.MayCrash()
    ensures app.Safe()
    ensures r.Live? ==> app.Open() && app.ledger.state.Recovering?
                        && OnlyChanged(old(app.ledger), app.ledger, {SynchronizeRecoveredNamespace})
                        && (r.value.0.Confirmed? <==> RecoveredConfirmed(app.ledger))
    ensures r.Thrown? ==> r.fault == BackendFault && !app.backend.Honest()
  {
    hide Inv, StoredParts, Application.AwareOf, Attests;
    app.IsSafe();
    var progress := app.ProgressFor(RecoveredSync());
    if progress.terminal.Some? {
      RecoveredBefore(app, view);
      return Live((view.durability.active, false));
    }
    if progress.intended {
      return Live((StatusIndeterminate, true));
    }
    var status :- RunSynchronization(app, Recovering, ActiveNamespace, SynchronizeRecoveredNamespace);
    app.IsSafe();
    return Live((status, false));
  }

  /** Goes on undoing and seals the ending. */
  method ResumeUndo(app: Application, it: InterruptedAttempt, view: View, candidates: seq<Path>) returns (r: Flow<Receipt>)
    requires app.Open() && Faithful(app.job, app.ledger, it) && StateMayFollow(app.ledger.state, Recovering)
    requires candidates == Candidates(app.ledger, app.job.active) && candidates != []
    requires Knows(view, app.ledger, {RecoverActiveObject}) && ViewRecovered(view, app.ledger)
    modifies app, app.store, app.history, app.backend
    ensures r.Crashed? ==> app.MayCrash()
    ensures app.Safe()
    ensures r.Live? ==> app.ledger.receipt == Some(r.value) && !r.value.outcome.AttemptCompleted?
    ensures r.Thrown? ==> r.fault == BackendFault && !app.backend.Honest()
  {
    hide Inv, StoredParts, Application.AwareOf, Attests;
    CandidatesMembers(app.ledger, app.job.active);
    assert candidates[0] in app.job.active;
    var result :- Undo(app, it, view, candidates);
    r := FinishResumedRecovery(app, it, view, result);
  }

  /** Recovery of a restarted run: no candidate that an earlier run undid or
      began to undo is undone again. */
  method ResumeRecover(app: Application, it: InterruptedAttempt, view: View) returns (r: Flow<Receipt>)
    requires app.Open() && Interruptible(app.job, app.ledger, it)
    requires Knows(view, app.ledger, {RecoverActiveObject}) && ViewRecovered(view, app.ledger)
    modifies app, app.store, app.history, app.backend
    ensures r.Crashed? ==> app.MayCrash()
    ensures app.Safe()
    ensures r.Live? ==> app.ledger.receipt == Some(r.value) && !r.value.outcome.AttemptCompleted?
    ensures r.Thrown? ==> (r.fault == BackendFault && !app.backend.Honest())
                          || (r.fault == Fault.ReceiptRefused && RetainedOnly(app.job, app.ledger) && app.ledger == old(app.ledger))
  {
    hide Inv, StoredParts, Application.AwareOf, Attests;
    InterruptibleClassified(app.job, app.seed, app.ledger, it);
    RetainedOnRecord(app.job, app.ledger, it);
    var candidates := RecoveryCandidates(it.effects);
    if candidates == [] || !RecoverySelected(app.job.control) {
      r := SealWithoutRecovery(app, it);
    } else {
      r := ResumeUndo(app, it, view, candidates);
    }
  }
}
