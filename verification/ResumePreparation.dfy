/** The preparation phase of a restarted run. */
module ResumePreparation {
  import opened Wrappers
  import opened Paths
  import opened Plans
  import opened Journal
  import opened Record
  import opened History
  import opened Ledgers
  import opened Jobs
  import opened Protocol
  import opened Receipts
  import opened Backend
  import opened Applications
  import opened RestartView
  import opened Phases
  import opened Preparation
  import opened Apply

  // ---------------------------------------------------------------- captures

  function CaptureKey(p: Path): Key {
    Key(CaptureOldObject, Some(p))
  }

  /** The capture result a replay fact stands for. */
  function RetainedCapture(fact: Fact): CaptureResult
    requires fact.CaptureFact?
  {
    CaptureResult(fact.outcome, fact.exact, true)
  }

  /** A completed capture in the journal is a completed capture of its
      request. */
  lemma CompletedCapture(job: Job, ledger: Ledger, i: nat)
    requires FactsFit(job, ledger) && i < |job.captures| && Distinct(CapturePaths(job.captures))
    requires CompletedSlot(At(ledger, CaptureKey(job.captures[i].path)))
    ensures var slot := At(ledger, CaptureKey(job.captures[i].path));
            && slot.fact.Some? && slot.fact.value.CaptureFact?
            && CaptureRecorded(job.captures[i], job.control, RetainedCapture(slot.fact.value), slot)
  {
    var p := job.captures[i].path;
    var slot := At(ledger, CaptureKey(p));
    assert SlotFits(job, CaptureKey(p), slot.kind, slot.fact);
    var request :| request in job.captures && request.path == p
                   && slot.kind == CaptureTerminal(request, job.control, slot.fact.value.outcome, slot.fact.value.exact);
    var j :| 0 <= j < |job.captures| && job.captures[j] == request;
    assert CapturePaths(job.captures)[j] == CapturePaths(job.captures)[i];
  }

  /** The captures of an attempt that was prepared before. */
  method RetainedCaptures(app: Application, view: View) returns (r: Flow<seq<CaptureResult>>)
    requires app.Alive() && Shows(view, app.ledger) && !app.ledger.state.Preparing? && !app.ledger.state.Abandoned?
    ensures r.Live? && AllCaptured(app.job, app.ledger, r.value)
  {
    hide Inv, StoredParts, Application.AwareOf, Attests;
    SoundLedger(app);
    JobFacts(app);
    var captures: seq<CaptureResult> := [];
    for i := 0 to |app.job.captures|
      invariant |captures| == i && CapturesRecorded(app.job, app.ledger, captures)
    {
      var key := CaptureKey(app.job.captures[i].path);
      RequestNamed(app.job, app.job.captures[i]);
      assert JobDeclares(app.job, key);
      CompletedCapture(app.job, app.ledger, i);
      var fact := FactAt(view, key);
      if fact.None? || !fact.value.CaptureFact? || !fact.value.outcome.Completed? {
        return Thrown(PhaseRefused);
      }
      captures := captures + [RetainedCapture(fact.value)];
    }
    return Live(captures);
  }

  function UnfinishedStatus(kind: EventKind): Status {
    if kind.EventIndeterminate? then StatusIndeterminate else Unconfirmed
  }

  /** Captures what is not captured yet; a failed capture, of this run or of
      an earlier one, ends the attempt. */
  method ResumeCaptures(app: Application, view: View) returns (r: Flow<Phase<seq<CaptureResult>>>)
    requires app.Open() && app.ledger.state.Preparing? && Knows(view, app.ledger, {CaptureOldObject})
    modifies app, app.store, app.history, app.backend
    ensures r.Crashed? ==> app.MayCrash()
    ensures app.Safe()
    ensures r.Live? && r.value.Sealed? ==> app.ledger.receipt == Some(r.value.receipt)
    ensures r.Live? && r.value.Onward? ==>
              && app.Open() && app.ledger.state.Preparing?
              && OnlyChanged(old(app.ledger), app.ledger, {CaptureOldObject})
              && AllCaptured(app.job, app.ledger, r.value.value)
    ensures r.Thrown? ==> r.fault == BackendFault && !app.backend.Honest()
  {
    hide Inv, StoredParts, Application.AwareOf, Attests;
    JobFacts(app);
    app.IsSafe();
    ghost var first := app.ledger;
    var captures: seq<CaptureResult> := [];
    for i := 0 to |app.job.captures|
      invariant app.Open() && app.ledger.state.Preparing? && app.Safe()
      invariant OnlyChanged(first, app.ledger, {CaptureOldObject})
      invariant |captures| == i && CapturesRecorded(app.job, app.ledger, captures)
      invariant forall j :: i <= j < |app.job.captures| ==>
                              At(app.ledger, CaptureKey(app.job.captures[j].path)) == At(first, CaptureKey(app.job.captures[j].path))
    {
      ghost var before := app.ledger;
      var next :- ResumeCapture(app, view, i);
      CaptureMoves(app.job, before, app.ledger, captures, i, CaptureKey(app.job.captures[i].path));
      if next.1 != EventCompleted {
        var receipt :- FailPreparation(app, Confirmed, NotAttempted, UnfinishedStatus(next.1));
        return Live(Sealed(receipt));
      }
      app.IsSafe();
      captures := captures + [CaptureResult(next.0, next.2, true)];
    }
    return Live(Onward(captures));
  }

  /** One capture: retained from an earlier run, or made now. */
  method ResumeCapture(app: Application, view: View, i: nat) returns (r: Flow<(Outcome, EventKind, bool)>)
    requires app.Open() && app.ledger.state.Preparing? && i < |app.job.captures|
    requires At(app.ledger, CaptureKey(app.job.captures[i].path)).Done? ==>
               FactAt(view, CaptureKey(app.job.captures[i].path)) == At(app.ledger, CaptureKey(app.job.captures[i].path)).fact
    modifies app, app.store, app.history, app.backend
    ensures r.Crashed? ==> app.MayCrash()
    ensures app.Safe()
    ensures r.Live? ==>
              && app.Open() && app.ledger.state.Preparing?
              && (forall other: Key :: other != CaptureKey(app.job.captures[i].path) ==>
                    At(app.ledger, other) == At(old(app.ledger), other))
              && (r.value.1.EventCompleted? ==>
                    && r.value.0.Completed?
                    && CaptureRecorded(app.job.captures[i], app.job.control, CaptureResult(r.value.0, r.value.2, true),
                                       At(app.ledger, CaptureKey(app.job.captures[i].path))))
    ensures r.Thrown? ==> r.fault == BackendFault && !app.backend.Honest()
  {
    hide Inv, StoredParts, Application.AwareOf, Attests;
    JobFacts(app);
    SoundLedger(app);
    app.IsSafe();
    var request := app.job.captures[i];
    var key := CaptureKey(request.path);
    RequestNamed(app.job, request);
    var progress := app.ProgressFor(key);
    if progress.terminal.Some? {
      assert SlotFits(app.job, key, At(app.ledger, key).kind, At(app.ledger, key).fact);
      var fact := FactAt(view, key).value;
      if progress.terminal.value.EventCompleted? {
        CompletedCapture(app.job, app.ledger, i);
      }
      return Live((fact.outcome, progress.terminal.value, fact.exact));
    }
    var result :- RunCapture(app, request, false);
    app.IsSafe();
    return Live((result.outcome, CaptureTerminal(request, app.job.control, result.outcome, result.exact), result.exact));
  }

  // ---------------------------------------------------------------- staging

  /** Whether some staging effect failed, and whether all completed. */
  method StagingSoFar(app: Application) returns (failed: bool, completed: bool)
    requires app.Alive()
    ensures !failed ==> forall p :: p in app.job.stages && At(app.ledger, StageKey(p)).Done? ==>
                                      CompletedSlot(At(app.ledger, StageKey(p)))
    ensures completed ==> forall p :: p in app.job.stages ==> CompletedSlot(At(app.ledger, StageKey(p)))
  {
    failed, completed := false, true;
    for i := 0 to |app.job.stages|
      invariant !failed ==> forall p :: p in app.job.stages[..i] && At(app.ledger, StageKey(p)).Done? ==>
                                          CompletedSlot(At(app.ledger, StageKey(p)))
      invariant completed ==> forall p :: p in app.job.stages[..i] ==> CompletedSlot(At(app.ledger, StageKey(p)))
    {
      var p := app.job.stages[i];
      assert p in app.job.stages;
      var progress := app.ProgressFor(StageKey(p));
      failed := failed || (progress.terminal.Some? && !progress.terminal.value.EventCompleted?);
      completed := completed && progress.terminal == Some(EventCompleted);
    }
    assert app.job.stages[..|app.job.stages|] == app.job.stages;
  }

  function FactOutcomeOr(fact: Option<Fact>, otherwise: Outcome): Outcome {
    if fact.Some? then FactOutcome(fact.value) else otherwise
  }

  /** Staging again may end with other evidence than the part that was durable
      before the crash.  The journal takes the terminal event and the attempt
      stays sound, but the staging facts no longer agree, so that no later
      restart can read this journal. */
  lemma RestagingMayConflict(job: Job, seed: Seed, ledger: Ledger, trace: Trace, p: Path, q: Path, before: nat, again: nat)
    requires Sound(job, seed, ledger, trace) && ledger.state.Preparing? && ledger.receipt.None? && before != again
    requires At(ledger, StageKey(p)) == Done(EventCompleted, Some(StageFact(Completed, before)))
    requires At(ledger, StageKey(q)).Intended? && q in job.stages
    ensures
      var move := Move(StageKey(q), EventCompleted, Some(StageFact(Completed, again)));
      var next := Enter(ledger, Entry(Preparing, Some(move), None, None));
      && EventFits(job, ledger, Preparing, move)
      && Sound(job, seed, next, trace) && !StagesAgree(next)
  {
    var move := Move(StageKey(q), EventCompleted, Some(StageFact(Completed, again)));
    var entry := Entry(Preparing, Some(move), None, None);
    SoundMeans(job, seed, ledger, trace);
    PhaseIdle(job, ledger);
    SoundNeutral(job, seed, ledger, trace, entry);
    var next := Enter(ledger, entry);
    assert At(next, StageKey(q)).Done? && At(next, StageKey(p)) == At(ledger, StageKey(p));
  }

  /** Stages again whatever is not staged yet. */
  method StageAgain(app: Application) returns (r: Flow<Outcome>)
    requires !app.first
    requires app.Open() && app.ledger.state.Preparing? && RecoverIdle(app.ledger)
    requires forall p :: p in app.job.stages && At(app.ledger, StageKey(p)).Done? ==> CompletedSlot(At(app.ledger, StageKey(p)))
    modifies app, app.store, app.history, app.backend
    ensures r.Crashed? ==> app.MayCrash()
    ensures app.Safe()
    ensures r.Live? ==>
              && app.Open() && app.ledger.state.Preparing? && RecoverIdle(app.ledger)
              && OnlyChanged(old(app.ledger), app.ledger, {StageIncomingPayload})
              && (r.value.Completed? ==> Finished(app.job, app.ledger, {StageIncomingPayload}))
    ensures r.Thrown? ==> r.fault == BackendFault && !app.backend.Honest()
  {
    hide Inv, StoredParts, Application.AwareOf, Attests;
    var intended :- IntendStages(app);
    app.IsSafe();
    var result :- app.backend.StagePayloads();
    if result.outcome.ConditionalRetained? {
      return Thrown(BackendFault);
    }
    var concluded :- ConcludeStages(app, result);
    app.IsSafe();
    if result.outcome.Completed? {
      StagesFinished(app.job, app.ledger);
    }
    return Live(result.outcome);
  }

  function StagingStatus(outcome: Outcome): Status {
    if outcome.Indeterminate? then StatusIndeterminate else Unconfirmed
  }

  /** When everything is staged, the staging fact says so. */
  lemma StagedCompleted(app: Application, view: View)
    requires app.Alive() && StagedIs(view, app.ledger) && app.job.selection != []
    requires forall p :: p in app.job.stages ==> CompletedSlot(At(app.ledger, StageKey(p)))
    ensures FactOutcomeOr(view.staged, Failed) == Completed
  {
    SoundLedger(app);
    JobFacts(app);
    var key := StageKey(app.job.stages[0]);
    assert app.job.stages[0] in app.job.stages && CompletedSlot(At(app.ledger, key));
    assert SlotFits(app.job, key, At(app.ledger, key).kind, At(app.ledger, key).fact);
  }

  lemma StagedSame(view: View, before: Ledger, after: Ledger, changed: set<EffectKind>)
    requires StagedIs(view, before) && OnlyChanged(before, after, changed) && StageIncomingPayload !in changed
    ensures StagedIs(view, after)
  {
    assert forall a: Key :: a.kind.StageIncomingPayload? ==> At(after, a) == At(before, a);
  }

  /** The staging of a restarted run: failed before, done before, or done
      again. */
  method ResumeStaging(app: Application, view: View, recovery: Status) returns (r: Flow<Phase<Status>>)
    requires !app.first
    requires app.Open() && app.ledger.state.Preparing? && RecoverIdle(app.ledger) && StagedIs(view, app.ledger)
    modifies app, app.store, app.history, app.backend
    ensures r.Crashed? ==> app.MayCrash()
    ensures app.Safe()
    ensures r.Live? && r.value.Sealed? ==> app.ledger.receipt == Some(r.value.receipt)
    ensures r.Live? && r.value.Onward? ==>
              && app.Open() && app.ledger.state.Preparing? && RecoverIdle(app.ledger)
              && OnlyChanged(old(app.ledger), app.ledger, {StageIncomingPayload})
              && Finished(app.job, app.ledger, {StageIncomingPayload})
              && (r.value.value.NotAttempted? <==> app.job.selection == [])
    ensures r.Thrown? ==> r.fault == BackendFault && !app.backend.Honest()
  {
    hide Inv, StoredParts, Application.AwareOf, Attests;
    JobFacts(app);
    app.IsSafe();
    if app.job.selection == [] {
      StagesFinished(app.job, app.ledger);
      return Live(Onward(NotAttempted));
    }
    var failed, completed := StagingSoFar(app);
    if failed {
      var receipt :- FailPreparation(app, Confirmed, StagingStatus(FactOutcomeOr(view.staged, Failed)), recovery);
      return Live(Sealed(receipt));
    }
    if completed {
      StagedCompleted(app, view);
      if FactOutcomeOr(view.staged, Failed) != Completed {
        return Thrown(PhaseRefused);
      }
      StagesFinished(app.job, app.ledger);
      return Live(Onward(Visible));
    }
    var outcome :- StageAgain(app);
    if !outcome.Completed? {
      var receipt :- FailPreparation(app, Confirmed, StagingStatus(outcome), recovery);
      return Live(Sealed(receipt));
    }
    app.IsSafe();
    return Live(Onward(Visible));
  }

  // ---------------------------------------------------------------- durability

  function TerminalStatus(kind: EventKind): Status {
    match kind
    case EventCompleted => Confirmed
    case EventIndeterminate => StatusIndeterminate
    case _ => Unconfirmed
  }

  /** Makes a used staging domain durable unless an earlier run did. */
  method ResumeDurable(app: Application, domain: Domain, kind: EffectKind) returns (r: Flow<Status>)
    requires app.Open() && app.ledger.state.Preparing? && RecoverIdle(app.ledger)
    requires DomainOf(kind) == Some(domain) && (kind.SynchronizeIncomingStaging? || kind.SynchronizeRecoveryStaging?)
    requires JobDeclares(app.job, Key(kind, None))
    modifies app, app.store, app.history, app.backend
    ensures r.Crashed? ==> app.MayCrash()
    ensures app.Safe()
    ensures r.Live? ==>
              && app.Open() && app.ledger.state.Preparing? && RecoverIdle(app.ledger)
              && OnlyChanged(old(app.ledger), app.ledger, {kind})
              && (r.value.Confirmed? ==> Finished(app.job, app.ledger, {kind}))
    ensures r.Thrown? ==> r.fault == BackendFault && !app.backend.Honest()
  {
    hide Inv, StoredParts, Application.AwareOf, Attests;
    app.IsSafe();
    var progress := app.ProgressFor(Key(kind, None));
    if progress.terminal.Some? {
      return Live(TerminalStatus(progress.terminal.value));
    }
    r := SynchronizePreparation(app, domain, kind);
  }

  /** Both staging domains, then `prepared`. */
  method ResumeDurably(app: Application, captures: seq<CaptureResult>, staged: Status, captured: Status)
    returns (r: Flow<Phase<PreparedAttempt>>)
    requires app.Open() && app.ledger.state.Preparing? && RecoverIdle(app.ledger)
    requires AllCaptured(app.job, app.ledger, captures) && Finished(app.job, app.ledger, {CaptureOldObject, StageIncomingPayload})
    requires staged.NotAttempted? <==> app.job.selection == []
    requires captured.NotAttempted? <==> app.job.captures == []
    modifies app, app.store, app.history, app.backend
    ensures r.Crashed? ==> app.MayCrash()
    ensures app.Safe()
    ensures r.Live? && r.value.Sealed? ==> app.ledger.receipt == Some(r.value.receipt)
    ensures r.Live? && r.value.Onward? ==>
              app.Open() && app.ledger.state.Prepared? && AllCaptured(app.job, app.ledger, r.value.value.captures)
              && OnlyChanged(old(app.ledger), app.ledger, PreparationKinds())
              && r.value.value.durability == PreparedDurability(app.job)
    ensures r.Thrown? ==> r.fault == BackendFault && !app.backend.Honest()
  {
    hide Inv, StoredParts, Application.AwareOf, Attests;
    ghost var a := app.ledger;
    var incoming := staged;
    if incoming != NotAttempted {
      incoming :- ResumeDurable(app, IncomingStaging, SynchronizeIncomingStaging);
      if incoming != Confirmed {
        var receipt :- FailPreparation(app, Confirmed, incoming, captured);
        return Live(Sealed(receipt));
      }
    }
    ghost var b := app.ledger;
    IncomingKept(app.job, a, b, captures);
    r := ResumeRecoveryStaging(app, captures, incoming, captured);
  }

  lemma IncomingKept(job: Job, a: Ledger, b: Ledger, captures: seq<CaptureResult>)
    requires AllCaptured(job, a, captures) && Finished(job, a, {CaptureOldObject, StageIncomingPayload})
    requires OnlyChanged(a, b, {SynchronizeIncomingStaging})
    requires job.selection != [] ==> Finished(job, b, {SynchronizeIncomingStaging})
    ensures AllCaptured(job, b, captures)
    ensures Finished(job, b, {CaptureOldObject, StageIncomingPayload, SynchronizeIncomingStaging})
  {
    CapturesSame(job, a, b, captures, {SynchronizeIncomingStaging});
  }

  method ResumeRecoveryStaging(app: Application, captures: seq<CaptureResult>, incoming: Status, captured: Status)
    returns (r: Flow<Phase<PreparedAttempt>>)
    requires app.Open() && app.ledger.state.Preparing? && RecoverIdle(app.ledger)
    requires AllCaptured(app.job, app.ledger, captures)
    requires Finished(app.job, app.ledger, {CaptureOldObject, StageIncomingPayload, SynchronizeIncomingStaging})
    requires captured.NotAttempted? <==> app.job.captures == []
    requires incoming == DurableStatus(app.job.selection != [])
    modifies app, app.store, app.history, app.backend
    ensures r.Crashed? ==> app.MayCrash()
    ensures app.Safe()
    ensures r.Live? && r.value.Sealed? ==> app.ledger.receipt == Some(r.value.receipt)
    ensures r.Live? && r.value.Onward? ==>
              app.Open() && app.ledger.state.Prepared? && AllCaptured(app.job, app.ledger, r.value.value.captures)
              && OnlyChanged(old(app.ledger), app.ledger, {SynchronizeRecoveryStaging})
              && r.value.value.durability == PreparedDurability(app.job)
    ensures r.Thrown? ==> r.fault == BackendFault && !app.backend.Honest()
  {
    hide Inv, StoredParts, Application.AwareOf, Attests;
    ghost var b := app.ledger;
    var recovery := captured;
    if recovery != NotAttempted {
      recovery :- ResumeDurable(app, RecoveryStaging, SynchronizeRecoveryStaging);
      if recovery != Confirmed {
        var receipt :- FailPreparation(app, Confirmed, incoming, recovery);
        return Live(Sealed(receipt));
      }
    }
    RecoveryKept(app.job, b, app.ledger, captures);
    CapturesSame(app.job, app.ledger, app.ledger.(state := Prepared), captures, {});
    var published :- PublishState(app, Prepared);
    app.IsSafe();
    return Live(Onward(PreparedAttempt(captures, PreparationDurability(Confirmed, incoming, recovery))));
  }

  lemma RecoveryKept(job: Job, b: Ledger, c: Ledger, captures: seq<CaptureResult>)
    requires AllCaptured(job, b, captures)
    requires Finished(job, b, {CaptureOldObject, StageIncomingPayload, SynchronizeIncomingStaging})
    requires OnlyChanged(b, c, {SynchronizeRecoveryStaging})
    requires job.captures != [] ==> Finished(job, c, {SynchronizeRecoveryStaging})
    ensures AllCaptured(job, c, captures) && Finished(job, c, PreparationKinds())
  {
    CapturesSame(job, b, c, captures, {SynchronizeRecoveryStaging});
  }

  // ---------------------------------------------------------------- the phase

  function SynchronizedStatus(view: View, domain: Domain): Status {
    if domain in view.synchronized then view.synchronized[domain] else NotAttempted
  }

  /** What the next phases need: the captures, and that nothing of theirs
      moved. */
  ghost predicate Resumed(job: Job, before: Ledger, after: Ledger, prepared: PreparedAttempt) {
    && AllCaptured(job, after, prepared.captures)
    && OnlyChanged(before, after, PreparationKinds())
    && (after.state == before.state || after.state.Prepared?) && !after.state.Preparing?
    && prepared.durability == PreparedDurability(job)
    && (!before.state.Preparing? ==> after == before)
  }

  /** Prepares again under fresh preconditions. */
  method PrepareAgain(app: Application, view: View) returns (r: Flow<Phase<PreparedAttempt>>)
    requires !app.first
    requires app.Open() && app.ledger.state.Preparing? && Shows(view, app.ledger) && StagedIs(view, app.ledger)
    modifies app, app.store, app.history, app.backend
    ensures r.Crashed? ==> app.MayCrash()
    ensures app.Safe()
    ensures r.Live? && r.value.Sealed? ==> app.ledger.receipt == Some(r.value.receipt)
    ensures r.Live? && r.value.Onward? ==> app.Open() && Resumed(app.job, old(app.ledger), app.ledger, r.value.value)
    ensures r.Thrown? ==> r.fault == BackendFault && !app.backend.Honest()
  {
    hide Inv, StoredParts, Application.AwareOf, Attests;
    app.IsSafe();
    ghost var start := app.ledger;
    var seen :- ObservePaths(app, PlanPaths(app.job.plan));
    if !Satisfied(app.job.plan, seen) {
      var receipt :- FailPreparation(app, Confirmed, SynchronizedStatus(view, IncomingStaging),
                                     SynchronizedStatus(view, RecoveryStaging));
      return Live(Sealed(receipt));
    }
    var captured :- ResumeCaptures(app, view);
    if captured.Sealed? {
      return Live(Sealed(captured.receipt));
    }
    StagedSame(view, start, app.ledger, {CaptureOldObject});
    r := PrepareCaptured(app, view, captured.value);
  }

  /** Stages and makes durable after the captures. */
  method PrepareCaptured(app: Application, view: View, captures: seq<CaptureResult>) returns (r: Flow<Phase<PreparedAttempt>>)
    requires !app.first
    requires app.Open() && app.ledger.state.Preparing? && AllCaptured(app.job, app.ledger, captures)
    requires StagedIs(view, app.ledger)
    modifies app, app.store, app.history, app.backend
    ensures r.Crashed? ==> app.MayCrash()
    ensures app.Safe()
    ensures r.Live? && r.value.Sealed? ==> app.ledger.receipt == Some(r.value.receipt)
    ensures r.Live? && r.value.Onward? ==> app.Open() && Resumed(app.job, old(app.ledger), app.ledger, r.value.value)
    ensures r.Thrown? ==> r.fault == BackendFault && !app.backend.Honest()
  {
    hide Inv, StoredParts, Application.AwareOf, Attests;
    NothingBegun(app);
    ghost var a := app.ledger;
    var recovery := if app.job.captures == [] then NotAttempted else Visible;
    var staged :- ResumeStaging(app, view, recovery);
    if staged.Sealed? {
      return Live(Sealed(staged.receipt));
    }
    CapturesSame(app.job, a, app.ledger, captures, {StageIncomingPayload});
    CapturesFinished(app.job, app.ledger, captures);
    r := ResumeDurably(app, captures, staged.value, recovery);
  }

  /** An attempt that is past its preparation has staged what it needs. */
  lemma StagedBefore(app: Application, view: View)
    requires app.Alive() && StagedIs(view, app.ledger) && !app.ledger.state.Preparing? && !app.ledger.state.Abandoned?
    ensures app.job.selection != [] ==> FactOutcomeOr(view.staged, Failed) == Completed
  {
    SoundLedger(app);
    forall p | p in app.job.stages ensures CompletedSlot(At(app.ledger, StageKey(p))) {
      assert JobDeclares(app.job, StageKey(p));
    }
    if app.job.selection != [] {
      StagedCompleted(app, view);
    }
  }

  /** The preparation phase of a restarted run. */
  method ResumePrepare(app: Application, view: View) returns (r: Flow<Phase<PreparedAttempt>>)
    requires !app.first
    requires app.Open() && Shows(view, app.ledger) && StagedIs(view, app.ledger) && !app.ledger.state.Abandoned?
    modifies app, app.store, app.history, app.backend
    ensures r.Crashed? ==> app.MayCrash()
    ensures app.Safe()
    ensures r.Live? && r.value.Sealed? ==> app.ledger.receipt == Some(r.value.receipt)
    ensures r.Live? && !old(app.ledger).state.Preparing? ==> r.value.Onward?
    ensures r.Live? && r.value.Onward? ==> app.Open() && Resumed(app.job, old(app.ledger), app.ledger, r.value.value)
    ensures !old(app.ledger).state.Preparing? ==> app.ledger == old(app.ledger)
    ensures r.Thrown? ==> r.fault == BackendFault && !app.backend.Honest()
  {
    hide Inv, StoredParts, Application.AwareOf, Attests;
    var state := app.State();
    if state.Preparing? {
      r := PrepareAgain(app, view);
      return;
    }
    app.IsSafe();
    var captures := RetainedCaptures(app, view);
    StagedBefore(app, view);
    if app.job.selection != [] && FactOutcomeOr(view.staged, Failed) != Completed {
      return Thrown(PhaseRefused);
    }
    return Live(Onward(PreparedAttempt(captures.value, PreparedDurability(app.job))));
  }
}
