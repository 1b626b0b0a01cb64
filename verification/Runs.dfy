/** Restarted runs, and any number of them after a first run. */
module Runs {
  import opened Wrappers
  import opened Paths
  import opened Plans
  import opened Schedule
  import opened Journal
  import opened History
  import opened Ledgers
  import opened Store
  import opened Jobs
  import opened Protocol
  import opened Receipts
  import opened Backend
  import opened Applications
  import opened RestartView
  import opened Restart
  import opened Namespace
  import opened Phases
  import opened Preparation
  import opened Publication
  import opened Execution
  import opened Recovery
  import opened Completion
  import opened Apply
  import opened ResumePreparation
  import opened ResumePublication
  import opened ResumeExecution
  import opened ResumeCompletion

  lemma KnowsKept(view: View, before: Ledger, after: Ledger, changed: set<EffectKind>, kinds: set<EffectKind>)
    requires Knows(view, before, kinds) && OnlyChanged(before, after, changed) && changed !! kinds
    ensures Knows(view, after, kinds)
  {
  }

  lemma ShowsKnows(view: View, ledger: Ledger, kinds: set<EffectKind>)
    requires Shows(view, ledger) && forall kind :: kind in kinds ==> DomainOf(kind).None?
    ensures Knows(view, ledger, kinds)
  {
  }

  lemma ShowsGated(job: Job, ledger: Ledger, view: View)
    requires Shows(view, ledger) && LedgerOk(job, ledger)
    ensures ViewSync(view, ledger) && ViewRecovered(view, ledger)
    ensures ViewEvidence(view, ledger) && EvidenceKnown(view, ledger)
    ensures RecoverIdle(ledger) ==> ViewNamespace(view, ledger)
  {
    hide FactsFit, PreparedGate, PhaseGate, SynchronizationsShown;
    assert RecoverIdle(ledger) ==> NothingRecovered(ledger) by {
      assert forall p :: Recorded(ledger, RecoverActiveObject, p).None? ==> !SlotAt(ledger, RecoverActiveObject, p).Done?;
    }
    assert !Synchronizes(EvidenceKey());
  }

  /** The view tells the durability of each synchronization on record. */
  lemma ShowsStatuses(app: Application, view: View)
    requires app.Open() && Shows(view, app.ledger)
    ensures ViewSync(view, app.ledger) && ViewRecovered(view, app.ledger)
    ensures ViewEvidence(view, app.ledger) && EvidenceKnown(view, app.ledger)
    ensures RecoverIdle(app.ledger) ==> ViewNamespace(view, app.ledger)
    ensures !app.ledger.state.Recovering? ==> RecoverIdle(app.ledger)
  {
    hide Inv, StoredParts, Application.AwareOf, Attests, Shows, LedgerOk, RecoverIdle;
    SoundLedger(app);
    ShowsGated(app.job, app.ledger, view);
    if !app.ledger.state.Recovering? {
      RecoveringOnly(app);
    }
  }

  /** What a restarted run knows once it is prepared. */
  ghost predicate Replaying(job: Job, ledger: Ledger, view: View, recovery: bool) {
    && Knows(view, ledger, {PublishActiveObject, RecoverActiveObject}) && ViewRecovered(view, ledger)
    && if recovery then
         && Shows(view, ledger) && RejectedBehind(job, ledger)
         && (ledger.state.Mutating? || ledger.state.RecoveryPending? || ledger.state.Recovering?)
       else
         && (ledger.state.Prepared? || Forward(ledger.state))
         && ViewNamespace(view, ledger) && ViewEvidence(view, ledger) && EvidenceKnown(view, ledger)
  }

  lemma ReplayingKept(job: Job, before: Ledger, after: Ledger, view: View, changed: set<EffectKind>)
    requires Replaying(job, before, view, false) && OnlyChanged(before, after, changed)
    requires changed <= PreparationKinds() + RejectedKinds() && (after.state.Prepared? || Forward(after.state))
    ensures Replaying(job, after, view, false)
  {
  }

  /** An attempt that goes on in recovery has its rejected phase behind it. */
  lemma RecoveryBehind(app: Application)
    requires app.Open() && ToRecover(app.job, app.ledger)
    ensures RejectedBehind(app.job, app.ledger)
    ensures app.ledger.state.Mutating? || app.ledger.state.RecoveryPending? || app.ledger.state.Recovering?
  {
    Behind(app);
    SoundMeans(app.job, app.seed, app.ledger, app.backend.trace);
    if app.ledger.state.Mutating? {
      var p :| p in app.job.active
               && NeedsRecovery(Effect(0, PublishActiveObject, Some(p)), ProgressOf(SlotAt(app.ledger, PublishActiveObject, p)));
      assert Recorded(app.ledger, PublishActiveObject, p).Some?;
    }
  }

  lemma ReplayingForward(job: Job, ledger: Ledger, view: View, state: State)
    requires Shows(view, ledger) && ViewRecovered(view, ledger) && ViewNamespace(view, ledger)
    requires ViewEvidence(view, ledger) && EvidenceKnown(view, ledger) && (state.Prepared? || Forward(state))
    ensures Replaying(job, ledger.(state := state), view, false)
  {
    hide SynchronizationsShown;
    var next := ledger.(state := state);
    assert forall key :: At(next, key) == At(ledger, key);
  }

  lemma ReplayingStarts(app: Application, view: View, disposition: Disposition)
    requires Assessed(app, view, disposition)
    ensures ViewSync(view, app.ledger)
    ensures disposition.ResumeRecovery? ==> Replaying(app.job, app.ledger, view, true)
    ensures !disposition.ResumeRecovery? && !app.ledger.state.Preparing? ==> Replaying(app.job, app.ledger, view, false)
    ensures !disposition.ResumeRecovery? ==>
              Replaying(app.job, app.ledger.(state := Prepared), view, false)
  {
    hide Inv, StoredParts, Application.AwareOf, Attests, ViewSync, ViewRecovered, ViewEvidence, EvidenceKnown,
      ViewNamespace, SynchronizationsShown;
    ShowsStatuses(app, view);
    if disposition.ResumeRecovery? {
      RecoveryBehind(app);
    } else {
      ReplayingForward(app.job, app.ledger, view, Prepared);
      if !app.ledger.state.Preparing? {
        ReplayingForward(app.job, app.ledger, view, app.ledger.state);
        assert app.ledger.(state := app.ledger.state) == app.ledger;
      }
    }
  }

  // ---------------------------------------------------------------- how a restart can throw

  /** Why a restarted run throws although the backend keeps its contract, in
      terms of the journal it found and the one it left. */
  ghost predicate Cornered(fault: Fault, job: Job, before: Ledger, after: Ledger, projection: nat) {
    match fault
    case PhaseRefused =>
      if ToRecover(job, before) then RestartRefused(job, before)
      else (MerelyVisible(job, after) && after.state.RecoveryPending?) || FailedPublication(before)
    case StepRefused =>
      && !ToRecover(job, before) && !FailedPublication(before)
      && if FailedSynchronization(before) then Reprojected(before, projection) else PlanCorner(StepRefused, job, after)
    case EvidenceRefused => !ToRecover(job, before) && PlanCorner(EvidenceRefused, job, after)
    case ReceiptRefused => PlanCorner(Fault.ReceiptRefused, job, after)
    case _ => false
  }

  /** The journal of an attempt that goes forward and whose active
      synchronization is on record as merely visible. */
  ghost predicate Balked(job: Job, ledger: Ledger) {
    !ToRecover(job, ledger) && Forward(ledger.state) && MerelyVisible(job, ledger)
  }

  /** Such an attempt has its rejected and active effects behind it. */
  lemma BalkedBehind(job: Job, seed: Seed, ledger: Ledger, trace: Trace)
    requires Sound(job, seed, ledger, trace) && MerelyVisible(job, ledger)
    ensures ActivePassed(job, ledger) && RejectedBehind(job, ledger)
  {
    SoundMeans(job, seed, ledger, trace);
    var p :| p in job.active && Recorded(ledger, PublishActiveObject, p) == Some(Completed);
    assert Recorded(ledger, PublishActiveObject, p).Some?;
  }

  /** How a restarted run ends. */
  ghost predicate Ends(r: Flow<Receipt>, app: Application, before: Ledger, projection: nat)
    reads app
  {
    && (r.Live? ==> app.ledger.receipt == Some(r.value))
    && (r.Crashed? ==> app.MayCrash())
    && (r.Thrown? ==> (r.fault == BackendFault && !app.backend.Honest())
                      || Cornered(r.fault, app.job, before, app.ledger, projection))
  }

  /** What becomes of an attempt whose interruption cannot be constructed: no
      restart returns a receipt for it.  The journal of one that balked is
      handed to recovery. */
  ghost predicate Refuses(r: Flow<Receipt>, job: Job, honest: bool, before: Ledger, after: Ledger) {
    && (ToRecover(job, before) && RestartRefused(job, before) ==>
          && !r.Live? && (after == before || after == RefusalLeaves(job, before))
          && (honest && !r.Crashed? ==> r == Thrown(PhaseRefused) && after == RefusalLeaves(job, before)))
    && (Balked(job, before) ==>
          && !r.Live? && GivenUp(before, after)
          && (honest && !r.Crashed? ==> r == Thrown(PhaseRefused) && after == before.(state := RecoveryPending)))
  }

  /** Recovery after a forward phase, or after the interruption found in the
      journal. */
  method ReplayRecovery(app: Application, it: InterruptedAttempt, view: View, ghost before: Ledger, projection: nat)
    returns (r: Flow<Receipt>)
    requires app.Open() && Interruptible(app.job, app.ledger, it) && Knows(view, app.ledger, {RecoverActiveObject})
    requires ViewRecovered(view, app.ledger)
    modifies app, app.store, app.history, app.backend
    ensures app.Safe() && Ends(r, app, before, projection)
  {
    hide Inv, StoredParts, Application.AwareOf, Attests;
    r := ResumeRecover(app, it, view);
  }

  /** From the mutated phase of a restarted run to a receipt. */
  method ReplayMutated(app: Application, m: MutatedAttempt, view: View, ghost before: Ledger, projection: nat) returns (r: Flow<Receipt>)
    requires app.Open() && Remutated(app.job, app.ledger, m) && FullDurability(app.job, m)
    requires Knows(view, app.ledger, {RecoverActiveObject}) && ViewEvidence(view, app.ledger) && EvidenceKnown(view, app.ledger)
    requires !ToRecover(app.job, before)
    requires At(app.ledger, EvidenceKey()) == At(before, EvidenceKey()) && At(app.ledger, EvidenceSync()) == At(before, EvidenceSync())
    modifies app, app.store, app.history, app.backend
    ensures app.Safe() && Ends(r, app, before, projection)
  {
    hide Inv, StoredParts, Application.AwareOf, Attests;
    ghost var start := app.ledger;
    var completion :- ResumeComplete(app, m, view, projection);
    if completion.Sealed? {
      return Live(completion.receipt);
    }
    KnowsKept(view, start, app.ledger, {ObserveResult}, {RecoverActiveObject});
    r := ReplayRecovery(app, completion.value, view, before, projection);
  }

  /** Goes on forward from the published phase. */
  method ReplayForward(app: Application, published: PublishedAttempt, view: View, ghost before: Ledger, projection: nat)
    returns (r: Flow<Receipt>)
    requires app.Open() && Republished(app.job, app.ledger, published) && Replaying(app.job, app.ledger, view, false)
    requires Forward(app.ledger.state) && !ToRecover(app.job, before) && (Balked(app.job, before) ==> app.ledger == before)
    requires published.durability == PreparedDurability(app.job).(rejected := RejectedStatus(app.job))
    requires At(app.ledger, EvidenceKey()) == At(before, EvidenceKey()) && At(app.ledger, EvidenceSync()) == At(before, EvidenceSync())
    modifies app, app.store, app.history, app.backend
    ensures app.Safe() && Ends(r, app, before, projection)
    ensures Refuses(r, app.job, app.backend.Honest(), before, app.ledger)
  {
    hide Inv, StoredParts, Application.AwareOf, Attests, SomeUnfinished, RejectedBehind, Republished, NeedsRecovery,
      PlanCorner, RestartRefused, FailedPublication, Interruptible, ActiveChanged;
    RecoveringOnly(app);
    if Balked(app.job, before) {
      BalkedBehind(app.job, app.seed, app.ledger, app.backend.trace);
    }
    ghost var start := app.ledger;
    var active :- ResumeExecute(app, published, view);
    KnowsKept(view, start, app.ledger, ActiveKinds(), {RecoverActiveObject});
    if active.Stopped? {
      r := ReplayRecovery(app, active.interrupted, view, before, projection);
    } else {
      r := ReplayMutated(app, active.mutated, view, before, projection);
    }
  }

  /** Goes on from the published phase, forward or in recovery. */
  method ReplayPublished(app: Application, published: PublishedAttempt, view: View, recovery: bool, ghost before: Ledger, projection: nat)
    returns (r: Flow<Receipt>)
    requires app.Open() && Republished(app.job, app.ledger, published) && Replaying(app.job, app.ledger, view, recovery)
    requires recovery <==> ToRecover(app.job, before)
    requires recovery || Balked(app.job, before) ==> app.ledger == before
    requires !recovery ==> Forward(app.ledger.state)
    requires published.durability == PreparedDurability(app.job).(rejected := RejectedStatus(app.job))
    requires At(app.ledger, EvidenceKey()) == At(before, EvidenceKey()) && At(app.ledger, EvidenceSync()) == At(before, EvidenceSync())
    modifies app, app.store, app.history, app.backend
    ensures app.Safe() && Ends(r, app, before, projection)
    ensures Refuses(r, app.job, app.backend.Honest(), before, app.ledger)
  {
    hide Inv, StoredParts, Application.AwareOf, Attests;
    if !recovery {
      r := ReplayForward(app, published, view, before, projection);
      return;
    }
    var it :- RestartInterruption(app, published, view);
    KnowsKept(view, before, app.ledger, {}, {RecoverActiveObject});
    r := ReplayRecovery(app, it, view, before, projection);
  }

  lemma ResumedKnows(app: Application, before: Ledger, prepared: PreparedAttempt, view: View)
    requires app.Alive() && Resumed(app.job, before, app.ledger, prepared)
    requires Shows(view, before) && ViewSync(view, before)
    ensures Republishing(app.job, app.ledger, prepared, view, [])
  {
    ShowsKnows(view, before, {PublishRejectedObject});
    RepublishingStarts(app, before, prepared, view);
  }

  /** From the prepared phase of a restarted run to a receipt. */
  method ReplayPrepared(app: Application, prepared: PreparedAttempt, view: View, recovery: bool, ghost before: Ledger, projection: nat)
    returns (r: Flow<Receipt>)
    requires app.Open() && Republishing(app.job, app.ledger, prepared, view, []) && Replaying(app.job, app.ledger, view, recovery)
    requires recovery <==> ToRecover(app.job, before)
    requires recovery || Balked(app.job, before) ==> app.ledger == before
    requires prepared.durability == PreparedDurability(app.job)
    requires At(app.ledger, EvidenceKey()) == At(before, EvidenceKey()) && At(app.ledger, EvidenceSync()) == At(before, EvidenceSync())
    modifies app, app.store, app.history, app.backend
    ensures app.Safe() && Ends(r, app, before, projection)
    ensures Refuses(r, app.job, app.backend.Honest(), before, app.ledger)
  {
    hide Inv, StoredParts, Application.AwareOf, Attests;
    ghost var start := app.ledger;
    if Balked(app.job, before) {
      BalkedBehind(app.job, app.seed, app.ledger, app.backend.trace);
    }
    var publication :- ResumePublish(app, prepared, view);
    if publication.Sealed? {
      return Live(publication.receipt);
    }
    if !recovery {
      ReplayingKept(app.job, start, app.ledger, view, RejectedKinds());
    }
    r := ReplayPublished(app, publication.value, view, recovery, before, projection);
  }

  /** A restarted run: every phase goes on from what the journal says.  Unless
      the process dies or the backend breaks its contract it returns a durable
      receipt, or one of the named corners has come about. */
  method FinishReplay(app: Application, view: View, disposition: Disposition, projection: nat) returns (r: Flow<Receipt>)
    requires Assessed(app, view, disposition)
    modifies app, app.store, app.history, app.backend
    ensures app.Safe() && Ends(r, app, old(app.ledger), projection)
    ensures Refuses(r, app.job, app.backend.Honest(), old(app.ledger), app.ledger)
  {
    hide Inv, StoredParts, Application.AwareOf, Attests, Cornered, SomeUnfinished, RejectedBehind, Shows,
      NeedsRecovery, RestartRefused, FoundIn;
    ReplayingStarts(app, view, disposition);
    ghost var before := app.ledger;
    var state := app.State();
    var recovery := AtRecovery(state) || disposition.ResumeRecovery?;
    var preparation :- ResumePrepare(app, view);
    if preparation.Sealed? {
      return Live(preparation.receipt);
    }
    ResumedKnows(app, before, preparation.value, view);
    if !recovery && state.Preparing? {
      ReplayingKept(app.job, before.(state := Prepared), app.ledger, view, PreparationKinds());
    }
    r := ReplayPrepared(app, preparation.value, view, recovery, before, projection);
  }

  predicate AtRecovery(state: State) {
    state.RecoveryPending? || state.Recovering? || state.StateIndeterminate?
  }

  /** The journal of an attempt that no restart takes up. */
  ghost predicate NotTakenUp(ledger: Ledger) {
    ledger.receipt.Some? || !Resumable(ledger.state) || !StagesAgree(ledger)
  }

  /** The journal of an attempt that never ends, however often it is restarted:
      no restart takes it up, or each finds an interruption that cannot be
      constructed. */
  ghost predicate Stranded(job: Job, ledger: Ledger) {
    ledger.receipt.None? && (NotTakenUp(ledger) || (ToRecover(job, ledger) && RestartRefused(job, ledger)))
  }

  /** What a refused restart leaves is stranded again. */
  lemma RefusalStrands(job: Job, ledger: Ledger)
    requires Stranded(job, ledger) && !NotTakenUp(ledger)
    ensures Stranded(job, RefusalLeaves(job, ledger))
    ensures ledger.state.Recovering? ==> RefusalLeaves(job, ledger) == ledger
  {
    hide RestartRefused, FoundIn;
    FoundSame(job, ledger, RecoveryPending);
  }

  /** How a restart ends in terms of the journal it finds and the one it
      leaves. */
  ghost predicate RestartEnds(r: Flow<Receipt>, job: Job, honest: bool, before: Ledger, after: Ledger, projection: nat) {
    if NotTakenUp(before) then
      after == before && (r.Crashed? || (r.Thrown? && r.fault in {NotResumable, ViewRefused}))
    else
      && (r.Thrown? ==> (r.fault == BackendFault && !honest) || Cornered(r.fault, job, before, after, projection))
      && Refuses(r, job, honest, before, after)
  }

  lemma CrashedEarly(job: Job, honest: bool, ledger: Ledger, projection: nat)
    ensures RestartEnds(Crashed, job, honest, ledger, ledger, projection)
  {
  }

  /** A stranded attempt stays stranded; nothing more becomes durable unless the
      state of its interruption was not. */
  lemma StrandedStays(r: Flow<Receipt>, job: Job, honest: bool, before: Ledger, after: Ledger, projection: nat)
    requires RestartEnds(r, job, honest, before, after, projection) && Stranded(job, before)
    ensures !r.Live? && Stranded(job, after)
    ensures NotTakenUp(before) || before.state.Recovering? ==> after == before
  {
    hide RestartRefused, FoundIn, Cornered, StagesAgree, RefusalLeaves;
    if !NotTakenUp(before) {
      RefusalStrands(job, before);
    }
  }

  /** Resumes a safe attempt: it stays safe, its durable steps are never
      rewritten, and a receipt that is returned is durable.  An attempt that is
      taken up ends with a receipt unless the process dies, the backend breaks
      its contract, or a named corner has come about. */
  method ResumeAttempt(job: Job, seed: Seed, declaration: Declaration, projection: nat, store: JournalStore, backend: ApplicationBackend)
    returns (r: Flow<Receipt>)
    requires SafeAttempt(job, seed, declaration, store, backend)
    modifies store, backend
    ensures r.Crashed? ==> store.mayCrash || backend.mayCrash
    ensures SafeAttempt(job, seed, declaration, store, backend) && store.declaration == old(store.declaration)
    ensures old(store.steps) <= store.steps
    ensures r.Live? ==> ReceiptAfter(store.steps) == Some(r.value)
    ensures RestartEnds(r, job, backend.Honest(), LedgerOf(old(store.steps)), LedgerOf(store.steps), projection)
  {
    hide Inv, Attests, Application.AwareOf, Cornered, RestartRefused, ToRecover, StagesAgree, Refuses;
    CrashedEarly(job, backend.Honest(), LedgerOf(store.steps), projection);
    var app :- OpenApplication(job, seed, declaration, store, backend);
    StoredMeans(job, declaration, store);
    var assessed := Assess(app);
    app.IsSafe();
    app.SafeMeans();
    if assessed.IsFailure() {
      return assessed.PropagateFailure();
    }
    r := FinishReplay(app, assessed.value.0, assessed.value.1, projection);
    app.SafeMeans();
    StoredMeans(job, declaration, store);
    if r.Live? {
      ReturnedIsDurable(app, r.value);
    }
  }

  /** A durable receipt never changes while the journal grows. */
  lemma ReceiptStays(job: Job, seed: Seed, declaration: Declaration, store: JournalStore, backend: ApplicationBackend, before: seq<Step>)
    requires SafeAttempt(job, seed, declaration, store, backend) && before <= store.steps && ReceiptAfter(before).Some?
    ensures ReceiptAfter(store.steps) == ReceiptAfter(before)
  {
    StoredMeans(job, declaration, store);
    TerminalStays(declaration, store.steps, |before|);
    assert store.steps[..|before|] == before;
  }

  /** Resumes an attempt that may not have been begun. */
  method Resume(job: Job, seed: Seed, declaration: Declaration, projection: nat, store: JournalStore, backend: ApplicationBackend)
    returns (r: Flow<Receipt>)
    requires Begun(job, seed, declaration, store, backend)
    modifies store, backend
    ensures r.Crashed? ==> store.mayCrash || backend.mayCrash
    ensures Begun(job, seed, declaration, store, backend)
    ensures old(store.steps) <= store.steps
    ensures r.Live? ==> ReceiptAfter(store.steps) == Some(r.value)
    ensures old(Stranded(job, LedgerOf(store.steps))) ==> !r.Live? && Stranded(job, LedgerOf(store.steps))
  {
    hide Stranded, SafeAttempt, RestartEnds;
    var declared :- store.LoadDeclaration(declaration);
    if declared.None? {
      return Thrown(MissingDeclaration);
    }
    ghost var before := LedgerOf(store.steps);
    r := ResumeAttempt(job, seed, declaration, projection, store, backend);
    if Stranded(job, before) {
      StrandedStays(r, job, backend.Honest(), before, LedgerOf(store.steps), projection);
    }
  }

  /** Every receipt among the results is the durable one. */
  ghost predicate OneReceipt(results: seq<Flow<Receipt>>, store: JournalStore)
    reads store
  {
    forall i :: 0 <= i < |results| && results[i].Live? ==> ReceiptAfter(store.steps) == Some(results[i].value)
  }

  /** Journals of which each extends the ones before it. */
  ghost predicate Growing(journals: seq<seq<Step>>) {
    forall i, j :: 0 <= i <= j < |journals| ==> journals[i] <= journals[j]
  }

  lemma GrowingNext(journals: seq<seq<Step>>, next: seq<Step>)
    requires journals != [] && Growing(journals) && journals[|journals| - 1] <= next
    ensures Growing(journals + [next])
  {
    forall i, j | 0 <= i <= j < |journals| + 1 ensures (journals + [next])[i] <= (journals + [next])[j] {
      assert i < |journals| ==> journals[i] <= journals[|journals| - 1];
    }
  }

  /** Once a journal is stranded no later run ends. */
  ghost predicate StrandedForGood(job: Job, results: seq<Flow<Receipt>>, journals: seq<seq<Step>>)
    requires |journals| == |results|
  {
    forall k, i :: 0 <= k < i < |results| && Stranded(job, LedgerOf(journals[k])) ==>
                     !results[i].Live? && Stranded(job, LedgerOf(journals[i]))
  }

  lemma StrandedNext(job: Job, results: seq<Flow<Receipt>>, journals: seq<seq<Step>>, r: Flow<Receipt>, next: seq<Step>)
    requires |journals| == |results| > 0 && StrandedForGood(job, results, journals)
    requires Stranded(job, LedgerOf(journals[|journals| - 1])) ==> !r.Live? && Stranded(job, LedgerOf(next))
    ensures StrandedForGood(job, results + [r], journals + [next])
  {
    hide Stranded, LedgerOf;
    var rs, js := results + [r], journals + [next];
    forall k, i | 0 <= k < i < |rs| && Stranded(job, LedgerOf(js[k])) ensures !rs[i].Live? && Stranded(job, LedgerOf(js[i])) {
      assert js[k] == journals[k];
      assert i == |results| && k < |results| - 1 ==> Stranded(job, LedgerOf(journals[|results| - 1]));
    }
  }

  /** Resumes once for each projection; `journals` are the durable steps after
      each run.  They only grow, and a stranded attempt never ends. */
  method ResumeRepeatedly(job: Job, seed: Seed, declaration: Declaration, projections: seq<nat>, first: Flow<Receipt>,
                          store: JournalStore, backend: ApplicationBackend)
    returns (results: seq<Flow<Receipt>>, ghost journals: seq<seq<Step>>)
    requires Begun(job, seed, declaration, store, backend)
    requires first.Live? ==> ReceiptAfter(store.steps) == Some(first.value)
    modifies store, backend
    ensures Begun(job, seed, declaration, store, backend)
    ensures OneReceipt(results, store) && |results| == |projections| + 1 && results[0] == first
    ensures Growing(journals) && |journals| == |results|
    ensures journals[0] == old(store.steps) && journals[|projections|] == store.steps
    ensures StrandedForGood(job, results, journals)
  {
    hide Stranded, Begun;
    results, journals := [first], [store.steps];
    for i := 0 to |projections|
      invariant Begun(job, seed, declaration, store, backend)
      invariant OneReceipt(results, store) && |results| == i + 1 && results[0] == first
      invariant Growing(journals) && |journals| == |results|
      invariant journals[0] == old(store.steps) && journals[i] == store.steps
      invariant StrandedForGood(job, results, journals)
    {
      ghost var before := store.steps;
      var r := Resume(job, seed, declaration, projections[i], store, backend);
      BegunReceiptStays(job, seed, declaration, store, backend, before);
      GrowingNext(journals, store.steps);
      StrandedNext(job, results, journals, r, store.steps);
      results, journals := results + [r], journals + [store.steps];
    }
  }

  lemma BegunReceiptStays(job: Job, seed: Seed, declaration: Declaration, store: JournalStore, backend: ApplicationBackend,
                          before: seq<Step>)
    requires Begun(job, seed, declaration, store, backend) && before <= store.steps
    ensures ReceiptAfter(before).Some? ==> ReceiptAfter(store.steps) == ReceiptAfter(before)
  {
    if ReceiptAfter(before).Some? {
      ReceiptStays(job, seed, declaration, store, backend, before);
    }
  }

  /** A first run and any number of resumptions of the attempt, each cut short
      anywhere by a crash or ended by a receipt or an exception.  The attempt
      is safe throughout, its durable steps are never rewritten, all receipts
      ever returned for it are the one receipt its journal holds, and once it
      is stranded it never ends. */
  method Run(plan: Plan, image: Option<Image>, control: Control, header: nat, projection: nat, projections: seq<nat>,
             store: JournalStore, backend: ApplicationBackend)
    returns (results: seq<Flow<Receipt>>, job: Option<Job>, ghost journals: seq<seq<Step>>)
    requires Canonical(plan) && (image.Some? ==> Normalized(image.value))
    requires store.Durable() && store.declaration.None? && backend.trace == []
    modifies store, backend
    ensures job.Some? ==>
              && job.value.plan == plan && ScheduledFrom(job.value, image)
              && Begun(job.value, SeedOf(plan), Declaration(header, EffectsOf(JobKeys(job.value)), SeedOf(plan)), store, backend)
              && OneReceipt(results, store) && |results| == |projections| + 1
              && Growing(journals) && |journals| == |results| && journals[|projections|] == store.steps
              && StrandedForGood(job.value, results, journals)
    ensures job.None? ==> store.declaration.None? && backend.trace == []
  {
    var first: Flow<Receipt>;
    first, job := FirstRun(plan, image, control, header, projection, store, backend);
    results, journals := [first], [store.steps];
    if job.Some? {
      results, journals := ResumeRepeatedly(job.value, SeedOf(plan), Declaration(header, EffectsOf(JobKeys(job.value)), SeedOf(plan)),
                                  projections, first, store, backend);
    }
  }

  // ---------------------------------------------------------------- what can no longer succeed

  /** Terminal events are final, however far the journal grows. */
  lemma {:induction false} DoneForGood(declaration: Declaration, before: seq<Step>, after: seq<Step>)
    requires Accepted(declaration, after) && Indexed(declaration.effects) && before <= after
    ensures DoneKept(LedgerOf(before), LedgerOf(after))
    decreases |after|
  {
    hide LedgerOf, Replay;
    if before == after {
      assert before == after;
    } else {
      var rest, last := after[..|after| - 1], after[|after| - 1];
      AcceptedPrefix(declaration, after, |rest|);
      AcceptedStep(declaration, after, |rest|);
      DoneForGood(declaration, before, rest);
      DoneStays(declaration, rest, last);
      assert rest + [last] == after;
    }
  }

  /** A completed attempt has everything success requires behind it. */
  lemma CompletedHasAll(job: Job, seed: Seed, declaration: Declaration, steps: seq<Step>, trace: Trace)
    requires Accepted(declaration, steps) && declaration.effects == EffectsOf(JobKeys(job)) && Indexed(declaration.effects)
    requires Sound(job, seed, LedgerOf(steps), trace)
    requires ReceiptAfter(steps).Some? && ReceiptAfter(steps).value.outcome.AttemptCompleted?
    ensures JobDone(job, LedgerOf(steps))
  {
    hide JobKeys, EffectsOf, Replay, Core;
    var ledger := LedgerOf(steps);
    SoundMeans(job, seed, ledger, trace);
    LedgerAgrees(declaration, steps);
    SnapshotAccepted(declaration, steps);
    CompletedRecord(declaration, steps);
    forall key ensures Declared(declaration.effects, key) <==> JobDeclares(job, key) {
      JobDeclared(job, key);
    }
  }

  lemma CompletedRecord(declaration: Declaration, steps: seq<Step>)
    requires Accepted(declaration, steps) && Indexed(declaration.effects) && Successful(LedgerOf(steps).state)
    ensures RequiredDone(declaration.effects, LedgerOf(steps))
  {
    LedgerAgrees(declaration, steps);
    SnapshotAccepted(declaration, steps);
    ReplayAgrees(declaration, steps);
    RequiredIsDone(declaration.effects, Replay(declaration, steps).value.progress, LedgerOf(steps));
  }

  lemma NothingFell(job: Job, ledger: Ledger)
    requires OnlyDeclared(job, ledger) && JobDone(job, ledger)
    ensures !Fallen(ledger)
  {
    forall key: Key | SuccessRequired(key.kind) ensures !NotCompleted(At(ledger, key)) {
      assert key in ledger.slots ==> JobDeclares(job, key);
    }
  }

  lemma FallenForGood(before: Ledger, after: Ledger)
    requires DoneKept(before, after) && Fallen(before)
    ensures Fallen(after)
  {
    var key: Key :| SuccessRequired(key.kind) && NotCompleted(At(before, key));
    FallenAt(after, key);
  }

  /** Whatever happens to an attempt after an effect that success requires
      failed or stayed uncertain, it is never reported as completed. */
  lemma NeverCompletes(job: Job, seed: Seed, declaration: Declaration, before: seq<Step>, after: seq<Step>, trace: Trace)
    requires Accepted(declaration, after) && declaration.effects == EffectsOf(JobKeys(job)) && Indexed(declaration.effects)
    requires Sound(job, seed, LedgerOf(after), trace) && before <= after && Fallen(LedgerOf(before))
    ensures ReceiptAfter(after).Some? ==> !ReceiptAfter(after).value.outcome.AttemptCompleted?
  {
    hide JobKeys, EffectsOf, Accepted, LedgerOf, Fallen, JobDone, OnlyDeclared, LedgerOk, DoneKept;
    DoneForGood(declaration, before, after);
    FallenForGood(LedgerOf(before), LedgerOf(after));
    SoundMeans(job, seed, LedgerOf(after), trace);
    if ReceiptAfter(after).Some? && ReceiptAfter(after).value.outcome.AttemptCompleted? {
      CompletedHasAll(job, seed, declaration, after, trace);
      NothingFell(job, LedgerOf(after));
    }
  }

  /** Past its active phase the restart of a regular attempt throws only over
      evidence that an earlier run failed to publish or to make durable. */
  lemma PastActiveEnds(r: Flow<Receipt>, job: Job, seed: Seed, declaration: Declaration, before: seq<Step>, projection: nat,
                       store: JournalStore, backend: ApplicationBackend)
    requires SafeAttempt(job, seed, declaration, store, backend) && before <= store.steps
    requires RestartEnds(r, job, backend.Honest(), LedgerOf(before), LedgerOf(store.steps), projection)
    requires backend.Honest() && RegularPlan(job.plan)
    requires var ledger := LedgerOf(before); !NotTakenUp(ledger) && PastActive(ledger.state) && ActiveBehind(job, ledger)
    ensures r.Thrown? ==> r.fault == if FailedPublication(LedgerOf(before)) then PhaseRefused else StepRefused
    ensures r == Thrown(StepRefused) ==> FailedSynchronization(LedgerOf(before)) && Reprojected(LedgerOf(before), projection)
  {
    hide JobKeys, EffectsOf, Accepted, LedgerOf, Inv, PlanCorner, FailedPublication, FailedSynchronization;
    StoredMeans(job, declaration, store);
    DoneForGood(declaration, before, store.steps);
    if r.Thrown? {
      RegularSeals(job, LedgerOf(store.steps), r.fault);
      NotVisibleLater(job, LedgerOf(before), LedgerOf(store.steps));
    }
  }

  lemma NotVisibleLater(job: Job, before: Ledger, after: Ledger)
    requires ActiveBehind(job, before) && DoneKept(before, after)
    ensures !MerelyVisible(job, after)
  {
    PassedKept(job, before, after);
  }

  /** An attempt that balked ends at the second restart, and not as completed:
      the first one hands it to recovery. */
  method ResumeBalked(job: Job, seed: Seed, declaration: Declaration, projection: nat, again: nat, store: JournalStore,
                      backend: ApplicationBackend) returns (first: Flow<Receipt>, second: Flow<Receipt>)
    requires SafeAttempt(job, seed, declaration, store, backend)
    requires Balked(job, LedgerOf(store.steps)) && !NotTakenUp(LedgerOf(store.steps))
    requires !store.mayCrash && !backend.mayCrash && backend.Honest()
    modifies store, backend
    ensures first == Thrown(PhaseRefused)
    ensures second.Live? && ReceiptAfter(store.steps) == Some(second.value) && !second.value.outcome.AttemptCompleted?
  {
    hide RestartRefused, FoundIn, NotTakenUp, Balked, ToRecover, Inv, Attests, StoredParts;
    ghost var before := store.steps;
    HandedOver(job, seed, LedgerOf(before), backend.trace);
    first := ResumeAttempt(job, seed, declaration, projection, store, backend);
    second := ResumeAttempt(job, seed, declaration, again, store, backend);
    BalkedEnds(job, seed, declaration, before, store, backend);
  }

  /** Such an attempt has an effect to undo, and can not be completed. */
  lemma BalkedEnds(job: Job, seed: Seed, declaration: Declaration, before: seq<Step>, store: JournalStore, backend: ApplicationBackend)
    requires SafeAttempt(job, seed, declaration, store, backend) && before <= store.steps
    requires Balked(job, LedgerOf(before))
    ensures !RetainedOnly(job, LedgerOf(store.steps))
    ensures ReceiptAfter(store.steps).Some? ==> !ReceiptAfter(store.steps).value.outcome.AttemptCompleted?
  {
    hide JobKeys, EffectsOf, Accepted, LedgerOf, Inv, ToRecover;
    StoredMeans(job, declaration, store);
    DoneForGood(declaration, before, store.steps);
    FallenAt(LedgerOf(before), ActiveSync());
    NeverCompletes(job, seed, declaration, before, store.steps, backend.trace);
    var p :| p in job.active && Recorded(LedgerOf(before), PublishActiveObject, p) == Some(Completed);
    assert Recorded(LedgerOf(store.steps), PublishActiveObject, p) == Some(Completed);
    CandidatesExact(LedgerOf(store.steps), job.active, p);
  }

  lemma HandedOver(job: Job, seed: Seed, ledger: Ledger, trace: Trace)
    requires Sound(job, seed, ledger, trace) && Balked(job, ledger) && !NotTakenUp(ledger)
    ensures var next := ledger.(state := RecoveryPending);
            !NotTakenUp(next) && ToRecover(job, next) && !RestartRefused(job, next)
  {
    hide Inv;
    BalkedBehind(job, seed, ledger, trace);
    VisibleRecovers(job, ledger);
    FoundSame(job, ledger, RecoveryPending);
    assert forall key :: At(ledger.(state := RecoveryPending), key) == At(ledger, key);
  }

  // ---------------------------------------------------------------- what a restart reads

  /** The restart view accepts the journal and shows exactly what it records. */
  ghost predicate Readable(job: Job, steps: seq<Step>) {
    ViewOf(job, steps).Some? && Shows(ViewOf(job, steps).value, LedgerOf(steps))
  }

  lemma AgreeingIsReadable(job: Job, seed: Seed, declaration: Declaration, store: JournalStore, backend: ApplicationBackend)
    requires SafeAttempt(job, seed, declaration, store, backend) && StagesAgree(LedgerOf(store.steps))
    ensures Readable(job, store.steps)
  {
    StoredMeans(job, declaration, store);
    SoundMeans(job, seed, LedgerOf(store.steps), backend.trace);
    ViewAccepts(job, declaration, store.steps);
    ViewShows(job, declaration, store.steps);
  }

  /** A first run leaves a journal that a restart can read, wherever it was
      cut short. */
  method FirstRun(plan: Plan, image: Option<Image>, control: Control, header: nat, projection: nat, store: JournalStore,
                  backend: ApplicationBackend) returns (r: Flow<Receipt>, job: Option<Job>)
    requires Canonical(plan) && (image.Some? ==> Normalized(image.value))
    requires store.Durable() && store.declaration.None? && backend.trace == []
    modifies store, backend
    ensures r.Crashed? ==> store.mayCrash || backend.mayCrash
    ensures job.Some? ==>
              && job.value.plan == plan && ScheduledFrom(job.value, image)
              && Begun(job.value, SeedOf(plan), Declaration(header, EffectsOf(JobKeys(job.value)), SeedOf(plan)), store, backend)
    ensures job.Some? && store.declaration.Some? ==> Readable(job.value, store.steps)
    ensures job.None? ==> store.declaration.None? && backend.trace == []
    ensures r.Live? && job.Some? ==> ReceiptAfter(store.steps) == Some(r.value)
  {
    r, job := ApplyPlan(plan, image, control, header, projection, store, backend);
    if job.Some? && store.declaration.Some? {
      AgreeingIsReadable(job.value, SeedOf(plan), Declaration(header, EffectsOf(JobKeys(job.value)), SeedOf(plan)), store, backend);
    }
  }

  /** A readable journal tells what the backend answered: a mechanism fact is
      the outcome of the calls on its path, with the record of a rejected
      object, and a capture fact the latest capture. */
  lemma ViewTellsResults(job: Job, seed: Seed, declaration: Declaration, store: JournalStore, backend: ApplicationBackend,
                         kind: EffectKind, p: Path, i: nat)
    requires SafeAttempt(job, seed, declaration, store, backend) && Readable(job, store.steps)
    requires i < |backend.trace| && backend.trace[i].kind == kind && backend.trace[i].path == p
    ensures
      var fact := FactAt(ViewOf(job, store.steps).value, Key(kind, Some(p)));
      && (Mechanism(kind) && fact.Some? ==> FactOutcome(fact.value) == backend.trace[i].outcome)
      && (kind.CaptureOldObject? && fact.Some? ==>
            fact.value.CaptureFact? && Held(backend.trace, p) == Some((fact.value.outcome, fact.value.exact)))
      && (kind.PublishRejectedObject? && fact.Some? && backend.honest ==>
            fact.value.RejectedFact? && (fact.value.record.Some? ==> fact.value.record.value == backend.recordOf(p)))
  {
    hide JobOk, JobDeclares, Accepted, EffectsOf, JobKeys, Candidates, Called;
    var ledger := LedgerOf(store.steps);
    SoundMeans(job, seed, ledger, backend.trace);
    AttestedMeans(job, store.steps, backend);
    var slot := SlotAt(ledger, kind, p);
    assert Mechanism(kind) ==> Reports(SlotAt(ledger, backend.trace[i].kind, backend.trace[i].path), backend.trace[i]);
    assert HeldFact(SlotAt(ledger, CaptureOldObject, p), backend.trace, p);
    assert slot.Done? && backend.honest ==> MovePlausible(job, backend.recordOf, Move(Key(kind, Some(p)), slot.kind, slot.fact));
    assert slot.Done? ==> SlotFits(job, Key(kind, Some(p)), slot.kind, slot.fact);
  }

  // ---------------------------------------------------------------- what any run leaves behind

  /** Whatever crashes and resumptions an attempt went through: every
      mechanism was called under an intent that was durable when it was
      called, at most once on a path, each in its own order, and no call of an
      earlier phase follows one of a later phase. */
  lemma RunIsSafe(job: Job, seed: Seed, declaration: Declaration, store: JournalStore, backend: ApplicationBackend)
    requires SafeAttempt(job, seed, declaration, store, backend)
    ensures forall i :: 0 <= i < |backend.trace| && Mechanism(backend.trace[i].kind) ==> IntendedFirst(store.steps, backend.trace[i])
    ensures CalledAtMostOnce(backend.trace) && RanksAscend(backend.trace)
    ensures CallPaths(backend.trace, PublishRejectedObject) <= job.rejected
    ensures CallPaths(backend.trace, PublishActiveObject) <= job.active
    ensures CallPaths(backend.trace, RecoverActiveObject) <= Candidates(LedgerOf(store.steps), job.active)
  {
    SoundMeans(job, seed, LedgerOf(store.steps), backend.trace);
    AttestedMeans(job, store.steps, backend);
    CallsAreSafe(job, seed, LedgerOf(store.steps), backend.trace);
    CallsInOrder(job, seed, LedgerOf(store.steps), backend.trace);
  }

  /** Whatever an attempt went through, a receipt that calls it fully
      recovered or unmutated is right: the target is the admitted one. */
  lemma RunRestores<W>(job: Job, seed: Seed, declaration: Declaration, store: JournalStore, backend: ApplicationBackend, worlds: seq<W>)
    requires SafeAttempt(job, seed, declaration, store, backend) && Lawful(seed, backend.trace, worlds)
    requires ReceiptAfter(store.steps).Some?
    requires ReceiptAfter(store.steps).value.outcome in {FailedFullyRecovered, FailedBeforeTargetMutation}
    ensures worlds[|backend.trace|] == worlds[0]
  {
    StoredMeans(job, declaration, store);
    LedgerAgrees(declaration, store.steps);
    SoundMeans(job, seed, LedgerOf(store.steps), backend.trace);
    ReceiptRestores(job, seed, LedgerOf(store.steps), backend.trace, worlds);
  }

  /** Whatever an attempt went through, every path of its receipt is in the
      state the receipt records for it afterwards: the admitted one, the one
      that was observed, or nothing is claimed. */
  lemma RunPathIsTrue(job: Job, seed: Seed, declaration: Declaration, store: JournalStore, backend: ApplicationBackend,
                      worlds: seq<Target>, c: Consequence)
    requires SafeAttempt(job, seed, declaration, store, backend)
    requires LocallyLawful(seed, backend.trace, worlds) && SeenTruly(worlds, backend.seen)
    requires ReceiptAfter(store.steps).Some? && c in ReceiptAfter(store.steps).value.paths
    ensures AfterHolds(c.after, worlds[0](c.path), worlds[|backend.trace|](c.path))
  {
    StoredMeans(job, declaration, store);
    LedgerAgrees(declaration, store.steps);
    SoundMeans(job, seed, LedgerOf(store.steps), backend.trace);
    AttestedMeans(job, store.steps, backend);
    AfterIsTrue(job, seed, LedgerOf(store.steps), backend.trace, worlds, backend.seen, c);
  }
}
