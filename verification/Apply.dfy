/** A first run: admission, the initial journal, and the phases in order. */
module Apply {
  import opened Wrappers
  import opened Paths
  import opened Plans
  import opened Schedule
  import opened Journal
  import opened Record
  import opened History
  import opened Ledgers
  import opened Store
  import opened Jobs
  import opened Protocol
  import opened Receipts
  import opened Backend
  import opened Applications
  import opened Phases
  import opened Preparation
  import opened Publication
  import opened Execution
  import opened Recovery
  import opened Completion

  // ---------------------------------------------------------------- the initial journal

  predicate HasActiveEffect(plan: Plan) {
    exists d :: d in plan && !d.active.RetainObserved? && !d.active.RemainAbsent?
  }

  predicate HasRejectedEffect(plan: Plan) {
    exists d :: d in plan && !d.rejected.NoRejected?
  }

  lemma FlagsAreLists(job: Job)
    requires JobOk(job)
    ensures HasActiveEffect(job.plan) <==> job.active != []
    ensures HasRejectedEffect(job.plan) <==> job.rejected != []
  {
    if HasActiveEffect(job.plan) {
      var d :| d in job.plan && !d.active.RetainObserved? && !d.active.RemainAbsent?;
      assert MechanismPath(job.plan, d.path);
    }
    if job.active != [] {
      assert MechanismPath(job.plan, job.active[0]);
    }
    if HasRejectedEffect(job.plan) {
      var d :| d in job.plan && !d.rejected.NoRejected?;
      RejectedExact(job.plan, d.path);
    }
    if job.rejected != [] {
      RejectedExact(job.plan, job.rejected[0]);
    }
  }

  /** The declaration of an attempt: its effect graph is the one of the job. */
  method DeclarationOf(job: Job, seed: Seed, header: nat) returns (declaration: Declaration)
    requires JobOk(job)
    ensures declaration == Declaration(header, EffectsOf(JobKeys(job)), seed)
  {
    FlagsAreLists(job);
    RecoveryReversed(job);
    var effects := JournalEffects(Steps(job), job.selection != [], job.captures != [], HasActiveEffect(job.plan),
                                  HasRejectedEffect(job.plan), AllDomainsRequired(job.control));
    return Declaration(header, effects, seed);
  }

  lemma NothingOnRecord(job: Job)
    ensures var ledger := EmptyLedger();
            && (forall kind, p :: Recorded(ledger, kind, p).None?)
            && Candidates(ledger, job.active) == []
            && RejectedShape(job, ledger) && ActiveShape(job, ledger) && DurableGate(job, ledger)
            && RecoverShape(job, ledger) && PhaseOk(ledger) && OnlyDeclared(job, ledger)
  {
    var ledger := EmptyLedger();
    assert forall kind, p :: SlotAt(ledger, kind, p).Idle?;
    NoCandidates(ledger, job.active);
  }

  lemma NothingCalled(job: Job)
    ensures Linked(EmptyLedger(), []) && CapturesHeld(EmptyLedger(), []) && CallOrder(job, EmptyLedger(), [])
  {
    assert forall kind, p :: SlotAt(EmptyLedger(), kind, p).Idle?;
    assert forall kind :: CallPaths([], kind) == [];
  }

  lemma NothingGated(job: Job)
    ensures LedgerOk(job, EmptyLedger())
  {
    assert forall kind, p :: SlotAt(EmptyLedger(), kind, p).Idle?;
  }

  lemma NothingSound(job: Job, seed: Seed)
    requires JobOk(job) && SeedOk(job, seed)
    ensures Sound(job, seed, LedgerOf([]), [])
  {
    hide LedgerOk, Linked, CapturesHeld, CallOrder, RejectedShape, ActiveShape, DurableGate, RecoverShape, PhaseOk, OnlyDeclared;
    NothingOnRecord(job);
    NothingCalled(job);
    NothingGated(job);
    SoundMeans(job, seed, EmptyLedger(), []);
  }

  lemma NothingStored(job: Job, declaration: Declaration, store: JournalStore)
    requires JobOk(job) && declaration.effects == EffectsOf(JobKeys(job))
    requires store.Durable() && store.declaration == Some(declaration)
    ensures Stored(job, declaration, store)
  {
    JobKeysDistinct(job);
    StoredMeans(job, declaration, store);
  }

  /** Nothing of the attempt is durable, or the attempt is safe. */
  ghost predicate Begun(job: Job, seed: Seed, declaration: Declaration, store: JournalStore, backend: ApplicationBackend)
    reads store, backend
  {
    || (store.declaration.None? && store.Durable() && backend.trace == [])
    || (store.declaration == Some(declaration) && SafeAttempt(job, seed, declaration, store, backend))
  }

  /** Publishes the declaration, then the initial cursor. */
  method Begin(job: Job, seed: Seed, declaration: Declaration, store: JournalStore, backend: ApplicationBackend)
    returns (r: Flow<JournalHistory>)
    requires JobOk(job) && SeedOk(job, seed) && declaration.effects == EffectsOf(JobKeys(job))
    requires store.Durable() && store.declaration.None? && backend.trace == []
    modifies store
    ensures r.Crashed? ==> store.mayCrash || backend.mayCrash
    ensures Begun(job, seed, declaration, store, backend)
    ensures r.Live? ==> fresh(r.value) && InStep(store, r.value) && r.value.declaration == declaration && store.steps == []
    ensures r.Live? ==> SafeAttempt(job, seed, declaration, store, backend)
    ensures store.steps == []
    ensures !r.Thrown?
  {
    hide Inv, StoredParts;
    JobKeysDistinct(job);
    NothingSound(job, seed);
    var durable := store.PublishDeclaration(declaration);
    if store.declaration.Some? {
      NothingStored(job, declaration, store);
    }
    if durable.IsFailure() {
      return durable.PropagateFailure();
    }
    var history := new JournalHistory(declaration);
    assert Accepted(declaration, []);
    var cursor := store.CompareAndPublishCursor(None, history.cursor);
    NothingStored(job, declaration, store);
    if cursor.IsFailure() {
      return cursor.PropagateFailure();
    }
    return Live(history);
  }

  // ---------------------------------------------------------------- the phases

  /** A plan without conditional directory removals that does not claim to
      retain what is not there. */
  ghost predicate RegularPlan(plan: Plan) {
    forall d :: d in plan ==> !d.active.RemoveDirectoryIfEmpty? && (d.active.RetainObserved? ==> d.present)
  }

  /** A regular plan leaves nothing on record that cannot be sealed. */
  lemma RegularSeals(job: Job, ledger: Ledger, fault: Fault)
    requires RegularPlan(job.plan)
    ensures !PlanCorner(fault, job, ledger)
  {
    assert forall p :: !MayRetain(job.plan, p);
    assert JobDeclares(job, ActiveSync()) ==> job.active[0] in job.active;
    assert forall i :: 0 <= i < |job.plan| ==> job.plan[i] in job.plan;
  }

  /** From the executed active phase to a receipt. */
  method FinishActive(app: Application, m: MutatedAttempt, projection: nat) returns (r: Flow<Receipt>)
    requires app.Open() && FreshlyMutated(app.job, app.ledger, m)
    modifies app, app.store, app.history, app.backend
    ensures r.Crashed? ==> app.MayCrash()
    ensures r.Thrown? && r.fault == BackendFault ==> !app.backend.Honest()
    ensures app.Safe()
    ensures r.Live? ==> (r.value.outcome.AttemptCompleted? <==> !Fallen(app.ledger))
    ensures r.Live? ==> app.ledger.receipt == Some(r.value)
    ensures r.Thrown? ==> r.fault == BackendFault || PlanCorner(r.fault, app.job, app.ledger)
  {
    hide Inv, StoredParts, Application.AwareOf, Attests;
    var completion :- CompleteFirst(app, m, projection);
    if completion.Sealed? {
      return Live(completion.receipt);
    }
    r := RecoverStopped(app, completion.value);
  }

  method RecoverStopped(app: Application, it: InterruptedAttempt) returns (r: Flow<Receipt>)
    requires app.Open() && Interruptible(app.job, app.ledger, it) && Untouched(app.ledger, RecoveryKinds())
    requires Fallen(app.ledger)
    modifies app, app.store, app.history, app.backend
    ensures r.Crashed? ==> app.MayCrash()
    ensures r.Thrown? && r.fault == BackendFault ==> !app.backend.Honest()
    ensures app.Safe()
    ensures r.Live? ==> !r.value.outcome.AttemptCompleted? && Fallen(app.ledger)
    ensures r.Live? ==> app.ledger.receipt == Some(r.value)
    ensures r.Thrown? ==> r.fault == BackendFault || PlanCorner(r.fault, app.job, app.ledger)
  {
    hide Inv, StoredParts, Application.AwareOf, Attests;
    UntouchedRecover(app.ledger, RecoveryKinds());
    ghost var before := app.ledger;
    r := RecoverFirst(app, it);
    if r.Live? {
      FallenKept(before, app.ledger, {RecoverActiveObject, SynchronizeRecoveredNamespace});
    }
  }

  method RunPublished(app: Application, published: PublishedAttempt, projection: nat) returns (r: Flow<Receipt>)
    requires app.Open() && FreshlyPublished(app.job, app.ledger, published)
    modifies app, app.store, app.history, app.backend
    ensures r.Crashed? ==> app.MayCrash()
    ensures r.Thrown? && r.fault == BackendFault ==> !app.backend.Honest()
    ensures app.Safe()
    ensures r.Live? ==> (r.value.outcome.AttemptCompleted? <==> !Fallen(app.ledger))
    ensures r.Live? ==> app.ledger.receipt == Some(r.value)
    ensures r.Thrown? ==> r.fault == BackendFault || PlanCorner(r.fault, app.job, app.ledger)
  {
    hide Inv, StoredParts, Application.AwareOf, Attests;
    var active :- ExecuteActive(app, published);
    if active.Stopped? {
      r := RecoverStopped(app, active.interrupted);
    } else {
      r := FinishActive(app, active.mutated, projection);
    }
  }

  /** All phases of a first run.  It ends completed exactly when no effect that
      success requires failed or stayed uncertain.  On a regular plan every step
      the engine asks for is accepted and every receipt it builds is valid:
      unless the process dies or the backend breaks its contract, the run
      returns a durable receipt. */
  method RunFirst(app: Application, projection: nat) returns (r: Flow<Receipt>)
    requires app.Open() && app.ledger == EmptyLedger()
    modifies app, app.store, app.history, app.backend
    ensures r.Crashed? ==> app.MayCrash()
    ensures r.Thrown? && r.fault == BackendFault ==> !app.backend.Honest()
    ensures app.Safe()
    ensures r.Live? ==> (r.value.outcome.AttemptCompleted? <==> !Fallen(app.ledger))
    ensures r.Live? ==> app.ledger.receipt == Some(r.value)
    ensures r.Thrown? ==> r.fault == BackendFault || PlanCorner(r.fault, app.job, app.ledger)
    ensures r.Thrown? && RegularPlan(app.job.plan) ==> r.fault == BackendFault
  {
    hide Inv, StoredParts, Application.AwareOf, Attests;
    var preparation :- Prepare(app);
    if preparation.Sealed? {
      return Live(preparation.receipt);
    }
    var publication :- PublishRejected(app, preparation.value);
    if publication.Sealed? {
      return Live(publication.receipt);
    }
    r := RunPublished(app, publication.value, projection);
    if r.Thrown? && RegularPlan(app.job.plan) {
      RegularSeals(app.job, app.ledger, r.fault);
    }
  }

  /** A receipt that was returned is the one that is durable. */
  lemma ReturnedIsDurable(app: Application, receipt: Receipt)
    requires app.Safe() && app.ledger.receipt == Some(receipt)
    ensures ReceiptAfter(app.store.steps) == Some(receipt)
  {
    app.SafeMeans();
  }

  /** Applies a prepared job for the first time. */
  method ApplyJob(job: Job, seed: Seed, declaration: Declaration, projection: nat, store: JournalStore, backend: ApplicationBackend)
    returns (r: Flow<Receipt>)
    requires JobOk(job) && SeedOk(job, seed) && declaration.effects == EffectsOf(JobKeys(job))
    requires store.Durable() && store.declaration.None? && backend.trace == []
    modifies store, backend
    ensures r.Crashed? ==> store.mayCrash || backend.mayCrash
    ensures r.Thrown? && r.fault == BackendFault ==> !backend.Honest()
    ensures Begun(job, seed, declaration, store, backend)
    ensures r.Live? ==> SafeAttempt(job, seed, declaration, store, backend) && ReceiptAfter(store.steps) == Some(r.value)
    ensures StagesAgree(LedgerOf(store.steps))
    ensures r.Live? ==> (r.value.outcome.AttemptCompleted? <==> !Fallen(LedgerOf(store.steps)))
    ensures !store.mayCrash && !backend.mayCrash && backend.Honest() && RegularPlan(job.plan) ==> r.Live?
    ensures r.Thrown? && RegularPlan(job.plan) ==> r.fault == BackendFault
  {
    var history :- Begin(job, seed, declaration, store, backend);
    var app := new Application(job, seed, declaration, store, history, backend, true);
    r := RunFirst(app, projection);
    app.SafeMeans();
    StoredMeans(job, declaration, store);
    if r.Live? {
      ReturnedIsDurable(app, r.value);
    }
  }

  // ---------------------------------------------------------------- admission

  /** Whether the fresh observations satisfy the planned preconditions. */
  predicate Satisfied(plan: Plan, sightings: seq<Sighting>)
    requires |sightings| == |plan|
  {
    forall i :: 0 <= i < |plan| ==> if plan[i].present then sightings[i] == Here(Matched) else sightings[i].Gone?
  }

  function SeedOf(plan: Plan): (seed: Seed)
    ensures forall p :: p in seed <==> p in PlanPaths(plan)
  {
    if plan == [] then map[]
    else
      var last := plan[|plan| - 1];
      assert PlanPaths(plan) == PlanPaths(plan[..|plan| - 1]) + [last.path];
      SeedOf(plan[..|plan| - 1])[last.path := if last.present then Present else Absent]
  }

  function PresenceSeen(sighting: Sighting): Presence {
    match sighting
    case Unseen => Unobserved
    case Gone => Absent
    case Here(_) => Present
  }

  /** The seed of a journal: what was observed when the plan was admitted. */
  function SeedFrom(plan: Plan, sightings: seq<Sighting>): Seed
    requires |sightings| == |plan|
  {
    if plan == [] then map[]
    else
      var last := |plan| - 1;
      SeedFrom(plan[..last], sightings[..last])[plan[last].path := PresenceSeen(sightings[last])]
  }

  lemma {:induction false} SeedFromAt(plan: Plan, sightings: seq<Sighting>, i: nat)
    requires |sightings| == |plan| && Distinct(PlanPaths(plan)) && i < |plan|
    ensures plan[i].path in SeedFrom(plan, sightings)
    ensures SeedFrom(plan, sightings)[plan[i].path] == PresenceSeen(sightings[i])
  {
    var last := |plan| - 1;
    assert PlanPaths(plan[..last]) == PlanPaths(plan)[..last];
    if i < last {
      SeedFromAt(plan[..last], sightings[..last], i);
      assert PlanPaths(plan)[i] != PlanPaths(plan)[last];
    }
  }

  lemma {:induction false} SeedFromKeys(plan: Plan, sightings: seq<Sighting>)
    requires |sightings| == |plan|
    ensures SeedFrom(plan, sightings).Keys == SeedOf(plan).Keys
  {
    if plan != [] {
      SeedFromKeys(plan[..|plan| - 1], sightings[..|plan| - 1]);
    }
  }

  lemma {:induction false} SeedOfAt(plan: Plan, i: nat)
    requires Distinct(PlanPaths(plan)) && i < |plan|
    ensures plan[i].path in SeedOf(plan) && SeedOf(plan)[plan[i].path] == if plan[i].present then Present else Absent
  {
    var last := |plan| - 1;
    assert PlanPaths(plan[..last]) == PlanPaths(plan)[..last];
    if i < last {
      SeedOfAt(plan[..last], i);
      assert PlanPaths(plan)[i] != PlanPaths(plan)[last];
    }
  }

  /** The observations admit exactly what was planned if and only if every path
      was seen as planned; satisfied preconditions are such observations. */
  lemma SeedAdmits(plan: Plan, sightings: seq<Sighting>)
    requires |sightings| == |plan| && Canonical(plan)
    ensures SeedFrom(plan, sightings) == SeedOf(plan) <==>
              forall i :: 0 <= i < |plan| ==> PresenceSeen(sightings[i]) == if plan[i].present then Present else Absent
    ensures Satisfied(plan, sightings) ==> SeedFrom(plan, sightings) == SeedOf(plan)
  {
    AscendingDistinct(PlanPaths(plan));
    SeedFromKeys(plan, sightings);
    forall i | 0 <= i < |plan|
      ensures plan[i].path in SeedOf(plan)
      ensures SeedFrom(plan, sightings)[plan[i].path] == PresenceSeen(sightings[i])
      ensures SeedOf(plan)[plan[i].path] == if plan[i].present then Present else Absent
    {
      SeedFromAt(plan, sightings, i);
      SeedOfAt(plan, i);
    }
    if forall i :: 0 <= i < |plan| ==> PresenceSeen(sightings[i]) == if plan[i].present then Present else Absent {
      forall p | p in SeedOf(plan) ensures SeedFrom(plan, sightings)[p] == SeedOf(plan)[p] {
        var i :| 0 <= i < |plan| && PlanPaths(plan)[i] == p;
      }
    }
  }

  /** The seed of a plan is what its job admits. */
  lemma SeedPlanned(plan: Plan)
    requires Canonical(plan)
    ensures forall d :: d in plan ==> d.path in SeedOf(plan) && SeedOf(plan)[d.path] == if d.present then Present else Absent
  {
    AscendingDistinct(PlanPaths(plan));
    forall d | d in plan ensures d.path in SeedOf(plan) && SeedOf(plan)[d.path] == if d.present then Present else Absent {
      var i :| 0 <= i < |plan| && plan[i] == d;
      SeedOfAt(plan, i);
    }
  }

  /** Every path was seen as planned after `at` calls. */
  ghost predicate SeenAsPlanned(plan: Plan, at: nat, seen: seq<Observation>) {
    forall d :: d in plan ==> Observation(at, d.path, d.present) in seen
  }

  lemma SatisfiedSeen(plan: Plan, sightings: seq<Sighting>, at: nat, seen: seq<Observation>)
    requires |sightings| == |plan| && Satisfied(plan, sightings) && Sighted(PlanPaths(plan), sightings, at, seen)
    ensures SeenAsPlanned(plan, at, seen)
  {
    forall d | d in plan ensures Observation(at, d.path, d.present) in seen {
      var i :| 0 <= i < |plan| && plan[i] == d;
      assert PlanPaths(plan)[i] == d.path;
    }
  }

  /** Observes every planned path.  A plan is admitted exactly when what was
      seen satisfies it; then every path was seen as planned, and the seed made
      of the observations is the planned one. */
  method Admit(plan: Plan, backend: ApplicationBackend) returns (r: Flow<Option<Seed>>, ghost sightings: seq<Sighting>)
    requires Canonical(plan)
    modifies backend`seen
    ensures r.Crashed? ==> backend.mayCrash
    ensures r.Live? ==> Sighted(PlanPaths(plan), sightings, |backend.trace|, backend.seen)
                        && (r.value.Some? <==> Satisfied(plan, sightings))
    ensures r.Live? && r.value.Some? ==> r.value.value == SeedOf(plan) && SeenAsPlanned(plan, |backend.trace|, backend.seen)
    ensures !r.Thrown?
  {
    var observed := backend.Observe(PlanPaths(plan));
    sightings := [];
    if observed.IsFailure() {
      r := observed.PropagateFailure();
      return;
    }
    sightings := observed.value;
    if !Satisfied(plan, observed.value) {
      r := Live(None);
      return;
    }
    SeedAdmits(plan, observed.value);
    SatisfiedSeen(plan, observed.value, |backend.trace|, backend.seen);
    r := Live(Some(SeedFrom(plan, observed.value)));
  }

  /** Applies a plan: admitted, frozen into a job, journaled and run.  A plan
      that is refused, or whose preconditions do not hold, leaves no journal
      and makes no call. */
  method ApplyPlan(plan: Plan, image: Option<Image>, control: Control, header: nat, projection: nat, store: JournalStore,
                   backend: ApplicationBackend) returns (r: Flow<Receipt>, job: Option<Job>)
    requires Canonical(plan) && (image.Some? ==> Normalized(image.value))
    requires store.Durable() && store.declaration.None? && backend.trace == []
    modifies store, backend
    ensures r.Crashed? ==> store.mayCrash || backend.mayCrash
    ensures r.Thrown? && r.fault == BackendFault ==> !backend.Honest()
    ensures job.Some? ==>
              && job.value.plan == plan && ScheduledFrom(job.value, image)
              && Begun(job.value, SeedOf(plan), Declaration(header, EffectsOf(JobKeys(job.value)), SeedOf(plan)), store, backend)
    ensures job.None? ==> store.declaration.None? && backend.trace == []
    ensures job.Some? ==> Preparable(plan, image) && SelectedFrom(job.value, image)
    ensures r.Thrown? && job.None? ==> r.fault == PlanRefused && !Preparable(plan, image)
    ensures StagesAgree(LedgerOf(store.steps))
    ensures r.Live? && job.Some? ==> (r.value.outcome.AttemptCompleted? <==> !Fallen(LedgerOf(store.steps)))
    ensures !store.mayCrash && !backend.mayCrash && backend.Honest() && RegularPlan(plan) && job.Some? ==> r.Live?
    ensures r.Live? && job.Some? ==> ReceiptAfter(store.steps) == Some(r.value)
    ensures r.Live? && job.None? ==> r.value.outcome.PreconditionRefused?
    ensures r.Thrown? && RegularPlan(plan) ==> r.fault == BackendFault || (r.fault == PlanRefused && job.None?)
  {
    hide Preparable, SelectedFrom, ScheduledFrom, Inv, StoredParts, JobKeys, SafeAttempt;
    job := None;
    var seed: Flow<Option<Seed>>;
    ghost var sightings: seq<Sighting>;
    seed, sightings := Admit(plan, backend);
    if seed.IsFailure() {
      r := seed.PropagateFailure();
      return;
    }
    if seed.value.None? {
      var none := Durability(NotAttempted, NotAttempted, NotAttempted, NotAttempted, NotAttempted, NotAttempted);
      r := Live(FailedReceipt(plan, PreconditionRefused, Unchanged, none, [], false).value);
      return;
    }
    var prepared := PrepareJob(plan, image, control);
    if prepared.Refused? {
      r := Thrown(PlanRefused);
      return;
    }
    SeedPlanned(plan);
    job := Some(prepared.value);
    var declaration := DeclarationOf(prepared.value, seed.value.value, header);
    r := ApplyJob(prepared.value, seed.value.value, declaration, projection, store, backend);
  }
}
