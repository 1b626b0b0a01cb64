/** A journaled application: one job, its durable store, the history in memory
    and the backend; and the ways a step is published.

    Whatever happens inside a method here, the attempt stays safe: the store is
    durable and the invariant of module Protocol holds of what is durable and
    of the calls made so far.
 */
module Applications {
  import opened Wrappers
  import opened Paths
  import opened Plans
  import opened Journal
  import opened Record
  import opened History
  import opened Ledgers
  import opened Store
  import opened Jobs
  import opened Protocol
  import opened Backend

  ghost predicate StoredParts(job: Job, declaration: Declaration, store: JournalStore)
    reads store
  {
    && declaration.effects == EffectsOf(JobKeys(job)) && Indexed(declaration.effects)
    && store.Durable() && store.declaration == Some(declaration)
  }

  /** The store durably holds an accepted journal of the job. */
  ghost predicate Stored(job: Job, declaration: Declaration, store: JournalStore)
    reads store
  {
    forall d: Declaration {:trigger Unfold(Storage, d, declaration)} ::
      Unfold(Storage, d, declaration) ==> StoredParts(job, d, store)
  }

  lemma StoredMeans(job: Job, declaration: Declaration, store: JournalStore)
    ensures Stored(job, declaration, store) <==> StoredParts(job, declaration, store)
  {
    assert Unfold(Storage, declaration, declaration);
  }

  lemma CloseStored(job: Job, declaration: Declaration, store: JournalStore)
    requires StoredParts(job, declaration, store)
    ensures Stored(job, declaration, store)
  {
  }

  /** What holds between any two steps of any run, and after any crash. */
  ghost predicate SafeAttempt(job: Job, seed: Seed, declaration: Declaration, store: JournalStore, backend: ApplicationBackend)
    reads store, backend
  {
    && Stored(job, declaration, store)
    && Sound(job, seed, LedgerOf(store.steps), backend.trace)
    && Attested(job, store.steps, backend)
  }

  // ---------------------------------------------------------------- what the journal attests

  /** Every mechanism was called under an intent that was durable then. */
  ghost predicate WrittenAhead(steps: seq<Step>, trace: Trace) {
    forall i :: 0 <= i < |trace| && Mechanism(trace[i].kind) ==> IntendedFirst(steps, trace[i])
  }

  ghost predicate IntendedFirst(steps: seq<Step>, call: Call) {
    call.durable <= |steps| && SlotAt(LedgerOf(steps[..call.durable]), call.kind, call.path).Intended?
  }

  /** A result that a backend which keeps its contract may report. */
  predicate MovePlausible(job: Job, recordOf: Path -> nat, move: Move) {
    match move.fact
    case Some(ActiveFact(p, outcome)) => outcome.ConditionalRetained? ==> MayRetain(job.plan, p)
    case Some(RejectedFact(p, _, record)) => record.Some? ==> record.value == recordOf(p)
    case _ => true
  }

  /** Every recorded result is one that such a backend may report. */
  ghost predicate Plausible(job: Job, recordOf: Path -> nat, ledger: Ledger) {
    forall key: Key :: At(ledger, key).Done? ==>
      MovePlausible(job, recordOf, Move(key, At(ledger, key).kind, At(ledger, key).fact))
  }

  ghost predicate Attests(job: Job, steps: seq<Step>, backend: ApplicationBackend)
    reads backend
  {
    && WrittenAhead(steps, backend.trace)
    && (LedgerOf(steps).receipt.Some? ==> Witnessed(LedgerOf(steps).receipt.value, backend.trace, backend.seen))
    && (backend.honest ==> Plausible(job, backend.recordOf, LedgerOf(steps)))
  }

  /** What calls, observations and results have to do with the journal. */
  ghost predicate Attested(job: Job, steps: seq<Step>, backend: ApplicationBackend)
    reads backend
  {
    forall s: seq<Step> {:trigger Unfold(Attestation, s, steps)} :: Unfold(Attestation, s, steps) ==> Attests(job, s, backend)
  }

  lemma AttestedMeans(job: Job, steps: seq<Step>, backend: ApplicationBackend)
    ensures Attested(job, steps, backend) <==> Attests(job, steps, backend)
  {
    assert Unfold(Attestation, steps, steps);
  }

  /** Intents stay durable while the journal grows. */
  lemma WrittenAheadStays(before: seq<Step>, after: seq<Step>, trace: Trace)
    requires WrittenAhead(before, trace) && before <= after
    ensures WrittenAhead(after, trace)
  {
    forall i | 0 <= i < |trace| && Mechanism(trace[i].kind) ensures IntendedFirst(after, trace[i]) {
      assert IntendedFirst(before, trace[i]);
      assert after[..trace[i].durable] == before[..trace[i].durable];
    }
  }

  lemma PlausibleKept(job: Job, recordOf: Path -> nat, before: Ledger, entry: Entry)
    requires Plausible(job, recordOf, before)
    requires entry.move.Some? ==> MovePlausible(job, recordOf, entry.move.value)
    ensures Plausible(job, recordOf, Enter(before, entry))
  {
    var after := Enter(before, entry);
    forall key: Key | At(after, key).Done?
      ensures MovePlausible(job, recordOf, Move(key, At(after, key).kind, At(after, key).fact))
    {
      if entry.move.None? || key != entry.move.value.key {
        assert At(after, key) == At(before, key);
      }
    }
  }

  /** The journal grew by at most one entry. */
  lemma AttestedKept(job: Job, before: seq<Step>, after: seq<Step>, entry: Entry, backend: ApplicationBackend)
    requires Attested(job, before, backend) && before <= after
    requires LedgerOf(after) == LedgerOf(before) || LedgerOf(after) == Enter(LedgerOf(before), entry)
    requires entry.receipt.Some? ==> Witnessed(entry.receipt.value, backend.trace, backend.seen)
    requires entry.move.Some? && backend.honest ==> MovePlausible(job, backend.recordOf, entry.move.value)
    ensures Attested(job, after, backend)
  {
    AttestedMeans(job, before, backend);
    WrittenAheadStays(before, after, backend.trace);
    if backend.honest {
      PlausibleKept(job, backend.recordOf, LedgerOf(before), entry);
    }
    AttestedMeans(job, after, backend);
  }

  /** One more call, of a capture or under its durable intent. */
  lemma WrittenAheadCall(steps: seq<Step>, before: Trace, call: Call)
    requires WrittenAhead(steps, before) && (Mechanism(call.kind) ==> IntendedFirst(steps, call))
    ensures WrittenAhead(steps, before + [call])
  {
  }

  /** The ledger after a slot and the state changed. */
  function Placed(ledger: Ledger, state: State, key: Key, slot: Slot): Ledger {
    ledger.(state := state, slots := ledger.slots[key := slot], durability := DurabilityWith(ledger.durability, slot))
  }

  /** An event that the journal of `ledger` accepts. */
  ghost predicate EventFits(job: Job, ledger: Ledger, state: State, move: Move) {
    && StateMayFollow(ledger.state, state) && !Successful(state) && !state.Recovered?
    && JobDeclares(job, move.key) && MoveAllowed(ledger, move)
  }

  /** A first run stages once, so its staging facts agree. */
  ghost predicate Agreeing(first: bool, ledger: Ledger) {
    forall l: Ledger {:trigger Unfold(Agreement, l, ledger)} :: Unfold(Agreement, l, ledger) ==> (first ==> StagesAgree(l))
  }

  /** Every staging fact so far is the one of this move. */
  ghost predicate StageFits(first: bool, ledger: Ledger, move: Move) {
    first && move.key.kind.StageIncomingPayload? && !move.kind.Intent? ==>
      forall a: Key :: a.kind.StageIncomingPayload? && At(ledger, a).Done? ==> At(ledger, a).fact == move.fact
  }

  lemma AgreeingKept(first: bool, ledger: Ledger, entry: Entry)
    requires Agreeing(first, ledger) && (entry.move.Some? ==> StageFits(first, ledger, entry.move.value))
    ensures Agreeing(first, Enter(ledger, entry))
  {
    assert Unfold(Agreement, ledger, ledger);
    if first && entry.move.Some? {
      var after := Enter(ledger, entry);
      assert forall key :: key != entry.move.value.key ==> At(after, key) == At(ledger, key);
    }
  }

  class Application {
    const job: Job
    const seed: Seed
    const declaration: Declaration
    const store: JournalStore
    const history: JournalHistory
    const backend: ApplicationBackend
    /** The durable steps found at the start; they are never rewritten. */
    ghost const origin: seq<Step>
    /** Whether this is the first run of the attempt. */
    ghost const first: bool
    /** The ledger of the durable steps. */
    ghost var ledger: Ledger

    /** The parts of `Aware`, for the ledger `l`. */
    ghost predicate AwareOf(l: Ledger)
      reads this, store, history
    {
      && StoredParts(job, declaration, store)
      && origin <= store.steps && l == LedgerOf(store.steps)
      && InStep(store, history) && history.declaration == declaration
    }

    /** The process in memory knows exactly what is durable. */
    ghost predicate Aware()
      reads this, store, history
    {
      forall l: Ledger {:trigger Unfold(Awareness, l, ledger)} :: Unfold(Awareness, l, ledger) ==> AwareOf(l)
    }

    lemma AwareMeans()
      ensures Aware() <==> AwareOf(ledger)
    {
      assert Unfold(Awareness, ledger, ledger);
    }

    /** `ledger` is what the store says, and no step of the start was lost. */
    ghost predicate LedgerKnown()
      reads this, store
    {
      forall l: Ledger {:trigger Unfold(Knowledge, l, ledger)} ::
        Unfold(Knowledge, l, ledger) ==> origin <= store.steps && l == LedgerOf(store.steps)
    }

    /** The store is durable, `ledger` is what it says, and that is sound. */
    ghost predicate Safe()
      reads this, store, backend
    {
      && Stored(job, declaration, store)
      && LedgerKnown()
      && Sound(job, seed, ledger, backend.trace)
      && Agreeing(first, ledger)
      && Attested(job, store.steps, backend)
    }

    /** Safe, and the process in memory knows exactly what is durable. */
    ghost predicate Alive()
      reads this, store, history, backend
    {
      && Aware() && Sound(job, seed, ledger, backend.trace) && Agreeing(first, ledger)
      && Attested(job, store.steps, backend)
    }

    /** The move is one that this run may record. */
    ghost predicate Fitting(move: Move)
      reads this
    {
      StageFits(first, ledger, move) && (backend.honest ==> MovePlausible(job, backend.recordOf, move))
    }

    /** Whether the process may die inside a store or backend call. */
    predicate MayCrash() {
      store.mayCrash || backend.mayCrash
    }

    lemma IsSafe()
      requires Alive()
      ensures Safe()
    {
      AwareMeans();
      StoredMeans(job, declaration, store);
    }

    /** Completed evidence is never durable without its receipt. */
    lemma CompletedNeedsReceipt()
      requires Aware()
      ensures ledger.receipt.None? ==> ledger.completed.None?
    {
      AwareMeans();
      LedgerAgrees(declaration, history.steps);
      SnapshotAccepted(declaration, history.steps);
    }

    lemma SafeMeans()
      ensures Safe() ==> SafeAttempt(job, seed, declaration, store, backend) && origin <= store.steps
                         && ledger == LedgerOf(store.steps) && (first ==> StagesAgree(ledger))
    {
      assert Unfold(Knowledge, ledger, ledger);
      assert Unfold(Agreement, ledger, ledger);
    }

    /** No receipt was sealed yet. */
    ghost predicate Open()
      reads this, store, history, backend
    {
      Alive() && ledger.receipt.None? && ledger.completed.None?
    }

    constructor (job: Job, seed: Seed, declaration: Declaration, store: JournalStore, history: JournalHistory,
                 backend: ApplicationBackend, ghost first: bool)
      requires SafeAttempt(job, seed, declaration, store, backend) && InStep(store, history) && history.declaration == declaration
      requires first ==> StagesAgree(LedgerOf(store.steps))
      ensures this.job == job && this.seed == seed && this.declaration == declaration
      ensures this.store == store && this.history == history && this.backend == backend && this.first == first
      ensures Alive() && ledger == LedgerOf(store.steps) && origin == store.steps
    {
      this.job, this.seed, this.declaration := job, seed, declaration;
      this.store, this.history, this.backend, this.first := store, history, backend, first;
      ledger := LedgerOf(store.steps);
      origin := store.steps;
      new;
      StoredMeans(job, declaration, store);
      AwareMeans();
    }

    lemma Declares(key: Key)
      requires Aware()
      ensures Declared(declaration.effects, key) <==> JobDeclares(job, key)
    {
      AwareMeans();
      JobDeclared(job, key);
    }

    method State() returns (state: State)
      requires Alive()
      ensures state == ledger.state
    {
      AwareMeans();
      ReplayAgrees(declaration, history.steps);
      LedgerAgrees(declaration, history.steps);
      return history.cursor.state;
    }

    /** What the journal says about one effect. */
    method ProgressFor(key: Key) returns (progress: Progress)
      requires Alive() && JobDeclares(job, key)
      ensures progress == ProgressOf(At(ledger, key))
    {
      AwareMeans();
      JobDeclared(job, key);
      LedgerAgrees(declaration, history.steps);
      var effect := FindEffect(declaration.effects, key);
      return history.progress[effect.value.ordinal];
    }

    lemma Settle()
      requires StoredParts(job, declaration, store) && origin <= store.steps && ledger == LedgerOf(store.steps)
      ensures Stored(job, declaration, store) && LedgerKnown()
      ensures InStep(store, history) && history.declaration == declaration ==> Aware()
    {
      CloseStored(job, declaration, store);
      if InStep(store, history) && history.declaration == declaration {
        AwareMeans();
      }
    }

    /** The event of an entry; an undeclared effect is refused. */
    method EventOf(entry: Entry) returns (r: Flow<Option<Event>>)
      requires Aware()
      ensures r.Crashed? ==> MayCrash()
      ensures r.Live? ==> EventMatches(history, entry, r.value)
      ensures !r.Live? ==> r == Thrown(StepRefused) && !Allows(declaration.effects, ledger, entry)
    {
      AwareMeans();
      if entry.move.None? {
        return Live(None);
      }
      var effect := FindEffect(declaration.effects, entry.move.value.key);
      if effect.None? {
        return Thrown(StepRefused);
      }
      return Live(Some(Event(|history.events|, entry.move.value.kind, effect.value)));
    }

    /** What the process in memory knows. */
    lemma InMemory()
      requires Aware()
      ensures StoredParts(job, declaration, store) && InStep(store, history) && history.declaration == declaration
      ensures origin <= store.steps && ledger == LedgerOf(store.steps)
    {
      AwareMeans();
    }

    /** Makes the step of an entry durable, if the ledger allows it. */
    method Commit(entry: Entry, event: Option<Event>) returns (r: Flow<()>)
      requires Aware() && EventMatches(history, entry, event)
      modifies this, store, history
      ensures r.Crashed? ==> MayCrash()
      ensures Stored(job, declaration, store) && LedgerKnown() && old(store.steps) <= store.steps
      ensures LedgerOf(store.steps) == ledger
      ensures ledger == old(ledger) || (ledger == Enter(old(ledger), entry) && Allows(declaration.effects, old(ledger), entry))
      ensures r.Live? ==> Aware() && ledger == Enter(old(ledger), entry) && Allows(declaration.effects, old(ledger), entry)
      ensures r.Thrown? <==> !Allows(declaration.effects, old(ledger), entry)
      ensures r.Thrown? ==> r.fault == StepRefused
    {
      hide Allows, Enter, LedgerOf, JournalStore.Durable, Attests, Inv, Application.Aware, Application.AwareOf,
        JobKeys, EffectsOf, Indexed, EventMatches;
      InMemory();
      r := Extend(store, history, entry, event);
      ledger := LedgerOf(store.steps);
      Settle();
    }

    /** Publishes one step.  It throws exactly when the ledger does not allow
        the step, and then nothing becomes durable. */
    method Publish(entry: Entry) returns (r: Flow<()>)
      requires Alive()
      requires Allows(declaration.effects, ledger, entry) ==> Sound(job, seed, Enter(ledger, entry), backend.trace)
      requires entry.move.Some? ==> Fitting(entry.move.value)
      requires entry.receipt.Some? ==> Witnessed(entry.receipt.value, backend.trace, backend.seen)
      modifies this, store, history
      ensures r.Crashed? ==> MayCrash()
      ensures Safe()
      ensures r.Live? ==> Alive() && ledger == Enter(old(ledger), entry)
      ensures ledger == old(ledger) || ledger == Enter(old(ledger), entry)
      ensures r.Thrown? ==> ledger == old(ledger)
      ensures r.Thrown? <==> !Allows(declaration.effects, old(ledger), entry)
      ensures r.Thrown? ==> r.fault == StepRefused
    {
      hide Allows, StoredParts, Inv, Attests, Placed;
      IsSafe();
      AgreeingKept(first, ledger, entry);
      AwareMeans();
      ghost var before := store.steps;
      var event :- EventOf(entry);
      r := Commit(entry, event);
      AttestedKept(job, before, store.steps, entry, backend);
    }
  }

  /** Appends the step of an entry. */
  method Extend(store: JournalStore, history: JournalHistory, entry: Entry, event: Option<Event>) returns (r: Flow<()>)
    requires InStep(store, history) && Indexed(history.declaration.effects)
    requires EventMatches(history, entry, event)
    modifies store, history
    ensures r.Crashed? ==> store.mayCrash
    ensures store.Durable() && store.declaration == old(store.declaration) && old(store.steps) <= store.steps
    ensures LedgerOf(store.steps) == LedgerOf(old(store.steps)) || LedgerOf(store.steps) == Enter(LedgerOf(old(store.steps)), entry)
    ensures LedgerOf(store.steps) != LedgerOf(old(store.steps)) ==>
              Allows(history.declaration.effects, LedgerOf(old(store.steps)), entry)
    ensures r.Live? ==> InStep(store, history) && LedgerOf(store.steps) == Enter(LedgerOf(old(store.steps)), entry)
    ensures r.Live? ==> Allows(history.declaration.effects, LedgerOf(old(store.steps)), entry)
    ensures r.Thrown? <==> !Allows(history.declaration.effects, LedgerOf(old(store.steps)), entry)
    ensures r.Thrown? ==> r.fault == StepRefused && store.steps == old(store.steps)
  {
    ghost var before := store.steps;
    ghost var step := NextStep(history.Value(), entry.state, event, FactOf(entry), entry.receipt, entry.completed);
    NextStepEntry(history, entry, event, step);
    r, step := AppendJournalStep(store, history, entry.state, event, FactOf(entry), entry.receipt, entry.completed);
    LedgerFollows(before, store.steps, step, entry);
  }

  function FactOf(entry: Entry): Option<Fact> {
    if entry.move.Some? then entry.move.value.fact else None
  }

  /** The event is the entry's move, next in sequence. */
  ghost predicate EventMatches(history: JournalHistory, entry: Entry, event: Option<Event>)
    reads history
  {
    && (event.Some? <==> entry.move.Some?)
    && (event.Some? ==>
          && event.value.sequence == |history.events| && event.value.effect in history.declaration.effects
          && KeyOf(event.value.effect) == entry.move.value.key && event.value.kind == entry.move.value.kind)
  }

  lemma NextStepEntry(history: JournalHistory, entry: Entry, event: Option<Event>, step: Step)
    requires history.Valid() && Indexed(history.declaration.effects) && EventMatches(history, entry, event)
    requires step == NextStep(history.Value(), entry.state, event, FactOf(entry), entry.receipt, entry.completed)
    ensures EntryOf(step) == entry
    ensures Admissible(history.declaration, history.steps, step) <==>
            Allows(history.declaration.effects, LedgerOf(history.steps), entry)
  {
    ReplayAgrees(history.declaration, history.steps);
    AdmissibleIsAllowed(history.declaration, history.steps, step);
  }

  lemma LedgerFollows(before: seq<Step>, after: seq<Step>, step: Step, entry: Entry)
    requires after == before || after == before + [step]
    requires EntryOf(step) == entry
    ensures LedgerOf(after) == if after == before then LedgerOf(before) else Enter(LedgerOf(before), entry)
  {
    LedgerAppend(before, step);
  }

  // ---------------------------------------------------------------- events and states

  lemma FitsIsAllowed(job: Job, ledger: Ledger, effects: seq<Effect>, state: State, move: Move)
    requires ledger.receipt.None? && ledger.completed.None?
    requires Declared(effects, move.key) <==> JobDeclares(job, move.key)
    ensures Enter(ledger, Entry(state, Some(move), None, None)) == Placed(ledger, state, move.key, SlotAfter(move))
    ensures Allows(effects, ledger, Entry(state, Some(move), None, None)) <==> EventFits(job, ledger, state, move)
  {
  }

  /** Publishes one event of an effect. */
  method PublishEvent(app: Application, state: State, move: Move) returns (r: Flow<()>)
    requires app.Open()
    requires EventFits(app.job, app.ledger, state, move) ==>
               Sound(app.job, app.seed, Placed(app.ledger, state, move.key, SlotAfter(move)), app.backend.trace)
    requires app.Fitting(move)
    modifies app, app.store, app.history
    ensures r.Crashed? ==> app.MayCrash()
    ensures app.Safe()
    ensures r.Live? ==> app.Open() && app.ledger == Placed(old(app.ledger), state, move.key, SlotAfter(move))
    ensures r.Thrown? <==> !EventFits(app.job, old(app.ledger), state, move)
    ensures r.Thrown? ==> r.fault == StepRefused
  {
    app.Declares(move.key);
    FitsIsAllowed(app.job, app.ledger, app.declaration.effects, state, move);
    r := app.Publish(Entry(state, Some(move), None, None));
  }

  lemma SoundNeutral(job: Job, seed: Seed, ledger: Ledger, trace: Trace, entry: Entry)
    requires Sound(job, seed, ledger, trace)
    requires entry.move.Some? ==> Neutral(entry.move.value.key.kind) && JobDeclares(job, entry.move.value.key)
                                  && MoveAllowed(ledger, entry.move.value)
    requires StateMayFollow(ledger.state, entry.state)
    requires RecoverIdle(Enter(ledger, entry)) || entry.state.Recovering? || entry.receipt.Some?
    requires entry.receipt.Some? ==> Truthful(job, seed, ledger, entry.receipt.value)
    requires EntryFits(job, ledger, entry) && (entry.move.Some? ==> EvidenceFits(job, seed, ledger, entry.move.value))
    ensures Sound(job, seed, Enter(ledger, entry), trace)
  {
    SoundMeans(job, seed, ledger, trace);
    SoundMeans(job, seed, Enter(ledger, entry), trace);
    KeepNeutral(job, seed, ledger, trace, entry);
    KeepLedger(job, ledger, entry);
    KeepRight(job, seed, ledger, entry);
  }

  /** It is not too early for an effect: a store is synchronized, and results
      are observed, after what they depend on. */
  ghost predicate Due(job: Job, ledger: Ledger, key: Key) {
    && (key == RejectedSync() ==> RejectedPublished(job, ledger))
    && (key == ActiveSync() || key.kind.ObserveResult? ==> ActivePassed(job, ledger))
    && (key == ActiveSync() ==> At(ledger, RecoveredSync()).Idle?)
    && (key == RecoveredSync() ==> AllRecovered(ledger, Candidates(ledger, job.active)))
    && (key == EvidenceSync() ==> CompletedSlot(At(ledger, EvidenceKey())))
  }

  /** The replay fact of a terminal event belongs to it, and the event does not
      come too early; a receipt comes with the end of its sealing. */
  ghost predicate MoveFits(job: Job, ledger: Ledger, move: Move) {
    && (!move.kind.Intent? ==> SlotFits(job, move.key, move.kind, move.fact) && move.key != SealKey())
    && Due(job, ledger, move.key)
  }

  /** Publishes an event that is neither a capture nor a mechanism. */
  method PublishNeutral(app: Application, state: State, move: Move) returns (r: Flow<()>)
    requires app.Open() && Neutral(move.key.kind) && MoveFits(app.job, app.ledger, move) && !state.Prepared?
    requires RecoverIdle(app.ledger) || state.Recovering?
    requires move.key == RecoveredSync() ==> state.Recovering?
    requires app.Fitting(move)
    requires Reaches(app.job, app.ledger, state) && EvidenceFits(app.job, app.seed, app.ledger, move)
    modifies app, app.store, app.history
    ensures r.Crashed? ==> app.MayCrash()
    ensures app.Safe()
    ensures r.Live? ==> app.Open() && app.ledger == Placed(old(app.ledger), state, move.key, SlotAfter(move))
    ensures r.Thrown? <==> !EventFits(app.job, old(app.ledger), state, move)
    ensures r.Thrown? ==> r.fault == StepRefused
  {
    hide Inv, StoredParts, Application.AwareOf, Attests, EvidenceFits, PreparedGate;
    NeutralIdle(app.ledger, state, move.key, SlotAfter(move));
    if EventFits(app.job, app.ledger, state, move) {
      app.IsSafe();
      SoundNeutral(app.job, app.seed, app.ledger, app.backend.trace, Entry(state, Some(move), None, None));
    }
    r := PublishEvent(app, state, move);
  }

  lemma FinishedSame(job: Job, before: Ledger, after: Ledger)
    requires after.slots == before.slots
    ensures Finished(job, before, PreparationKinds()) ==> Finished(job, after, PreparationKinds())
    ensures RecoverIdle(before) ==> RecoverIdle(after)
  {
    assert forall p :: Recorded(after, RecoverActiveObject, p) == Recorded(before, RecoverActiveObject, p);
  }

  /** Publishes a state change. */
  method PublishState(app: Application, state: State) returns (r: Flow<()>)
    requires app.Open()
    requires state.Prepared? ==> Finished(app.job, app.ledger, PreparationKinds())
    requires RecoverIdle(app.ledger) || state.Recovering?
    requires Reaches(app.job, app.ledger, state)
    modifies app, app.store, app.history
    ensures r.Crashed? ==> app.MayCrash()
    ensures app.Safe()
    ensures r.Live? ==> app.Open() && app.ledger == old(app.ledger).(state := state)
    ensures app.ledger == old(app.ledger) || app.ledger == old(app.ledger).(state := state)
    ensures r.Thrown? <==> !StateMayFollow(old(app.ledger).state, state) || Successful(state) || state.Recovered?
    ensures r.Thrown? ==> r.fault == StepRefused
  {
    var entry := Entry(state, None, None, None);
    if StateMayFollow(app.ledger.state, state) {
      app.IsSafe();
      FinishedSame(app.job, app.ledger, Enter(app.ledger, entry));
      SoundNeutral(app.job, app.seed, app.ledger, app.backend.trace, entry);
    }
    r := app.Publish(entry);
  }

  /** Seals a failure receipt with a state and no event. */
  method SealState(app: Application, state: State, receipt: Receipt) returns (r: Flow<()>)
    requires app.Open() && Truthful(app.job, app.seed, app.ledger, receipt) && !state.Prepared?
    requires !receipt.outcome.AttemptCompleted?
    requires Witnessed(receipt, app.backend.trace, app.backend.seen)
    modifies app, app.store, app.history
    ensures r.Crashed? ==> app.MayCrash()
    ensures app.Safe()
    ensures r.Live? ==> app.ledger == old(app.ledger).(state := state, receipt := Some(receipt))
    ensures r.Thrown? <==> !StateMayFollow(old(app.ledger).state, state) || Successful(state)
    ensures r.Thrown? ==> r.fault == StepRefused
  {
    var entry := Entry(state, None, Some(receipt), None);
    if StateMayFollow(app.ledger.state, state) && !Successful(state) {
      app.IsSafe();
      SoundNeutral(app.job, app.seed, app.ledger, app.backend.trace, entry);
    }
    r := app.Publish(entry);
  }

  // ---------------------------------------------------------------- mechanisms

  /** It is the turn of path `p` of a mechanism. */
  ghost predicate TurnOf(job: Job, ledger: Ledger, kind: EffectKind, p: Path, k: nat) {
    Turn(job, ledger, kind, k) && Turns(job, ledger, kind)[k] == p
  }

  /** The state in which a mechanism runs. */
  predicate RunsIn(kind: EffectKind, state: State) {
    if kind.RecoverActiveObject? then state.Recovering? else state.Mutating?
  }

  /** Publishes the intent of a mechanism whose turn it is. */
  method Intend(app: Application, state: State, kind: EffectKind, p: Path, ghost k: nat) returns (r: Flow<()>)
    requires app.Open() && Mechanism(kind) && TurnOf(app.job, app.ledger, kind, p, k)
    requires SlotAt(app.ledger, kind, p).Idle? && RunsIn(kind, state)
    requires kind.PublishRejectedObject? ==> RecoverIdle(app.ledger)
    modifies app, app.store, app.history
    ensures r.Crashed? ==> app.MayCrash()
    ensures app.Safe()
    ensures r.Live? ==> app.Open() && app.ledger == Placed(old(app.ledger), state, Key(kind, Some(p)), Intended)
    ensures r.Live? && RecoverIdle(old(app.ledger)) && !kind.RecoverActiveObject? ==> RecoverIdle(app.ledger)
    ensures r.Live? ==> p !in CallPaths(app.backend.trace, kind) && TurnOf(app.job, app.ledger, kind, p, k)
    ensures r.Thrown? ==> r.fault == StepRefused
                          && (!StateMayFollow(old(app.ledger).state, state) || !JobDeclares(app.job, Key(kind, Some(p))))
  {
    hide Inv, StoredParts, Application.AwareOf, Attests, Candidates, CallPaths;
    var move := Move(Key(kind, Some(p)), Intent, None);
    app.IsSafe();
    SoundUncalled(app.job, app.seed, app.ledger, app.backend.trace, kind, p);
    if !kind.PublishRejectedObject? {
      TurnBeforeRecovered(app.job, app.seed, app.ledger, app.backend.trace, kind, k);
    }
    if EventFits(app.job, app.ledger, state, move) {
      KeepMechanism(app.job, app.seed, app.ledger, app.backend.trace, Entry(state, Some(move), None, None), kind, k);
    }
    ghost var before := app.ledger;
    r := PublishEvent(app, state, move);
    PlacedIdle(before, state, kind, p, Intended);
    TurnIntended(app.job, before, state, kind, p, k);
  }

  /** Its intent does not take the turn away from a path. */
  lemma TurnIntended(job: Job, ledger: Ledger, state: State, kind: EffectKind, p: Path, k: nat)
    requires TurnOf(job, ledger, kind, p, k) && Mechanism(kind) && SlotAt(ledger, kind, p).Idle?
    ensures TurnOf(job, Placed(ledger, state, Key(kind, Some(p)), Intended), kind, p, k)
  {
    var next := Placed(ledger, state, Key(kind, Some(p)), Intended);
    assert forall other, q :: other != kind || q != p ==> Recorded(next, other, q) == Recorded(ledger, other, q);
    if kind.RecoverActiveObject? {
      CandidatesSame(ledger, next, job.active);
    }
    assert Turns(job, next, kind) == Turns(job, ledger, kind);
    forall i | 0 <= i < k ensures Cleared(next, kind, Turns(job, next, kind)[i]) {
      assert Cleared(ledger, kind, Turns(job, ledger, kind)[i]);
    }
    assert kind.PublishActiveObject? ==> ActiveMayRun(job, ledger) && ActiveMayRun(job, next);
  }

  /** A slot of another kind leaves recovery idle. */
  lemma PlacedIdle(ledger: Ledger, state: State, kind: EffectKind, p: Path, slot: Slot)
    ensures RecoverIdle(ledger) && !kind.RecoverActiveObject? ==>
              RecoverIdle(Placed(ledger, state, Key(kind, Some(p)), slot))
  {
    var next := Placed(ledger, state, Key(kind, Some(p)), slot);
    assert !kind.RecoverActiveObject? ==>
             forall q :: Recorded(next, RecoverActiveObject, q) == Recorded(ledger, RecoverActiveObject, q);
  }

  /** Publishes the terminal event of the call just made. */
  method Conclude(app: Application, state: State, kind: EffectKind, p: Path, terminal: EventKind, fact: Fact, ghost k: nat)
    returns (r: Flow<()>)
    requires app.Open() && Mechanism(kind) && TurnOf(app.job, app.ledger, kind, p, k)
    requires RunsIn(kind, state) && !terminal.Intent? && SlotFits(app.job, Key(kind, Some(p)), terminal, Some(fact))
    requires SlotAt(app.ledger, kind, p).Intended? && LatestCall(app.backend.trace, kind, p, FactOutcome(fact))
    requires app.backend.honest ==> MovePlausible(app.job, app.backend.recordOf, Move(Key(kind, Some(p)), terminal, Some(fact)))
    requires kind.PublishRejectedObject? ==> RecoverIdle(app.ledger)
    modifies app, app.store, app.history
    ensures r.Crashed? ==> app.MayCrash()
    ensures app.Safe()
    ensures r.Live? ==> app.Open()
                        && app.ledger == Placed(old(app.ledger), state, Key(kind, Some(p)), Done(terminal, Some(fact)))
    ensures r.Thrown? ==> r.fault == StepRefused
                          && (!StateMayFollow(old(app.ledger).state, state) || !JobDeclares(app.job, Key(kind, Some(p))))
  {
    hide Inv, StoredParts, Application.AwareOf, Attests, Candidates, CallPaths, FactOutcome, Turn;
    var move := Move(Key(kind, Some(p)), terminal, Some(fact));
    app.IsSafe();
    if !kind.PublishRejectedObject? {
      TurnBeforeRecovered(app.job, app.seed, app.ledger, app.backend.trace, kind, k);
    }
    if EventFits(app.job, app.ledger, state, move) {
      KeepMechanism(app.job, app.seed, app.ledger, app.backend.trace, Entry(state, Some(move), None, None), kind, k);
    }
    r := PublishEvent(app, state, move);
  }

  /** The mechanism was called on the path, and always with this outcome. */
  ghost predicate LatestCall(trace: Trace, kind: EffectKind, p: Path, outcome: Outcome) {
    && p in CallPaths(trace, kind)
    && forall i :: 0 <= i < |trace| && trace[i].kind == kind && trace[i].path == p ==> trace[i].outcome == outcome
  }

  /** The mechanism `kind` was called on `p` once more, under its intent. */
  lemma MechanismCalled(job: Job, seed: Seed, ledger: Ledger, before: Trace, after: Trace, kind: EffectKind, p: Path, k: nat)
    requires Sound(job, seed, ledger, before)
    requires Mechanism(kind) && TurnOf(job, ledger, kind, p, k) && SlotAt(ledger, kind, p).Intended?
    requires p !in CallPaths(before, kind)
    requires after == before || exists n :: Called(before, after, kind, p, n)
    ensures Sound(job, seed, ledger, after)
    ensures after != before ==> LatestCall(after, kind, p, after[|before|].outcome)
  {
    if after != before {
      KeepMechanismCall(job, seed, ledger, before, after[|before|], k);
      OnlyCall(before, after[|before|]);
    }
  }

  /** What the journal attests to before a call. */
  lemma BeforeCall(app: Application)
    requires app.Open()
    ensures app.ledger == LedgerOf(app.store.steps) && WrittenAhead(app.store.steps, app.backend.trace)
    ensures app.backend.honest ==> Plausible(app.job, app.backend.recordOf, app.ledger)
  {
    app.AwareMeans();
    AttestedMeans(app.job, app.store.steps, app.backend);
  }

  /** It attests to one more call, of a capture or under a durable intent, and
      to further observations. */
  lemma AfterCall(app: Application, before: Trace, kind: EffectKind, p: Path)
    requires app.ledger.receipt.None? && app.ledger == LedgerOf(app.store.steps) && WrittenAhead(app.store.steps, before)
    requires app.backend.honest ==> Plausible(app.job, app.backend.recordOf, app.ledger)
    requires app.backend.trace == before || Called(before, app.backend.trace, kind, p, |app.store.steps|)
    requires Mechanism(kind) ==> SlotAt(app.ledger, kind, p).Intended?
    ensures Attested(app.job, app.store.steps, app.backend)
  {
    if app.backend.trace != before {
      assert app.store.steps[..|app.store.steps|] == app.store.steps;
      WrittenAheadCall(app.store.steps, before, app.backend.trace[|before|]);
    }
    AttestedMeans(app.job, app.store.steps, app.backend);
  }

  /** Observes paths in the target. */
  method ObservePaths(app: Application, paths: seq<Path>) returns (r: Flow<seq<Sighting>>)
    requires app.Open()
    modifies app.backend`seen
    ensures r.Crashed? ==> app.MayCrash()
    ensures app.Open()
    ensures r.Live? ==> Sighted(paths, r.value, |app.backend.trace|, app.backend.seen)
    ensures !r.Thrown?
  {
    BeforeCall(app);
    ghost var before := app.backend.trace;
    r := app.backend.Observe(paths);
    AfterCall(app, before, ObserveResult, "");
  }

  method CallRejected(app: Application, p: Path, ghost k: nat) returns (r: Flow<RejectedResult>)
    requires app.Open() && TurnOf(app.job, app.ledger, PublishRejectedObject, p, k)
    requires SlotAt(app.ledger, PublishRejectedObject, p).Intended? && p !in CallPaths(app.backend.trace, PublishRejectedObject)
    modifies app.backend`trace
    ensures r.Crashed? ==> app.MayCrash()
    ensures app.Open()
    ensures r.Live? ==> LatestCall(app.backend.trace, PublishRejectedObject, p, r.value.outcome)
    ensures r.Live? ==> !r.value.outcome.ConditionalRetained? && (r.value.record.Some? <==> r.value.outcome.Completed?)
    ensures r.Live? && app.backend.honest && r.value.record.Some? ==> r.value.record == Some(app.backend.recordOf(p))
    ensures !r.Thrown?
  {
    hide Inv, StoredParts, Application.AwareOf, Attests;
    BeforeCall(app);
    ghost var before := app.backend.trace;
    r := app.backend.ExecuteRejected(p, |app.store.steps|);
    MechanismCalled(app.job, app.seed, app.ledger, before, app.backend.trace, PublishRejectedObject, p, k);
    AfterCall(app, before, PublishRejectedObject, p);
  }

  /** Publishes one rejected object: intent, call, terminal event. */
  method RunRejected(app: Application, p: Path, ghost k: nat) returns (r: Flow<RejectedResult>)
    requires app.Open() && TurnOf(app.job, app.ledger, PublishRejectedObject, p, k)
    requires SlotAt(app.ledger, PublishRejectedObject, p).Idle? && RecoverIdle(app.ledger)
    modifies app, app.store, app.history, app.backend
    ensures r.Crashed? ==> app.MayCrash()
    ensures app.Safe()
    ensures r.Live? ==> app.Open() && !r.value.outcome.ConditionalRetained?
                        && (r.value.record.Some? <==> r.value.outcome.Completed?)
                        && app.ledger == Placed(old(app.ledger), Mutating, Key(PublishRejectedObject, Some(p)),
                             Done(TerminalOf(r.value.outcome), Some(RejectedFact(p, r.value.outcome, r.value.record))))
    ensures r.Live? && app.backend.honest && r.value.record.Some? ==> r.value.record == Some(app.backend.recordOf(p))
    ensures r.Thrown? ==> r.fault == StepRefused && !StateMayFollow(old(app.ledger).state, Mutating)
  {
    hide Inv, StoredParts, Application.AwareOf, Attests, Candidates, CallPaths;
    var intended :- Intend(app, Mutating, PublishRejectedObject, p, k);
    var called := CallRejected(app, p, k);
    app.IsSafe();
    var result :- called;
    var concluded :- Conclude(app, Mutating, PublishRejectedObject, p, TerminalOf(result.outcome),
                              RejectedFact(p, result.outcome, result.record), k);
    return Live(result);
  }

  method CallActive(app: Application, p: Path, mayRetain: bool, ghost k: nat) returns (r: Flow<Outcome>)
    requires app.Open() && TurnOf(app.job, app.ledger, PublishActiveObject, p, k)
    requires SlotAt(app.ledger, PublishActiveObject, p).Intended? && p !in CallPaths(app.backend.trace, PublishActiveObject)
    modifies app.backend`trace
    ensures r.Crashed? ==> app.MayCrash()
    ensures app.Open()
    ensures r.Live? ==> LatestCall(app.backend.trace, PublishActiveObject, p, r.value)
    ensures r.Live? && app.backend.honest && r.value.ConditionalRetained? ==> mayRetain
    ensures !r.Thrown?
  {
    hide Inv, StoredParts, Application.AwareOf, Attests;
    BeforeCall(app);
    ghost var before := app.backend.trace;
    r := app.backend.ExecuteActive(p, mayRetain, |app.store.steps|);
    MechanismCalled(app.job, app.seed, app.ledger, before, app.backend.trace, PublishActiveObject, p, k);
    AfterCall(app, before, PublishActiveObject, p);
  }

  /** Executes one active effect: intent, call, terminal event.  Retention is
      for conditional directory removal only; the first run notices a backend
      that claims it elsewhere before the terminal event, a restarted run
      after it. */
  method RunActive(app: Application, p: Path, mayRetain: bool, first: bool, ghost k: nat) returns (r: Flow<Outcome>)
    requires app.Open() && TurnOf(app.job, app.ledger, PublishActiveObject, p, k)
    requires SlotAt(app.ledger, PublishActiveObject, p).Idle? && mayRetain == MayRetain(app.job.plan, p)
    modifies app, app.store, app.history, app.backend
    ensures r.Crashed? ==> app.MayCrash()
    ensures r.Thrown? && r.fault == BackendFault ==> !app.backend.Honest()
    ensures app.Safe()
    ensures r.Live? ==> app.Open() && (r.value.ConditionalRetained? ==> mayRetain)
                        && app.ledger == Placed(old(app.ledger), Mutating, Key(PublishActiveObject, Some(p)),
                                                Done(TerminalOf(r.value), Some(ActiveFact(p, r.value))))
    ensures r.Thrown? && r.fault != BackendFault ==>
              r.fault == StepRefused && (!StateMayFollow(old(app.ledger).state, Mutating) || p !in app.job.active)
  {
    hide Inv, StoredParts, Application.AwareOf, Attests, Turn, Candidates, CallPaths;
    var intended :- Intend(app, Mutating, PublishActiveObject, p, k);
    var called := CallActive(app, p, mayRetain, k);
    app.IsSafe();
    var outcome :- called;
    if first && outcome.ConditionalRetained? && !mayRetain {
      return Thrown(BackendFault);
    }
    var concluded :- Conclude(app, Mutating, PublishActiveObject, p, TerminalOf(outcome), ActiveFact(p, outcome), k);
    if outcome.ConditionalRetained? && !mayRetain {
      app.IsSafe();
      return Thrown(BackendFault);
    }
    return Live(outcome);
  }

  method CallRecover(app: Application, p: Path, ghost k: nat) returns (r: Flow<Outcome>)
    requires app.Open() && TurnOf(app.job, app.ledger, RecoverActiveObject, p, k)
    requires SlotAt(app.ledger, RecoverActiveObject, p).Intended? && p !in CallPaths(app.backend.trace, RecoverActiveObject)
    modifies app.backend`trace
    ensures r.Crashed? ==> app.MayCrash()
    ensures app.Open()
    ensures r.Live? ==> LatestCall(app.backend.trace, RecoverActiveObject, p, r.value)
    ensures r.Live? && app.backend.honest ==> !r.value.ConditionalRetained?
    ensures !r.Thrown?
  {
    hide Inv, StoredParts, Application.AwareOf, Attests;
    BeforeCall(app);
    ghost var before := app.backend.trace;
    r := app.backend.Recover(p, |app.store.steps|);
    MechanismCalled(app.job, app.seed, app.ledger, before, app.backend.trace, RecoverActiveObject, p, k);
    AfterCall(app, before, RecoverActiveObject, p);
  }

  lemma CandidatesPlaced(job: Job, ledger: Ledger, state: State, p: Path, slot: Slot)
    ensures Candidates(Placed(ledger, state, Key(RecoverActiveObject, Some(p)), slot), job.active) == Candidates(ledger, job.active)
  {
    CandidatesSame(ledger, Placed(ledger, state, Key(RecoverActiveObject, Some(p)), slot), job.active);
  }

  /** Undoes one effect: intent, call, terminal event. */
  method RunRecover(app: Application, p: Path, ghost k: nat) returns (r: Flow<Outcome>)
    requires app.Open() && TurnOf(app.job, app.ledger, RecoverActiveObject, p, k)
    requires SlotAt(app.ledger, RecoverActiveObject, p).Idle?
    modifies app, app.store, app.history, app.backend
    ensures r.Crashed? ==> app.MayCrash()
    ensures r.Thrown? && r.fault == BackendFault ==> !app.backend.Honest()
    ensures app.Safe()
    ensures r.Live? ==> app.Open() && !r.value.ConditionalRetained?
                        && app.ledger == Placed(old(app.ledger), Recovering, Key(RecoverActiveObject, Some(p)),
                                                Done(TerminalOf(r.value), Some(RecoveryFact(p, r.value))))
    ensures r.Thrown? && r.fault != BackendFault ==>
              r.fault == StepRefused && (!StateMayFollow(old(app.ledger).state, Recovering) || p !in app.job.active)
  {
    hide Inv, StoredParts, Application.AwareOf, Attests, Turn, Candidates, CallPaths;
    CandidatesPlaced(app.job, app.ledger, Recovering, p, Intended);
    var intended :- Intend(app, Recovering, RecoverActiveObject, p, k);
    var called := CallRecover(app, p, k);
    app.IsSafe();
    var outcome :- called;
    if outcome.ConditionalRetained? {
      return Thrown(BackendFault);
    }
    var concluded :- Conclude(app, Recovering, RecoverActiveObject, p, TerminalOf(outcome), RecoveryFact(p, outcome), k);
    return Live(outcome);
  }

  // ---------------------------------------------------------------- captures

  lemma SoundCapture(job: Job, seed: Seed, ledger: Ledger, trace: Trace, entry: Entry, p: Path)
    requires Sound(job, seed, ledger, trace) && entry.receipt.None?
    requires entry.move.Some? && entry.move.value.key == Key(CaptureOldObject, Some(p)) && JobDeclares(job, entry.move.value.key)
    requires BeforeMutation(ledger.state) && BeforeMutation(entry.state)
    requires !entry.move.value.kind.Intent? ==>
               && Held(trace, p).Some?
               && entry.move.value.fact == Some(CaptureFact(p, Held(trace, p).value.0, Held(trace, p).value.1))
    requires EntryFits(job, ledger, entry)
    ensures Sound(job, seed, Enter(ledger, entry), trace)
  {
    SoundMeans(job, seed, ledger, trace);
    SoundMeans(job, seed, Enter(ledger, entry), trace);
    KeepCapture(job, seed, ledger, trace, entry, p);
    KeepLedger(job, ledger, entry);
    KeepRight(job, seed, ledger, entry);
  }

  lemma CaptureCalled(job: Job, seed: Seed, ledger: Ledger, before: Trace, after: Trace, p: Path)
    requires Sound(job, seed, ledger, before) && BeforeMutation(ledger.state)
    requires !SlotAt(ledger, CaptureOldObject, p).Done?
    requires after == before || exists n :: Called(before, after, CaptureOldObject, p, n)
    ensures Sound(job, seed, ledger, after)
    ensures after != before ==> Held(after, p) == Some((after[|before|].outcome, after[|before|].exact))
  {
    if after != before {
      SoundMeans(job, seed, ledger, before);
      SoundMeans(job, seed, ledger, after);
      KeepCaptureCall(job, seed, ledger, before, after[|before|]);
      HeldAppend(before, after[|before|], p);
    }
  }

  /** Publishes one event of a capture. */
  method PublishCapture(app: Application, p: Path, kind: EventKind, fact: Option<Fact>) returns (r: Flow<()>)
    requires app.Open() && app.ledger.state.Preparing? && p in CapturePaths(app.job.captures)
    requires MoveAllowed(app.ledger, Move(Key(CaptureOldObject, Some(p)), kind, fact))
    requires !kind.Intent? ==>
               && Held(app.backend.trace, p).Some?
               && fact == Some(CaptureFact(p, Held(app.backend.trace, p).value.0, Held(app.backend.trace, p).value.1))
               && SlotFits(app.job, Key(CaptureOldObject, Some(p)), kind, fact)
    modifies app, app.store, app.history
    ensures r.Crashed? ==> app.MayCrash()
    ensures app.Safe()
    ensures r.Live? ==> app.Open()
                        && app.ledger == Placed(old(app.ledger), Preparing, Key(CaptureOldObject, Some(p)),
                                                SlotAfter(Move(Key(CaptureOldObject, Some(p)), kind, fact)))
    ensures !r.Thrown?
  {
    var move := Move(Key(CaptureOldObject, Some(p)), kind, fact);
    SoundCapture(app.job, app.seed, app.ledger, app.backend.trace, Entry(Preparing, Some(move), None, None), p);
    r := PublishEvent(app, Preparing, move);
  }

  method CallCapture(app: Application, p: Path) returns (r: Flow<CaptureResult>)
    requires app.Open() && app.ledger.state.Preparing? && !SlotAt(app.ledger, CaptureOldObject, p).Done?
    modifies app.backend`trace
    ensures r.Crashed? ==> app.MayCrash()
    ensures app.Open()
    ensures r.Live? ==> Held(app.backend.trace, p) == Some((r.value.outcome, r.value.exact))
    ensures r.Live? && r.value.exact ==> r.value.outcome.Completed?
    ensures r.Live? && app.backend.honest ==> !r.value.outcome.ConditionalRetained? && (r.value.outcome.Completed? ==> r.value.faithful)
    ensures !r.Thrown?
  {
    hide Inv, StoredParts, Application.AwareOf, Attests;
    BeforeCall(app);
    ghost var before := app.backend.trace;
    r := app.backend.CaptureOld(p, |app.store.steps|);
    CaptureCalled(app.job, app.seed, app.ledger, before, app.backend.trace, p);
    AfterCall(app, before, CaptureOldObject, p);
  }

  lemma RequestNamed(job: Job, request: CaptureRequest)
    requires request in job.captures
    ensures request.path in CapturePaths(job.captures)
  {
    var i :| 0 <= i < |job.captures| && job.captures[i] == request;
    assert CapturePaths(job.captures)[i] == request.path;
  }

  /** The terminal event of a capture belongs to its request. */
  lemma CaptureFits(job: Job, request: CaptureRequest, outcome: Outcome, exact: bool)
    requires request in job.captures && !outcome.ConditionalRetained?
    ensures SlotFits(job, Key(CaptureOldObject, Some(request.path)), CaptureTerminal(request, job.control, outcome, exact),
                     Some(CaptureFact(request.path, outcome, exact)))
    ensures !CaptureTerminal(request, job.control, outcome, exact).Intent?
  {
  }

  /** Makes the call under its durable intent and publishes its result. */
  method ConcludeCapture(app: Application, request: CaptureRequest, first: bool) returns (r: Flow<CaptureResult>)
    requires app.Open() && app.ledger.state.Preparing? && request in app.job.captures
    requires SlotAt(app.ledger, CaptureOldObject, request.path).Intended?
    modifies app, app.store, app.history, app.backend
    ensures r.Crashed? ==> app.MayCrash()
    ensures r.Thrown? ==> r.fault == BackendFault && !app.backend.Honest()
    ensures app.Safe()
    ensures r.Live? ==> app.Open() && (r.value.exact ==> r.value.outcome.Completed?) && !r.value.outcome.ConditionalRetained?
                        && app.ledger == Placed(old(app.ledger), Preparing, Key(CaptureOldObject, Some(request.path)),
                             Done(CaptureTerminal(request, app.job.control, r.value.outcome, r.value.exact),
                                  Some(CaptureFact(request.path, r.value.outcome, r.value.exact))))
  {
    hide Inv, StoredParts, Application.AwareOf, Attests, CaptureTerminal, SlotFits;
    RequestNamed(app.job, request);
    var called := CallCapture(app, request.path);
    app.IsSafe();
    var result :- called;
    if result.outcome.ConditionalRetained? || (first && result.outcome.Completed? && !result.faithful) {
      return Thrown(BackendFault);
    }
    CaptureFits(app.job, request, result.outcome, result.exact);
    var concluded :- PublishCapture(app, request.path, CaptureTerminal(request, app.job.control, result.outcome, result.exact),
                                    Some(CaptureFact(request.path, result.outcome, result.exact)));
    return Live(result);
  }

  /** Captures one old object.  Unlike a mechanism, a capture whose terminal
      event is missing may be repeated. */
  method RunCapture(app: Application, request: CaptureRequest, first: bool) returns (r: Flow<CaptureResult>)
    requires app.Open() && app.ledger.state.Preparing? && request in app.job.captures
    requires !SlotAt(app.ledger, CaptureOldObject, request.path).Done?
    modifies app, app.store, app.history, app.backend
    ensures r.Crashed? ==> app.MayCrash()
    ensures r.Thrown? && r.fault == BackendFault ==> !app.backend.Honest()
    ensures app.Safe()
    ensures r.Live? ==> app.Open() && (r.value.exact ==> r.value.outcome.Completed?) && !r.value.outcome.ConditionalRetained?
                        && app.ledger == Placed(old(app.ledger), Preparing, Key(CaptureOldObject, Some(request.path)),
                             Done(CaptureTerminal(request, app.job.control, r.value.outcome, r.value.exact),
                                  Some(CaptureFact(request.path, r.value.outcome, r.value.exact))))
    ensures r.Thrown? ==> r.fault == BackendFault
  {
    hide Inv, StoredParts, Application.AwareOf, Attests, CaptureTerminal, SlotFits;
    RequestNamed(app.job, request);
    var progress := app.ProgressFor(Key(CaptureOldObject, Some(request.path)));
    if !progress.intended {
      var intended :- PublishCapture(app, request.path, Intent, None);
    }
    r := ConcludeCapture(app, request, first);
  }

  // ---------------------------------------------------------------- synchronization

  /** Publishes the intent of an effect unless it is durable already. */
  method EnsureIntent(app: Application, state: State, key: Key) returns (r: Flow<()>)
    requires app.Open() && Neutral(key.kind) && JobDeclares(app.job, key) && !At(app.ledger, key).Done?
    requires RecoverIdle(app.ledger) || state.Recovering?
    requires key == RecoveredSync() ==> state.Recovering?
    requires !Successful(state) && !state.Recovered? && !state.Prepared?
    requires Due(app.job, app.ledger, key)
    requires Reaches(app.job, app.ledger, state)
    modifies app, app.store, app.history
    ensures r.Crashed? ==> app.MayCrash()
    ensures app.Safe()
    ensures r.Live? ==> app.Open()
    ensures r.Live? ==> app.ledger == if old(At(app.ledger, key)).Idle? then Placed(old(app.ledger), state, key, Intended)
                                      else old(app.ledger)
    ensures r.Thrown? ==> r.fault == StepRefused && !StateMayFollow(old(app.ledger).state, state)
  {
    app.IsSafe();
    var progress := app.ProgressFor(key);
    if !progress.intended {
      r := PublishNeutral(app, state, Move(key, Intent, None));
    } else {
      r := Live(());
    }
  }

  /** Publishes the terminal event of an intended effect. */
  method PublishTerminal(app: Application, state: State, key: Key, terminal: EventKind, fact: Option<Fact>)
    returns (r: Flow<()>)
    requires app.Open() && Neutral(key.kind) && JobDeclares(app.job, key) && At(app.ledger, key).Intended?
    requires RecoverIdle(app.ledger) || state.Recovering?
    requires key == RecoveredSync() ==> state.Recovering?
    requires !Successful(state) && !state.Recovered? && !state.Prepared? && !terminal.Intent?
    requires MoveFits(app.job, app.ledger, Move(key, terminal, fact)) && !key.kind.StageIncomingPayload?
    requires Reaches(app.job, app.ledger, state)
    requires EvidenceFits(app.job, app.seed, app.ledger, Move(key, terminal, fact))
    modifies app, app.store, app.history
    ensures r.Crashed? ==> app.MayCrash()
    ensures app.Safe()
    ensures r.Live? ==> app.Open() && app.ledger == Placed(old(app.ledger), state, key, Done(terminal, fact))
    ensures r.Thrown? ==> r.fault == StepRefused && !StateMayFollow(old(app.ledger).state, state)
  {
    r := PublishNeutral(app, state, Move(key, terminal, fact));
  }

  lemma NeutralIdle(ledger: Ledger, state: State, key: Key, slot: Slot)
    requires Neutral(key.kind)
    ensures key != RecoveredSync() ==> (RecoverIdle(ledger) <==> RecoverIdle(Placed(ledger, state, key, slot)))
  {
    var next := Placed(ledger, state, key, slot);
    assert forall q :: Recorded(next, RecoverActiveObject, q) == Recorded(ledger, RecoverActiveObject, q);
  }

  lemma NeutralDue(job: Job, ledger: Ledger, state: State, key: Key, slot: Slot, other: Key)
    requires Neutral(key.kind) && Due(job, ledger, other) && key != EvidenceKey() && (key == RecoveredSync() ==> other != ActiveSync())
    ensures Due(job, Placed(ledger, state, key, slot), other)
  {
    var next := Placed(ledger, state, key, slot);
    assert forall q :: Recorded(next, PublishRejectedObject, q) == Recorded(ledger, PublishRejectedObject, q);
    assert forall q :: Recorded(next, RecoverActiveObject, q) == Recorded(ledger, RecoverActiveObject, q);
    CandidatesSame(ledger, next, job.active);
    assert forall q :: Recorded(next, PublishActiveObject, q) == Recorded(ledger, PublishActiveObject, q);
  }

  /** Makes the synchronization call under its durable intent and publishes
      what the backend reported. */
  method ConcludeSynchronization(app: Application, state: State, domain: Domain, kind: EffectKind) returns (r: Flow<Status>)
    requires app.Open() && Neutral(kind) && JobDeclares(app.job, Key(kind, None)) && At(app.ledger, Key(kind, None)).Intended?
    requires RecoverIdle(app.ledger) || state.Recovering?
    requires kind.SynchronizeRecoveredNamespace? ==> state.Recovering?
    requires !Successful(state) && !state.Recovered? && !state.Prepared? && DomainOf(kind) == Some(domain)
    requires Due(app.job, app.ledger, Key(kind, None))
    requires Reaches(app.job, app.ledger, state)
    modifies app, app.store, app.history
    ensures r.Crashed? ==> app.MayCrash()
    ensures r.Thrown? && r.fault == BackendFault ==> !app.backend.Honest()
    ensures app.Safe()
    ensures r.Live? ==> app.Open() && !r.value.NotAttempted?
    ensures r.Live? && app.backend.confirms ==> r.value.Confirmed?
    ensures r.Live? ==> app.ledger == Placed(old(app.ledger), state, Key(kind, None),
                                             Done(StatusTerminal(r.value), Some(SynchronizationFact(domain, r.value))))
    ensures r.Thrown? && r.fault != BackendFault ==> r.fault == StepRefused && !StateMayFollow(old(app.ledger).state, state)
  {
    hide Inv, StoredParts, Application.AwareOf, Attests;
    app.IsSafe();
    var fact :- app.backend.Synchronize(domain);
    if fact.domain != domain || fact.status.NotAttempted? {
      return Thrown(BackendFault);
    }
    var concluded :- PublishTerminal(app, state, Key(kind, None), StatusTerminal(fact.status),
                                     Some(SynchronizationFact(domain, fact.status)));
    return Live(fact.status);
  }

  lemma PlacedTwice(ledger: Ledger, state: State, key: Key, slot: Slot)
    ensures Placed(Placed(ledger, state, key, Intended), state, key, slot) == Placed(ledger, state, key, slot)
  {
  }

  /** Synchronizes one durability domain under its declared effect. */
  method RunSynchronization(app: Application, state: State, domain: Domain, kind: EffectKind) returns (r: Flow<Status>)
    requires app.Open() && Neutral(kind) && JobDeclares(app.job, Key(kind, None)) && !At(app.ledger, Key(kind, None)).Done?
    requires RecoverIdle(app.ledger) || state.Recovering?
    requires kind.SynchronizeRecoveredNamespace? ==> state.Recovering?
    requires !Successful(state) && !state.Recovered? && !state.Prepared? && DomainOf(kind) == Some(domain)
    requires Due(app.job, app.ledger, Key(kind, None))
    requires Reaches(app.job, app.ledger, state)
    modifies app, app.store, app.history
    ensures r.Crashed? ==> app.MayCrash()
    ensures r.Thrown? && r.fault == BackendFault ==> !app.backend.Honest()
    ensures app.Safe()
    ensures r.Live? ==> app.Open() && !r.value.NotAttempted?
    ensures r.Live? && app.backend.confirms ==> r.value.Confirmed?
    ensures r.Live? ==> app.ledger == Placed(old(app.ledger), state, Key(kind, None),
                                             Done(StatusTerminal(r.value), Some(SynchronizationFact(domain, r.value))))
    ensures r.Thrown? && r.fault != BackendFault ==> r.fault == StepRefused && !StateMayFollow(old(app.ledger).state, state)
  {
    NeutralIdle(app.ledger, state, Key(kind, None), Intended);
    NeutralDue(app.job, app.ledger, state, Key(kind, None), Intended, Key(kind, None));
    ghost var before := app.ledger;
    var intended :- EnsureIntent(app, state, Key(kind, None));
    r := ConcludeSynchronization(app, state, domain, kind);
    if r.Live? {
      PlacedTwice(before, state, Key(kind, None), Done(StatusTerminal(r.value), Some(SynchronizationFact(domain, r.value))));
    }
  }
}
