/** What a journal says about each effect.

    A ledger is the journal folded to its present meaning: the state, one slot
    for every effect, and the retained receipt.  The engine, the restart view
    and the protocol invariant all speak about ledgers; `AdmissibleIsAllowed`
    ties them to the history that accepts the steps.
 */
module Ledgers {
  import opened Wrappers
  import opened Paths
  import opened Journal
  import opened Record
  import opened History

  /** Effects are found by kind and path. */
  datatype Key = Key(kind: EffectKind, path: Option<Path>)

  datatype Slot = Idle | Intended | Done(kind: EventKind, fact: Option<Fact>)

  /** `durability` is what the replay facts add up to. */
  datatype Ledger = Ledger(
    state: State,
    slots: map<Key, Slot>,
    receipt: Option<Receipt>,
    completed: Option<CompletedEvidence>,
    durability: Durability)

  /** An event of a step, by key. */
  datatype Move = Move(key: Key, kind: EventKind, fact: Option<Fact>)

  /** A step without its chaining fields. */
  datatype Entry = Entry(
    state: State,
    move: Option<Move>,
    receipt: Option<Receipt>,
    completed: Option<CompletedEvidence>)

  function KeyOf(effect: Effect): Key {
    Key(effect.kind, effect.path)
  }

  function At(ledger: Ledger, key: Key): Slot {
    if key in ledger.slots then ledger.slots[key] else Idle
  }

  function MoveOf(step: Step): Option<Move> {
    if step.event.None? then None
    else Some(Move(KeyOf(step.event.value.effect), step.event.value.kind, step.fact))
  }

  function EntryOf(step: Step): Entry {
    Entry(step.state, MoveOf(step), step.receipt, step.completed)
  }

  function SlotAfter(move: Move): Slot {
    if move.kind.Intent? then Intended else Done(move.kind, move.fact)
  }

  function WithStatus(d: Durability, domain: Domain, status: Status): Durability {
    match domain
    case JournalDomain => d.(journal := status)
    case IncomingStaging => d.(incoming := status)
    case RecoveryStaging => d.(recovery := status)
    case ActiveNamespace => d.(active := status)
    case RejectedStore => d.(rejected := status)
    case CompletedEvidenceDomain => d.(completed := status)
  }

  function StagedStatus(outcome: Outcome): Status {
    if outcome.Completed? then Visible else StatusIndeterminate
  }

  /** A mechanism makes its domain visible or uncertain, or leaves it. */
  function MechanismStatus(outcome: Outcome, before: Status): Status {
    if outcome.Completed? then Visible else if outcome.Indeterminate? then StatusIndeterminate else before
  }

  /** What a replay fact says about the durability domains. */
  function DurabilityAfter(d: Durability, fact: Fact): Durability {
    match fact
    case StageFact(outcome, _) => d.(incoming := StagedStatus(outcome))
    case CaptureFact(_, outcome, _) => d.(recovery := StagedStatus(outcome))
    case RejectedFact(_, outcome, _) => d.(rejected := MechanismStatus(outcome, d.rejected))
    case ActiveFact(_, outcome) => d.(active := MechanismStatus(outcome, d.active))
    case RecoveryFact(_, outcome) => d.(active := MechanismStatus(outcome, d.active))
    case SynchronizationFact(domain, status) => WithStatus(d, domain, status)
    case EvidenceFact(_) => d.(completed := Visible)
  }

  function DurabilityWith(d: Durability, slot: Slot): Durability {
    if slot.Done? && slot.fact.Some? then DurabilityAfter(d, slot.fact.value) else d
  }

  function Enter(ledger: Ledger, entry: Entry): Ledger {
    if entry.move.None? then Ledger(entry.state, ledger.slots, entry.receipt, entry.completed, ledger.durability)
    else
      var slot := SlotAfter(entry.move.value);
      Ledger(entry.state, ledger.slots[entry.move.value.key := slot], entry.receipt, entry.completed,
             DurabilityWith(ledger.durability, slot))
  }

  function EmptyLedger(): Ledger {
    Ledger(Preparing, map[], None, None,
           Durability(Confirmed, NotAttempted, NotAttempted, NotAttempted, NotAttempted, NotAttempted))
  }

  function LedgerOf(steps: seq<Step>): Ledger {
    if steps == [] then EmptyLedger()
    else Enter(LedgerOf(steps[..|steps| - 1]), EntryOf(steps[|steps| - 1]))
  }

  /** No two staging effects retain different facts. */
  ghost predicate StagesAgree(ledger: Ledger) {
    forall a: Key, b: Key ::
      a.kind.StageIncomingPayload? && b.kind.StageIncomingPayload? && At(ledger, a).Done? && At(ledger, b).Done? ==>
        At(ledger, a).fact == At(ledger, b).fact
  }

  lemma LedgerAppend(steps: seq<Step>, step: Step)
    ensures LedgerOf(steps + [step]) == Enter(LedgerOf(steps), EntryOf(step))
  {
    assert (steps + [step])[..|steps|] == steps;
  }

  /** No two effects share a kind and a path. */
  ghost predicate Indexed(effects: seq<Effect>) {
    forall i, j :: 0 <= i < j < |effects| ==> KeyOf(effects[i]) != KeyOf(effects[j])
  }

  ghost predicate Declared(effects: seq<Effect>, key: Key) {
    exists i :: 0 <= i < |effects| && KeyOf(effects[i]) == key
  }

  predicate CompletedSlot(slot: Slot) {
    slot.Done? && slot.kind.EventCompleted?
  }

  // ---------------------------------------------------------------- ledgers and histories

  function ProgressOf(slot: Slot): Progress {
    match slot
    case Idle => Progress(false, None)
    case Intended => Progress(true, None)
    case Done(kind, _) => Progress(true, Some(kind))
  }

  ghost predicate Mirrors(effects: seq<Effect>, progress: seq<Progress>, ledger: Ledger) {
    && |progress| == |effects|
    && forall i :: 0 <= i < |effects| ==> progress[i] == ProgressOf(At(ledger, KeyOf(effects[i])))
  }

  lemma MirrorsEvent(effects: seq<Effect>, progress: seq<Progress>, ledger: Ledger, step: Step, index: nat)
    requires Consecutive(effects) && Indexed(effects) && Mirrors(effects, progress, ledger)
    requires step.event.Some? && EventProgress(effects, progress, index, step.event.value).Some?
    ensures Mirrors(effects, EventProgress(effects, progress, index, step.event.value).value,
                    Enter(ledger, EntryOf(step)))
  {
    var event := step.event.value;
    var next := EventProgress(effects, progress, index, event).value;
    var k := event.effect.ordinal;
    forall i | 0 <= i < |effects|
      ensures next[i] == ProgressOf(At(Enter(ledger, EntryOf(step)), KeyOf(effects[i])))
    {
      if i != k {
        assert KeyOf(effects[i]) != KeyOf(effects[k]);
      }
    }
  }

  /** The ledger of an accepted journal agrees with its history. */
  lemma {:induction false} LedgerAgrees(declaration: Declaration, steps: seq<Step>)
    requires Accepted(declaration, steps) && Indexed(declaration.effects)
    ensures Mirrors(declaration.effects, Replay(declaration, steps).value.progress, LedgerOf(steps))
    ensures forall key :: key in LedgerOf(steps).slots ==> Declared(declaration.effects, key)
    ensures LedgerOf(steps).state == StateAfter(steps)
    ensures LedgerOf(steps).receipt == ReceiptAfter(steps)
    ensures LedgerOf(steps).completed == CompletedAfter(steps)
  {
    if steps != [] {
      var rest, last := steps[..|steps| - 1], steps[|steps| - 1];
      LedgerAgrees(declaration, rest);
      ReplayAgrees(declaration, rest);
      if last.event.Some? {
        MirrorsEvent(declaration.effects, Replay(declaration, rest).value.progress, LedgerOf(rest), last, |EventsOf(rest)|);
      }
    }
  }

  // ---------------------------------------------------------------- what a ledger allows

  /** All effects a successful application requires have completed. */
  ghost predicate RequiredDone(effects: seq<Effect>, ledger: Ledger) {
    forall key :: Declared(effects, key) && SuccessRequired(key.kind) ==>
                    At(ledger, key).Done? && At(ledger, key).kind.EventCompleted?
  }

  predicate ReceiptMayEnter(entry: Entry) {
    if entry.move.Some? then entry.move.value.kind.EventCompleted? && entry.move.value.key.kind.SealReceipt?
    else !Successful(entry.state)
  }

  predicate Retains(ledger: Ledger, entry: Entry) {
    && (ledger.receipt.Some? ==> entry.receipt == ledger.receipt)
    && (ledger.completed.Some? ==> entry.completed == ledger.completed)
    && (ledger.receipt.None? && entry.receipt.Some? ==> ReceiptMayEnter(entry))
  }

  predicate MoveAllowed(ledger: Ledger, move: Move) {
    if move.kind.Intent? then At(ledger, move.key).Idle? && move.fact.None? else At(ledger, move.key).Intended?
  }

  ghost predicate Resolves(effects: seq<Effect>, ledger: Ledger) {
    && (ledger.completed.Some? ==> ledger.receipt.Some?)
    && (Successful(ledger.state) ==> ledger.receipt.Some? && ledger.completed.Some? && RequiredDone(effects, ledger))
    && (!Successful(ledger.state) ==> ledger.completed.None?)
    && (ledger.state.Recovered? ==> ledger.receipt.Some?)
  }

  /** The journal of `ledger` may be extended by `entry`. */
  ghost predicate Allows(effects: seq<Effect>, ledger: Ledger, entry: Entry) {
    && StateMayFollow(ledger.state, entry.state)
    && Retains(ledger, entry)
    && (entry.move.Some? ==> Declared(effects, entry.move.value.key) && MoveAllowed(ledger, entry.move.value))
    && Resolves(effects, Enter(ledger, entry))
  }

  /** `step` continues the chain of an accepted journal. */
  predicate Chained(declaration: Declaration, steps: seq<Step>, step: Step) {
    && step.declaration == declaration
    && step.sequence == |steps|
    && step.predecessor == LastOf(steps)
    && (step.event.Some? ==> step.event.value.sequence == |EventsOf(steps)| && step.event.value.effect in declaration.effects)
    && (step.event.None? ==> step.fact.None?)
  }

  lemma RequiredIsDone(effects: seq<Effect>, progress: seq<Progress>, ledger: Ledger)
    requires Mirrors(effects, progress, ledger)
    ensures SuccessEffectsCompleted(effects, progress) <==> RequiredDone(effects, ledger)
  {
    if SuccessEffectsCompleted(effects, progress) {
      forall key | Declared(effects, key) && SuccessRequired(key.kind)
        ensures At(ledger, key).Done? && At(ledger, key).kind.EventCompleted?
      {
        var i :| 0 <= i < |effects| && KeyOf(effects[i]) == key;
        assert progress[i].terminal == Some(EventCompleted);
      }
    }
    if RequiredDone(effects, ledger) {
      forall i | 0 <= i < |effects| && SuccessRequired(effects[i].kind)
        ensures progress[i].intended && progress[i].terminal == Some(EventCompleted)
      {
        assert Declared(effects, KeyOf(effects[i]));
      }
    }
  }

  lemma MirroredMove(effects: seq<Effect>, progress: seq<Progress>, ledger: Ledger, step: Step, index: nat)
    requires Consecutive(effects) && Mirrors(effects, progress, ledger)
    requires step.event.Some? && step.event.value.effect in effects && step.event.value.sequence == index
    ensures Declared(effects, KeyOf(step.event.value.effect))
    ensures EventProgress(effects, progress, index, step.event.value).Some? && FactAllowed(step)
            <==> MoveAllowed(ledger, MoveOf(step).value)
  {
    var effect := step.event.value.effect;
    var i :| 0 <= i < |effects| && effects[i] == effect;
    assert KeyOf(effects[i]) == KeyOf(effect);
  }

  /** The event of a chained step is accepted exactly when its slot allows it. */
  lemma EventIsMove(declaration: Declaration, steps: seq<Step>, step: Step)
    requires Accepted(declaration, steps) && Indexed(declaration.effects) && Chained(declaration, steps, step)
    requires step.event.Some?
    ensures Declared(declaration.effects, KeyOf(step.event.value.effect))
    ensures EventProgress(declaration.effects, Replay(declaration, steps).value.progress, |EventsOf(steps)|,
                          step.event.value).Some? && FactAllowed(step)
            <==> MoveAllowed(LedgerOf(steps), MoveOf(step).value)
  {
    LedgerAgrees(declaration, steps);
    MirroredMove(declaration.effects, Replay(declaration, steps).value.progress, LedgerOf(steps), step, |EventsOf(steps)|);
  }

  /** The record with a chained step is valid exactly when its slot and the
      ledger after it allow the step. */
  lemma RecordIsAllowed(declaration: Declaration, steps: seq<Step>, step: Step)
    requires Accepted(declaration, steps) && Indexed(declaration.effects) && Chained(declaration, steps, step)
    ensures FactAllowed(step) && RecordOk(RecordOf(declaration, steps + [step])) <==>
              (step.event.Some? ==> MoveAllowed(LedgerOf(steps), MoveOf(step).value))
              && Resolves(declaration.effects, Enter(LedgerOf(steps), EntryOf(step)))
  {
    hide Replay, SuccessEffectsCompleted, RequiredDone, EventProgress, MoveAllowed, Declared;
    LedgerAgrees(declaration, steps);
    ProgressIsBatch(declaration, steps, step);
    ReplayAgrees(declaration, steps);
    if step.event.Some? {
      EventIsMove(declaration, steps, step);
    }
    var batch := BatchProgress(declaration.effects, EventsOf(steps + [step]));
    if batch.Some? {
      if step.event.Some? {
        MirrorsEvent(declaration.effects, Replay(declaration, steps).value.progress, LedgerOf(steps), step, |EventsOf(steps)|);
      }
      RequiredIsDone(declaration.effects, batch.value, Enter(LedgerOf(steps), EntryOf(step)));
    }
  }

  /** The history accepts a chained step exactly when the ledger allows it. */
  lemma AdmissibleIsAllowed(declaration: Declaration, steps: seq<Step>, step: Step)
    requires Accepted(declaration, steps) && Indexed(declaration.effects) && Chained(declaration, steps, step)
    ensures Admissible(declaration, steps, step) <==> Allows(declaration.effects, LedgerOf(steps), EntryOf(step))
  {
    hide Replay, RecordOk, Resolves, MoveAllowed, Declared, Check, EventProgress;
    StepIsBatch(declaration, steps, step);
    LedgerAgrees(declaration, steps);
    ReplayAgrees(declaration, steps);
    RecordIsAllowed(declaration, steps, step);
    if step.event.Some? {
      EventIsMove(declaration, steps, step);
    }
  }

  /** Steps the history accepts are chained. */
  lemma AdmissibleChained(declaration: Declaration, steps: seq<Step>, step: Step)
    requires Admissible(declaration, steps, step)
    ensures Chained(declaration, steps, step)
  {
    CursorIsBatch(declaration, steps, step);
    ReplayAgrees(declaration, steps);
  }

  /** A terminal event is final. */
  lemma DoneStays(declaration: Declaration, steps: seq<Step>, step: Step)
    requires Admissible(declaration, steps, step) && Indexed(declaration.effects)
    ensures step.event.Some? ==> MoveAllowed(LedgerOf(steps), MoveOf(step).value)
    ensures forall key :: At(LedgerOf(steps), key).Done? ==> At(LedgerOf(steps + [step]), key) == At(LedgerOf(steps), key)
  {
    AdmissibleChained(declaration, steps, step);
    AdmissibleIsAllowed(declaration, steps, step);
    LedgerAppend(steps, step);
  }
}
