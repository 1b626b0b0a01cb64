/** The durable journal store and the two protocols over it: appending one
    step and loading the history after a crash.

    Every store operation may be cut short by a crash before or after it
    takes effect.
 */
module Store {
  import opened Wrappers
  import opened Journal
  import opened History

  function CursorAfter(declaration: Declaration, steps: seq<Step>): Cursor
    requires Accepted(declaration, steps)
  {
    Replay(declaration, steps).value.cursor
  }

  class JournalStore {
    var declaration: Option<Declaration>
    var steps: seq<Step>
    var cursor: Option<Cursor>
    /** Whether the process may die inside a call. */
    const mayCrash: bool

    /** What every crash leaves behind: an accepted journal whose cursor names
        all steps or all but the last. */
    ghost predicate Durable()
      reads this
    {
      && (declaration.None? ==> steps == [] && cursor.None?)
      && (declaration.Some? ==> Accepted(declaration.value, steps))
      && (cursor.None? ==> steps == [])
      && (cursor.Some? ==>
            && (cursor.value.stepCount == |steps| || cursor.value.stepCount + 1 == |steps|)
            && Accepted(declaration.value, steps[..cursor.value.stepCount])
            && cursor.value == CursorAfter(declaration.value, steps[..cursor.value.stepCount]))
    }

    /** Between appends the cursor names all steps. */
    ghost predicate Settled()
      reads this
    {
      Durable() && cursor.Some? && cursor.value.stepCount == |steps|
    }

    constructor (mayCrash: bool)
      ensures Durable() && declaration.None? && steps == [] && this.mayCrash == mayCrash
    {
      declaration, steps, cursor := None, [], None;
      this.mayCrash := mayCrash;
    }

    method PublishDeclaration(intended: Declaration) returns (r: Flow<Declaration>)
      requires Durable() && Consecutive(intended.effects)
      modifies this
      ensures r.Crashed? ==> mayCrash
      ensures Durable() && steps == old(steps) && cursor == old(cursor)
      ensures r.Live? ==> r.value == intended && declaration == Some(intended)
      ensures declaration == old(declaration) || (old(declaration).None? && declaration == Some(intended))
      ensures r.Thrown? ==> r.fault == StoreConflict && old(declaration).Some? && old(declaration) != Some(intended)
    {
      var dies: bool := *;
      if mayCrash && dies {
        return Crashed;
      }
      if declaration.Some? && declaration != Some(intended) {
        return Thrown(StoreConflict);
      }
      declaration := Some(intended);
      dies := *;
      return if mayCrash && dies then Crashed else Live(intended);
    }

    /** A step is immutable: publishing it again changes nothing, and another
        step at its position is a conflict. */
    method PublishStep(intended: Step) returns (r: Flow<Step>)
      modifies this
      ensures r.Crashed? ==> mayCrash
      ensures declaration == old(declaration) && cursor == old(cursor)
      ensures steps == old(steps) || (intended.sequence == old(|steps|) && steps == old(steps) + [intended])
      ensures r.Live? ==> r.value == intended && intended.sequence < |steps| && steps[intended.sequence] == intended
      ensures r.Thrown? ==> r.fault == StoreConflict && steps == old(steps) && intended.sequence != |steps|
    {
      var dies: bool := *;
      if mayCrash && dies {
        return Crashed;
      }
      if intended.sequence > |steps| || (intended.sequence < |steps| && steps[intended.sequence] != intended) {
        return Thrown(StoreConflict);
      }
      if intended.sequence == |steps| {
        steps := steps + [intended];
      }
      dies := *;
      return if mayCrash && dies then Crashed else Live(intended);
    }

    method CompareAndPublishCursor(expected: Option<Cursor>, next: Cursor) returns (r: Flow<Cursor>)
      modifies this
      ensures r.Crashed? ==> mayCrash
      ensures declaration == old(declaration) && steps == old(steps)
      ensures cursor == old(cursor) || (expected == old(cursor) && cursor == Some(next))
      ensures r.Live? ==> r.value == next && cursor == Some(next)
      ensures r.Thrown? ==> r.fault == StoreConflict && expected != old(cursor) && cursor == old(cursor)
    {
      var dies: bool := *;
      if mayCrash && dies {
        return Crashed;
      }
      if cursor != expected {
        return Thrown(StoreConflict);
      }
      cursor := Some(next);
      dies := *;
      return if mayCrash && dies then Crashed else Live(next);
    }

    method LoadDeclaration(wanted: Declaration) returns (r: Flow<Option<Declaration>>)
      ensures r.Crashed? ==> mayCrash
      ensures r.Live? ==> r.value == if declaration == Some(wanted) then Some(wanted) else None
      ensures !r.Thrown?
    {
      var dies: bool := *;
      return if mayCrash && dies then Crashed else Live(if declaration == Some(wanted) then Some(wanted) else None);
    }

    method LoadCursor() returns (r: Flow<Option<Cursor>>)
      ensures r.Crashed? ==> mayCrash
      ensures r.Live? ==> r.value == cursor
      ensures !r.Thrown?
    {
      var dies: bool := *;
      return if mayCrash && dies then Crashed else Live(cursor);
    }

    method LoadStep(sequence: nat) returns (r: Flow<Option<Step>>)
      ensures r.Crashed? ==> mayCrash
      ensures r.Live? ==> r.value == if sequence < |steps| then Some(steps[sequence]) else None
      ensures !r.Thrown?
    {
      var dies: bool := *;
      return if mayCrash && dies then Crashed else Live(if sequence < |steps| then Some(steps[sequence]) else None);
    }
  }

  /** History and store agree: the process knows exactly what is durable. */
  ghost predicate InStep(store: JournalStore, history: JournalHistory)
    reads store, history
  {
    && history.Valid() && store.Settled()
    && store.declaration == Some(history.declaration)
    && store.steps == history.steps
  }

  lemma CursorCounts(declaration: Declaration, steps: seq<Step>)
    requires Accepted(declaration, steps)
    ensures CursorAfter(declaration, steps).stepCount == |steps|
    ensures CursorAfter(declaration, steps).declaration == declaration
  {
    ReplayAgrees(declaration, steps);
  }

  lemma CursorAppend(declaration: Declaration, steps: seq<Step>, step: Step)
    requires Admissible(declaration, steps, step)
    ensures Accepted(declaration, steps + [step])
    ensures CursorAfter(declaration, steps + [step]) == Check(declaration, Replay(declaration, steps).value, step).value.cursor
    ensures CursorAfter(declaration, steps).stepCount == |steps|
    ensures CursorAfter(declaration, steps + [step]).stepCount == |steps| + 1
    ensures (steps + [step])[..|steps|] == steps == steps[..|steps|]
    ensures (steps + [step])[..|steps| + 1] == steps + [step]
    ensures step.sequence == |steps|
  {
    ReplayAppend(declaration, steps, step);
    CursorCounts(declaration, steps);
    CursorCounts(declaration, steps + [step]);
  }

  /** Appends one step: validated first, then made durable, then named by the
      cursor, and only then adopted in memory. */
  method AppendJournalStep(
      store: JournalStore, history: JournalHistory, state: State, event: Option<Event>, fact: Option<Fact>,
      receipt: Option<Receipt>, completed: Option<CompletedEvidence>) returns (r: Flow<()>, ghost step: Step)
    requires InStep(store, history)
    modifies store, history
    ensures r.Crashed? ==> store.mayCrash
    ensures step == NextStep(old(history.Value()), state, event, fact, receipt, completed)
    ensures store.Durable() && store.declaration == old(store.declaration)
    ensures store.steps == old(store.steps)
            || (store.steps == old(store.steps) + [step] && Admissible(history.declaration, old(store.steps), step))
    ensures r.Live? ==> InStep(store, history) && store.steps == old(store.steps) + [step]
    ensures r.Thrown? <==> !Admissible(history.declaration, old(store.steps), step)
    ensures r.Thrown? ==> r.fault == StepRefused && store.steps == old(store.steps)
  {
    step := NextStep(history.Value(), state, event, fact, receipt, completed);
    var previous := history.cursor;
    var intended := MakeStep(history.declaration, previous.stepCount, previous.latest, state, event, fact, receipt, completed);
    MadeStep(history, state, event, fact, receipt, completed);
    if intended.None? {
      r := Thrown(StepRefused);
      return;
    }
    var candidate := history.ValidateStep(intended.value);
    if candidate.None? {
      r := Thrown(StepRefused);
      return;
    }
    CursorAppend(history.declaration, history.steps, step);
    r := Commit(store, history, intended.value, candidate.value.0);
  }

  /** Makes a validated step durable and adopts it. */
  method Commit(store: JournalStore, history: JournalHistory, intended: Step, candidate: Cursor) returns (r: Flow<()>)
    requires InStep(store, history) && Admissible(history.declaration, history.steps, intended)
    requires Accepted(history.declaration, history.steps + [intended])
             && candidate == CursorAfter(history.declaration, history.steps + [intended])
    modifies store, history
    ensures r.Crashed? ==> store.mayCrash
    ensures store.Durable() && store.declaration == old(store.declaration)
    ensures store.steps == old(store.steps) || store.steps == old(store.steps) + [intended]
    ensures r.Live? ==> InStep(store, history) && store.steps == old(store.steps) + [intended]
    ensures !r.Thrown?
  {
    CursorAppend(history.declaration, history.steps, intended);
    var durable :- store.PublishStep(intended);
    var cursor :- store.CompareAndPublishCursor(Some(history.cursor), candidate);
    var adopted := history.Append(durable);
    return Live(());
  }

  lemma MadeStep(history: JournalHistory, state: State, event: Option<Event>, fact: Option<Fact>,
                 receipt: Option<Receipt>, completed: Option<CompletedEvidence>)
    requires history.Valid()
    ensures var step := NextStep(history.Value(), state, event, fact, receipt, completed);
            var made := MakeStep(history.declaration, history.cursor.stepCount, history.cursor.latest, state, event, fact,
                                 receipt, completed);
            && (made.Some? ==> made.value == step)
            && (made.None? ==> !Admissible(history.declaration, history.steps, step))
  {
    ReplayAgrees(history.declaration, history.steps);
    var step := NextStep(history.Value(), state, event, fact, receipt, completed);
    assert (step.sequence == 0) == step.predecessor.None?;
    ReceiptFirst(history.declaration, history.steps, step);
  }

  /** An admissible step has no completed evidence without a receipt. */
  lemma ReceiptFirst(declaration: Declaration, steps: seq<Step>, step: Step)
    requires Accepted(declaration, steps)
    ensures Admissible(declaration, steps, step) && step.completed.Some? ==> step.receipt.Some?
  {
    StepIsBatch(declaration, steps, step);
  }

  /** The step the engine builds on top of a history. */
  function NextStep(h: Hist, state: State, event: Option<Event>, fact: Option<Fact>, receipt: Option<Receipt>,
                    completed: Option<CompletedEvidence>): Step
  {
    Step(h.cursor.declaration, h.cursor.stepCount, h.cursor.latest, state, event, fact, receipt, completed)
  }

  /** Appends the steps the cursor names. */
  method ReplayCommitted(store: JournalStore, history: JournalHistory, count: nat) returns (r: Flow<()>)
    requires history.Valid() && history.steps == []
    modifies history
    ensures r.Crashed? ==> store.mayCrash
    ensures history.Valid() && history.steps <= store.steps
    ensures r.Live? ==> |history.steps| == count
    ensures r.Thrown? ==> r.fault == HistoryRefused
                          && (count > |store.steps| || !Accepted(history.declaration, store.steps))
  {
    ghost var all := store.steps;
    for sequence := 0 to count
      invariant history.Valid() && |history.steps| == sequence && history.steps <= all
    {
      var step :- store.LoadStep(sequence);
      if step.None? {
        return Thrown(HistoryRefused);
      }
      CommittedNext(history.declaration, all, history.steps);
      var accepted := history.Append(step.value);
      if !accepted {
        return Thrown(HistoryRefused);
      }
    }
    return Live(());
  }

  /** The next step of an accepted journal continues what was read of it. */
  lemma CommittedNext(declaration: Declaration, all: seq<Step>, read: seq<Step>)
    requires read <= all && |read| < |all|
    ensures Accepted(declaration, all) ==> Admissible(declaration, read, all[|read|])
    ensures read + [all[|read|]] <= all
  {
    assert all[..|read|] == read;
    if Accepted(declaration, all) {
      AcceptedStep(declaration, all, |read|);
    }
  }

  /** Adopts the one step that may lie beyond the cursor. */
  method AdoptOrphan(store: JournalStore, history: JournalHistory) returns (r: Flow<()>)
    requires history.Valid() && history.steps <= store.steps && store.cursor == Some(history.cursor)
    requires store.declaration == Some(history.declaration)
    modifies store, history
    ensures r.Crashed? ==> store.mayCrash
    ensures history.Valid() && history.steps <= store.steps && store.declaration == old(store.declaration)
    ensures store.steps == old(store.steps)
    ensures |history.steps| == old(|history.steps|) || |history.steps| == old(|history.steps|) + 1
    ensures store.cursor == old(store.cursor) || Named(store, history.declaration, old(|history.steps|) + 1)
    ensures r.Live? ==> store.cursor == Some(history.cursor) && history.cursor.stepCount == |history.steps|
    ensures r.Live? && old(|history.steps|) < |store.steps| ==> |history.steps| == old(|history.steps|) + 1
    ensures r.Thrown? ==> r.fault == HistoryRefused && !Accepted(history.declaration, store.steps)
  {
    hide Check, Replay;
    var count := history.cursor.stepCount;
    CursorCounts(history.declaration, history.steps);
    var orphan :- store.LoadStep(count);
    if orphan.None? {
      return Live(());
    }
    ghost var extended := history.steps + [orphan.value];
    assert store.steps[..count] == history.steps && store.steps[..count + 1] == extended;
    if Accepted(history.declaration, store.steps) {
      AcceptedStep(history.declaration, store.steps, count);
    }
    var candidate := history.ValidateStep(orphan.value);
    if candidate.None? {
      return Thrown(HistoryRefused);
    }
    CursorAppend(history.declaration, history.steps, orphan.value);
    var adopted :- store.CompareAndPublishCursor(Some(history.cursor), candidate.value.0);
    var accepted := history.Append(orphan.value);
    return Live(());
  }

  /** The cursor names exactly the first `count` steps. */
  ghost predicate Named(store: JournalStore, declaration: Declaration, count: nat)
    reads store
  {
    && count <= |store.steps|
    && Accepted(declaration, store.steps[..count])
    && store.cursor == Some(CursorAfter(declaration, store.steps[..count]))
  }

  /** The durable cursor of a declaration; a missing one is the initial one. */
  method OpenCursor(store: JournalStore, wanted: Declaration) returns (r: Flow<Cursor>)
    modifies store
    ensures r.Crashed? ==> store.mayCrash
    ensures store.declaration == old(store.declaration) && store.steps == old(store.steps)
    ensures old(store.Durable()) ==> store.Durable()
    ensures r.Live? ==> store.declaration == Some(wanted) && store.cursor == Some(r.value) && r.value.declaration == wanted
    ensures r.Thrown? && old(store.Durable()) ==> r.fault == MissingDeclaration && store.declaration != Some(wanted)
  {
    var declaration :- store.LoadDeclaration(wanted);
    if declaration.None? {
      return Thrown(MissingDeclaration);
    }
    DurableCursor(store);
    var loaded :- store.LoadCursor();
    if loaded.None? {
      var initial :- store.CompareAndPublishCursor(None, InitialCursor(wanted));
      return Live(initial);
    }
    if loaded.value.declaration != wanted {
      return Thrown(HistoryRefused);
    }
    return Live(loaded.value);
  }

  /** Rebuilds the history from the store, whatever the store holds.  What it
      returns is an accepted journal that the store holds and the cursor
      names; on a store that only crashes have touched it returns all durable
      steps and never throws. */
  method Load(store: JournalStore, wanted: Declaration) returns (r: Flow<JournalHistory>)
    requires store.declaration.Some? ==> Consecutive(store.declaration.value.effects)
    modifies store
    ensures r.Crashed? ==> store.mayCrash
    ensures store.declaration == old(store.declaration) && store.steps == old(store.steps)
    ensures r.Live? ==> fresh(r.value) && r.value.Valid() && r.value.declaration == wanted
    ensures r.Live? ==> r.value.steps <= store.steps && store.cursor == Some(r.value.cursor)
    ensures old(store.Durable()) ==> store.Durable()
    ensures old(store.Durable()) && r.Live? ==> InStep(store, r.value)
    ensures old(store.Durable()) && r.Thrown? ==> r.fault == MissingDeclaration && store.declaration != Some(wanted)
  {
    var committed :- OpenCursor(store, wanted);
    var history := new JournalHistory(wanted);
    var replayed :- ReplayCommitted(store, history, committed.stepCount);
    CommittedCursor(store, history, committed);
    if history.cursor != committed {
      return Thrown(HistoryRefused);
    }
    label adopting:
    var adopted := AdoptOrphan(store, history);
    if store.cursor == old@adopting(store.cursor) {
      DurableNow(store, wanted, committed.stepCount);
    } else {
      DurableNow(store, wanted, committed.stepCount + 1);
    }
    if adopted.IsFailure() {
      return adopted.PropagateFailure();
    }
    return Live(history);
  }

  /** A store is durable when its steps are accepted and its cursor names all
      of them or all but the last. */
  lemma DurableNow(store: JournalStore, declaration: Declaration, count: nat)
    requires store.declaration == Some(declaration) && Consecutive(declaration.effects)
    requires Named(store, declaration, count)
    ensures Accepted(declaration, store.steps) && |store.steps| <= count + 1 ==> store.Durable()
  {
    CursorCounts(declaration, store.steps[..count]);
  }

  lemma CommittedCursor(store: JournalStore, history: JournalHistory, committed: Cursor)
    requires history.Valid() && history.steps <= store.steps && |history.steps| == committed.stepCount
    requires store.declaration == Some(history.declaration) && store.cursor == Some(committed)
    ensures store.Durable() ==> history.cursor == committed && |store.steps| <= committed.stepCount + 1
    ensures history.cursor == committed ==> Named(store, history.declaration, committed.stepCount)
  {
    assert history.steps == store.steps[..committed.stepCount];
  }

  lemma DurableCursor(store: JournalStore)
    ensures store.Durable() && store.cursor.Some? ==>
              && store.cursor.value.declaration == store.declaration.value
              && store.cursor.value.stepCount <= |store.steps|
  {
    if store.Durable() && store.cursor.Some? {
      CursorCounts(store.declaration.value, store.steps[..store.cursor.value.stepCount]);
    }
  }
}
