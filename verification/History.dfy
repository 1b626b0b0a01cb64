/** The incremental journal history.

    The history validates one step at a time and keeps only counters and
    per-effect progress.  `Hist` is its state as a value, `Check` one accepted
    append and `Replay` a whole journal; the class is the imperative history
    proved against them.  The reference is module Record: `ReplayIsBatch`
    states that the history accepts exactly the journals all of whose
    prefixes the batch validator accepts.
 */
module History {
  import opened Wrappers
  import opened Journal
  import opened Record

  datatype Hist = Hist(
    progress: seq<Progress>,
    events: seq<Event>,
    steps: seq<Step>,
    cursor: Cursor,
    completed: nat)

  function InitialHist(declaration: Declaration): Hist {
    Hist(IdleProgress(|declaration.effects|), [], [], InitialCursor(declaration), 0)
  }

  // ---------------------------------------------------------------- counting

  predicate Done(effect: Effect, progress: Progress) {
    SuccessRequired(effect.kind) && progress.intended && progress.terminal == Some(EventCompleted)
  }

  function RequiredCount(effects: seq<Effect>): (count: nat)
    ensures count <= |effects|
  {
    if effects == [] then 0
    else RequiredCount(effects[..|effects| - 1]) + (if SuccessRequired(effects[|effects| - 1].kind) then 1 else 0)
  }

  function DoneCount(effects: seq<Effect>, progress: seq<Progress>): nat
    requires |effects| == |progress|
  {
    var last := |effects| - 1;
    if effects == [] then 0
    else DoneCount(effects[..last], progress[..last]) + (if Done(effects[last], progress[last]) then 1 else 0)
  }

  /** The counter reaches the required count exactly when every required
      effect completed. */
  lemma {:induction false} CounterExact(effects: seq<Effect>, progress: seq<Progress>)
    requires |effects| == |progress|
    ensures DoneCount(effects, progress) <= RequiredCount(effects)
    ensures DoneCount(effects, progress) == RequiredCount(effects) <==> SuccessEffectsCompleted(effects, progress)
  {
    if effects != [] {
      var last := |effects| - 1;
      CounterExact(effects[..last], progress[..last]);
      assert SuccessEffectsCompleted(effects, progress) ==
             (SuccessEffectsCompleted(effects[..last], progress[..last])
              && (SuccessRequired(effects[last].kind) ==> Done(effects[last], progress[last])));
    }
  }

  lemma {:induction false} CountUpdate(effects: seq<Effect>, progress: seq<Progress>, k: nat, item: Progress)
    requires |effects| == |progress| && k < |effects| && !Done(effects[k], progress[k])
    ensures DoneCount(effects, progress[k := item]) == DoneCount(effects, progress) + (if Done(effects[k], item) then 1 else 0)
  {
    var last := |effects| - 1;
    if k < last {
      CountUpdate(effects[..last], progress[..last], k, item);
      assert progress[k := item][..last] == progress[..last][k := item];
    } else {
      assert progress[k := item][..last] == progress[..last];
    }
  }

  lemma {:induction false} IdleCount(effects: seq<Effect>)
    ensures DoneCount(effects, IdleProgress(|effects|)) == 0
  {
    if effects != [] {
      IdleCount(effects[..|effects| - 1]);
      assert IdleProgress(|effects|)[..|effects| - 1] == IdleProgress(|effects| - 1);
    }
  }

  // ---------------------------------------------------------------- one step

  /** A receipt may arrive with the completed sealing event, or without an
      event as long as it is not the success receipt. */
  predicate IntroducesReceipt(step: Step) {
    if step.event.Some? then step.event.value.kind.EventCompleted? && step.event.value.effect.kind.SealReceipt?
    else !Successful(step.state)
  }

  predicate ResolutionAllowed(cursor: Cursor, completed: nat, required: nat) {
    && (cursor.completed.Some? ==> cursor.receipt.Some?)
    && (Successful(cursor.state) ==> cursor.receipt.Some? && cursor.completed.Some? && completed == required)
    && (!Successful(cursor.state) ==> cursor.completed.None?)
    && (cursor.state.Recovered? ==> cursor.receipt.Some?)
  }

  predicate CountsTowardSuccess(step: Step) {
    step.event.Some? && step.event.value.kind.EventCompleted? && SuccessRequired(step.event.value.effect.kind)
  }

  predicate FactAllowed(step: Step) {
    step.fact.Some? ==> step.event.Some? && !step.event.value.kind.Intent?
  }

  /** The history after an accepted step, or `None` when the step throws. */
  function Check(declaration: Declaration, h: Hist, step: Step): (next: Option<Hist>)
    requires Consecutive(declaration.effects) && |h.progress| == |declaration.effects|
    ensures next.Some? ==> |next.value.progress| == |h.progress| && next.value.steps == h.steps + [step]
  {
    var cursor := Advance(h.cursor, step);
    var progress :=
      if step.event.None? then Some(h.progress)
      else EventProgress(declaration.effects, h.progress, |h.events|, step.event.value);
    var completed := h.completed + (if CountsTowardSuccess(step) then 1 else 0);
    if cursor.None? || progress.None? || !FactAllowed(step) then None
    else if h.cursor.receipt.None? && cursor.value.receipt.Some? && !IntroducesReceipt(step) then None
    else if !ResolutionAllowed(cursor.value, completed, RequiredCount(declaration.effects)) then None
    else
      Some(Hist(progress.value, h.events + (if step.event.None? then [] else [step.event.value]), h.steps + [step],
                cursor.value, completed))
  }

  function Replay(declaration: Declaration, steps: seq<Step>): (h: Option<Hist>)
    requires Consecutive(declaration.effects)
    ensures h.Some? ==> |h.value.progress| == |declaration.effects| && h.value.steps == steps
  {
    if steps == [] then Some(InitialHist(declaration))
    else
      var before := Replay(declaration, steps[..|steps| - 1]);
      if before.None? then None
      else
        var next := Check(declaration, before.value, steps[|steps| - 1]);
        assert steps == steps[..|steps| - 1] + [steps[|steps| - 1]];
        next
  }

  predicate Accepted(declaration: Declaration, steps: seq<Step>) {
    Consecutive(declaration.effects) && Replay(declaration, steps).Some?
  }

  /** `step` may be appended to the accepted journal `steps`. */
  predicate Admissible(declaration: Declaration, steps: seq<Step>, step: Step) {
    && Accepted(declaration, steps)
    && Check(declaration, Replay(declaration, steps).value, step).Some?
  }

  lemma ReplayAppend(declaration: Declaration, steps: seq<Step>, step: Step)
    requires Accepted(declaration, steps)
    ensures Replay(declaration, steps + [step]) == Check(declaration, Replay(declaration, steps).value, step)
  {
    assert (steps + [step])[..|steps|] == steps;
  }

  lemma AcceptedAppend(declaration: Declaration, steps: seq<Step>, step: Step)
    requires Accepted(declaration, steps)
    ensures Accepted(declaration, steps + [step]) <==> Admissible(declaration, steps, step)
  {
    ReplayAppend(declaration, steps, step);
  }

  lemma {:induction false} AcceptedPrefix(declaration: Declaration, steps: seq<Step>, k: nat)
    requires Accepted(declaration, steps) && k <= |steps|
    ensures Accepted(declaration, steps[..k])
    decreases |steps|
  {
    if k == |steps| {
      assert steps[..k] == steps;
    } else {
      AcceptedPrefix(declaration, steps[..|steps| - 1], k);
      assert steps[..|steps| - 1][..k] == steps[..k];
    }
  }

  // ---------------------------------------------------------------- agreement with the batch validator

  function EventsOf(steps: seq<Step>): seq<Event> {
    if steps == [] then []
    else
      var last := steps[|steps| - 1];
      EventsOf(steps[..|steps| - 1]) + (if last.event.None? then [] else [last.event.value])
  }

  function StateAfter(steps: seq<Step>): State {
    if steps == [] then Preparing else steps[|steps| - 1].state
  }

  function ReceiptAfter(steps: seq<Step>): Option<Receipt> {
    if steps == [] then None else steps[|steps| - 1].receipt
  }

  function CompletedAfter(steps: seq<Step>): Option<CompletedEvidence> {
    if steps == [] then None else steps[|steps| - 1].completed
  }

  function LastOf(steps: seq<Step>): Option<Step> {
    if steps == [] then None else Some(steps[|steps| - 1])
  }

  /** The batch record of a journal. */
  function RecordOf(declaration: Declaration, steps: seq<Step>): JournalRecord {
    JournalRecord(declaration.header, StateAfter(steps), declaration.effects, EventsOf(steps), ReceiptAfter(steps),
                  CompletedAfter(steps))
  }

  predicate ProgressOk(item: Progress) {
    item.terminal.Some? ==> item.intended && !item.terminal.value.Intent?
  }

  /** What an accepted history knows is what the batch validator computes. */
  ghost predicate Agrees(declaration: Declaration, h: Hist)
    requires Consecutive(declaration.effects)
  {
    && |h.progress| == |declaration.effects|
    && BatchProgress(declaration.effects, EventsOf(h.steps)) == Some(h.progress)
    && h.events == EventsOf(h.steps)
    && (forall i :: 0 <= i < |h.progress| ==> ProgressOk(h.progress[i]))
    && h.completed == DoneCount(declaration.effects, h.progress)
    && h.cursor == Cursor(declaration, |h.steps|, LastOf(h.steps), StateAfter(h.steps), ReceiptAfter(h.steps),
                          CompletedAfter(h.steps))
  }

  lemma EventsAppend(steps: seq<Step>, step: Step)
    ensures EventsOf(steps + [step]) == EventsOf(steps) + (if step.event.None? then [] else [step.event.value])
  {
    assert (steps + [step])[..|steps|] == steps;
  }

  lemma BatchAppend(effects: seq<Effect>, events: seq<Event>, event: Event)
    requires Consecutive(effects)
    ensures BatchProgress(effects, events + [event]) ==
            if BatchProgress(effects, events).None? then None
            else EventProgress(effects, BatchProgress(effects, events).value, |events|, event)
  {
    assert (events + [event])[..|events|] == events;
  }

  lemma CheckAgrees(declaration: Declaration, h: Hist, step: Step)
    requires Consecutive(declaration.effects) && Agrees(declaration, h)
    requires Check(declaration, h, step).Some?
    ensures Agrees(declaration, Check(declaration, h, step).value)
  {
    EventsAppend(h.steps, step);
    var next := Check(declaration, h, step).value;
    if step.event.Some? {
      var event := step.event.value;
      var k := event.effect.ordinal;
      BatchAppend(declaration.effects, h.events, event);
      assert next.progress == h.progress[k := next.progress[k]];
      CountUpdate(declaration.effects, h.progress, k, next.progress[k]);
    } else {
      assert EventsOf(next.steps) == h.events;
    }
  }

  lemma {:induction false} ReplayAgrees(declaration: Declaration, steps: seq<Step>)
    requires Accepted(declaration, steps)
    ensures Agrees(declaration, Replay(declaration, steps).value)
  {
    if steps == [] {
      IdleCount(declaration.effects);
    } else {
      ReplayAgrees(declaration, steps[..|steps| - 1]);
      CheckAgrees(declaration, Replay(declaration, steps[..|steps| - 1]).value, steps[|steps| - 1]);
    }
  }

  /** `step` is the exact successor of `steps` and keeps what they retain. */
  predicate SuccessorStep(declaration: Declaration, steps: seq<Step>, step: Step) {
    && step.declaration == declaration
    && step.sequence == |steps|
    && step.predecessor == LastOf(steps)
    && StateMayFollow(StateAfter(steps), step.state)
    && (ReceiptAfter(steps).Some? ==> step.receipt == ReceiptAfter(steps))
    && (CompletedAfter(steps).Some? ==> step.completed == CompletedAfter(steps))
  }

  /** `step` extends `steps` by the batch rules alone: the step is the exact
      successor, and the record with it is a valid record. */
  ghost predicate BatchStep(declaration: Declaration, steps: seq<Step>, step: Step) {
    && SuccessorStep(declaration, steps, step)
    && (ReceiptAfter(steps).None? && step.receipt.Some? ==> IntroducesReceipt(step))
    && FactAllowed(step)
    && RecordOk(RecordOf(declaration, steps + [step]))
  }

  /** Cursor and resolution of one more step, by the batch rules. */
  lemma CursorIsBatch(declaration: Declaration, steps: seq<Step>, step: Step)
    requires Accepted(declaration, steps)
    ensures var cursor := Advance(Replay(declaration, steps).value.cursor, step);
            && (cursor.Some? <==> SuccessorStep(declaration, steps, step))
            && (cursor.Some? ==> cursor.value == Cursor(declaration, |steps| + 1, Some(step), step.state, step.receipt, step.completed))
  {
    ReplayAgrees(declaration, steps);
  }

  /** The counter after one more event, by the batch rules. */
  lemma ProgressIsBatch(declaration: Declaration, steps: seq<Step>, step: Step)
    requires Accepted(declaration, steps)
    ensures var h := Replay(declaration, steps).value;
            var batch := BatchProgress(declaration.effects, EventsOf(steps + [step]));
            && batch == (if step.event.None? then Some(h.progress)
                         else EventProgress(declaration.effects, h.progress, |h.events|, step.event.value))
            && (batch.Some? ==> DoneCount(declaration.effects, batch.value) ==
                                h.completed + (if CountsTowardSuccess(step) then 1 else 0))
  {
    ReplayAgrees(declaration, steps);
    EventsAppend(steps, step);
    var h := Replay(declaration, steps).value;
    if step.event.Some? {
      BatchAppend(declaration.effects, h.events, step.event.value);
      var batch := BatchProgress(declaration.effects, EventsOf(steps + [step]));
      if batch.Some? {
        var k := step.event.value.effect.ordinal;
        assert batch.value == h.progress[k := batch.value[k]];
        CountUpdate(declaration.effects, h.progress, k, batch.value[k]);
      }
    } else {
      assert EventsOf(steps + [step]) == h.events;
    }
  }

  lemma ResolutionIsBatch(effects: seq<Effect>, cursor: Cursor, progress: seq<Progress>)
    requires |progress| == |effects|
    ensures ResolutionAllowed(cursor, DoneCount(effects, progress), RequiredCount(effects)) <==>
            ResolutionOk(cursor.state, effects, progress, cursor.receipt, cursor.completed)
  {
    CounterExact(effects, progress);
  }

  lemma StepIsBatch(declaration: Declaration, steps: seq<Step>, step: Step)
    requires Accepted(declaration, steps)
    ensures Admissible(declaration, steps, step) <==> BatchStep(declaration, steps, step)
  {
    CursorIsBatch(declaration, steps, step);
    ProgressIsBatch(declaration, steps, step);
    var h := Replay(declaration, steps).value;
    var cursor := Advance(h.cursor, step);
    assert h.cursor.receipt == ReceiptAfter(steps) by {
      ReplayAgrees(declaration, steps);
    }
    var batch := BatchProgress(declaration.effects, EventsOf(steps + [step]));
    if cursor.Some? && batch.Some? {
      ResolutionIsBatch(declaration.effects, cursor.value, batch.value);
    }
  }

  lemma AcceptedStep(declaration: Declaration, steps: seq<Step>, k: nat)
    requires Accepted(declaration, steps) && k < |steps|
    ensures Admissible(declaration, steps[..k], steps[k])
  {
    AcceptedPrefix(declaration, steps, k);
    AcceptedPrefix(declaration, steps, k + 1);
    assert steps[..k + 1] == steps[..k] + [steps[k]];
    AcceptedAppend(declaration, steps[..k], steps[k]);
  }

  /** Every step extends the steps before it by the batch rules. */
  ghost predicate BatchAccepted(declaration: Declaration, steps: seq<Step>) {
    steps == [] ||
    (BatchAccepted(declaration, steps[..|steps| - 1])
     && BatchStep(declaration, steps[..|steps| - 1], steps[|steps| - 1]))
  }

  /** The incremental history accepts a journal exactly when the batch rules
      accept it step by step. */
  lemma {:induction false} ReplayIsBatch(declaration: Declaration, steps: seq<Step>)
    requires Consecutive(declaration.effects)
    ensures Replay(declaration, steps).Some? <==> BatchAccepted(declaration, steps)
  {
    if steps != [] {
      var rest, last := steps[..|steps| - 1], steps[|steps| - 1];
      ReplayIsBatch(declaration, rest);
      if Replay(declaration, rest).Some? {
        StepIsBatch(declaration, rest, last);
      }
    }
  }

  /** A snapshot of an accepted history is never refused. */
  lemma SnapshotAccepted(declaration: Declaration, steps: seq<Step>)
    requires Accepted(declaration, steps)
    ensures RecordOk(RecordOf(declaration, steps))
  {
    if steps != [] {
      ReplayIsBatch(declaration, steps);
      assert steps[..|steps| - 1] + [steps[|steps| - 1]] == steps;
    }
  }

  /** Replacing the batch record by the record of one more step is legal
      exactly when no receipt was retained yet or the record did not change. */
  lemma SnapshotSuccessor(declaration: Declaration, steps: seq<Step>, step: Step)
    requires Admissible(declaration, steps, step)
    ensures SuccessorError(RecordOf(declaration, steps), RecordOf(declaration, steps + [step])) ==
            if ReceiptAfter(steps).None? || RecordOf(declaration, steps) == RecordOf(declaration, steps + [step])
            then None else Some(TerminalReplaced)
  {
    CursorIsBatch(declaration, steps, step);
    EventsAppend(steps, step);
    assert EventsOf(steps) <= EventsOf(steps + [step]);
  }

  // ---------------------------------------------------------------- whole journals

  /** Each step of an accepted journal is a legal successor of the steps
      before it. */
  lemma {:induction false} StepsFollow(declaration: Declaration, steps: seq<Step>)
    requires Accepted(declaration, steps)
    ensures forall k :: 0 <= k < |steps| ==> SuccessorStep(declaration, steps[..k], steps[k])
  {
    if steps != [] {
      var rest := steps[..|steps| - 1];
      StepsFollow(declaration, rest);
      CursorIsBatch(declaration, rest, steps[|steps| - 1]);
      assert forall k :: 0 <= k < |rest| ==> rest[..k] == steps[..k];
    }
  }

  ghost predicate StatesFollow(steps: seq<Step>) {
    forall k :: 0 <= k < |steps| ==> StateMayFollow(StateAfter(steps[..k]), steps[k].state)
  }

  predicate Absorbing(state: State) {
    || state.ApplicationCompleted? || state.ExternalResolutionPending? || state.Recovered?
    || state.Finalized? || state.Abandoned?
  }

  lemma {:induction false} Stays(steps: seq<Step>, k: nat, n: nat)
    requires StatesFollow(steps) && k <= n <= |steps| && Absorbing(StateAfter(steps[..k]))
    ensures StateAfter(steps[..n]) == StateAfter(steps[..k])
  {
    if k < n {
      Stays(steps, k, n - 1);
      assert StateMayFollow(StateAfter(steps[..n - 1]), steps[n - 1].state);
    }
  }

  lemma {:induction false} Keeps(declaration: Declaration, steps: seq<Step>, k: nat, n: nat)
    requires forall i :: 0 <= i < |steps| ==> SuccessorStep(declaration, steps[..i], steps[i])
    requires k <= n <= |steps| && ReceiptAfter(steps[..k]).Some?
    ensures ReceiptAfter(steps[..n]) == ReceiptAfter(steps[..k])
  {
    if k < n {
      Keeps(declaration, steps, k, n - 1);
      assert SuccessorStep(declaration, steps[..n - 1], steps[n - 1]);
    }
  }

  /** A terminal state is never left, and a retained receipt never changes. */
  lemma TerminalStays(declaration: Declaration, steps: seq<Step>, k: nat)
    requires Accepted(declaration, steps) && k <= |steps|
    ensures Absorbing(StateAfter(steps[..k])) ==> StateAfter(steps) == StateAfter(steps[..k])
    ensures ReceiptAfter(steps[..k]).Some? ==> ReceiptAfter(steps) == ReceiptAfter(steps[..k])
  {
    StepsFollow(declaration, steps);
    assert steps[..|steps|] == steps;
    if Absorbing(StateAfter(steps[..k])) {
      Stays(steps, k, |steps|);
    }
    if ReceiptAfter(steps[..k]).Some? {
      Keeps(declaration, steps, k, |steps|);
    }
  }

  /** The only state a journal can have come from when it entered `state`. */
  function OnlyBefore(state: State): Option<State> {
    match state
    case ApplicationCompleted => Some(ResultObserved)
    case ResultObserved => Some(EffectsVisible)
    case Mutating => Some(Prepared)
    case Prepared => Some(Preparing)
    case _ => None
  }

  lemma {:induction false} EnteredFrom(steps: seq<Step>, n: nat) returns (k: nat)
    requires StatesFollow(steps) && n <= |steps| && OnlyBefore(StateAfter(steps[..n])).Some?
    ensures k < n && StateAfter(steps[..k]) == OnlyBefore(StateAfter(steps[..n])).value
  {
    assert StateMayFollow(StateAfter(steps[..n - 1]), steps[n - 1].state);
    k := n - 1;
    if StateAfter(steps[..n - 1]) == StateAfter(steps[..n]) {
      k := EnteredFrom(steps, n - 1);
    }
  }

  predicate BeforeMutating(state: State) {
    state.Preparing? || state.Prepared? || state.Abandoned?
  }

  lemma {:induction false} MutatingVisited(steps: seq<Step>, n: nat) returns (k: nat)
    requires StatesFollow(steps) && n <= |steps| && !BeforeMutating(StateAfter(steps[..n]))
    ensures k <= n && StateAfter(steps[..k]).Mutating?
  {
    k := n;
    if !StateAfter(steps[..n]).Mutating? {
      assert StateMayFollow(StateAfter(steps[..n - 1]), steps[n - 1].state);
      k := MutatingVisited(steps, n - 1);
    }
  }

  lemma SuccessVisits(steps: seq<Step>) returns (preparing: nat, prepared: nat, mutating: nat, visible: nat, observed: nat)
    requires StatesFollow(steps) && StateAfter(steps).ApplicationCompleted?
    ensures preparing < prepared < mutating < visible < observed < |steps|
    ensures StateAfter(steps[..preparing]).Preparing? && StateAfter(steps[..prepared]).Prepared?
    ensures StateAfter(steps[..mutating]).Mutating? && StateAfter(steps[..visible]).EffectsVisible?
    ensures StateAfter(steps[..observed]).ResultObserved?
  {
    assert steps[..|steps|] == steps;
    observed := EnteredFrom(steps, |steps|);
    visible := EnteredFrom(steps, observed);
    mutating := MutatingVisited(steps, visible);
    prepared := EnteredFrom(steps, mutating);
    preparing := EnteredFrom(steps, prepared);
  }

  /** A completed application went through the whole success path, in order. */
  lemma CompletionPath(declaration: Declaration, steps: seq<Step>)
    returns (preparing: nat, prepared: nat, mutating: nat, visible: nat, observed: nat)
    requires Accepted(declaration, steps) && StateAfter(steps).ApplicationCompleted?
    ensures preparing < prepared < mutating < visible < observed < |steps|
    ensures StateAfter(steps[..preparing]).Preparing? && StateAfter(steps[..prepared]).Prepared?
    ensures StateAfter(steps[..mutating]).Mutating? && StateAfter(steps[..visible]).EffectsVisible?
    ensures StateAfter(steps[..observed]).ResultObserved?
  {
    StepsFollow(declaration, steps);
    assert forall k :: 0 <= k < |steps| ==> SuccessorStep(declaration, steps[..k], steps[k]);
    preparing, prepared, mutating, visible, observed := SuccessVisits(steps);
  }

  // ---------------------------------------------------------------- the imperative history

  /** Progress once an event of an effect is recorded. */
  function Marked(progress: seq<Progress>, ordinal: nat, kind: EventKind): seq<Progress>
    requires ordinal < |progress|
  {
    progress[ordinal := if kind.Intent? then progress[ordinal].(intended := true)
                        else progress[ordinal].(terminal := Some(kind))]
  }

  /** A history after an appended step, field by field. */
  function Appended(h: Hist, step: Step, cursor: Cursor, completed: nat): Hist
    requires step.event.Some? ==> step.event.value.effect.ordinal < |h.progress|
  {
    Hist(
      if step.event.None? then h.progress else Marked(h.progress, step.event.value.effect.ordinal, step.event.value.kind),
      h.events + (if step.event.None? then [] else [step.event.value]),
      h.steps + [step], cursor, completed)
  }

  lemma AppendedReplays(declaration: Declaration, h: Hist, step: Step)
    requires Consecutive(declaration.effects) && Replay(declaration, h.steps) == Some(h)
    requires Check(declaration, h, step).Some?
    ensures step.event.Some? ==> step.event.value.effect.ordinal < |h.progress|
    ensures var next := Check(declaration, h, step).value;
            Replay(declaration, h.steps + [step]) == Some(Appended(h, step, next.cursor, next.completed))
  {
    ReplayAppend(declaration, h.steps, step);
  }

  /** Where each effect is, and how many of them success requires. */
  method IndexEffects(effects: seq<Effect>) returns (required: nat, ordinals: map<Effect, nat>)
    requires Consecutive(effects)
    ensures required == RequiredCount(effects)
    ensures forall e :: e in ordinals <==> e in effects
    ensures forall e :: e in ordinals ==> ordinals[e] == e.ordinal
  {
    required, ordinals := 0, map[];
    for ordinal := 0 to |effects|
      invariant required == RequiredCount(effects[..ordinal])
      invariant forall e :: e in ordinals <==> e in effects[..ordinal]
      invariant forall e :: e in ordinals ==> ordinals[e] == e.ordinal
    {
      assert effects[..ordinal + 1][..ordinal] == effects[..ordinal];
      ordinals := ordinals[effects[ordinal] := ordinal];
      if SuccessRequired(effects[ordinal].kind) {
        required := required + 1;
      }
    }
    assert effects[..|effects|] == effects;
  }

  class JournalHistory {
    const declaration: Declaration
    var progress: seq<Progress>
    var events: seq<Event>
    var steps: seq<Step>
    var cursor: Cursor
    var completed: nat
    var required: nat
    var ordinals: map<Effect, nat>

    ghost function Value(): Hist
      reads this
    {
      Hist(progress, events, steps, cursor, completed)
    }

    ghost predicate Valid()
      reads this
    {
      && Consecutive(declaration.effects)
      && Replay(declaration, steps) == Some(Value())
      && required == RequiredCount(declaration.effects)
      && (forall e :: e in ordinals <==> e in declaration.effects)
      && (forall e :: e in ordinals ==> ordinals[e] == e.ordinal)
    }

    constructor (declaration: Declaration)
      requires Consecutive(declaration.effects)
      ensures Valid() && steps == [] && this.declaration == declaration
    {
      this.declaration := declaration;
      progress := IdleProgress(|declaration.effects|);
      events := [];
      steps := [];
      cursor := InitialCursor(declaration);
      completed := 0;
      new;
      required, ordinals := IndexEffects(declaration.effects);
    }

    method ValidateEvent(event: Event) returns (ordinal: Option<nat>)
      requires Valid()
      ensures ordinal.Some? <==> EventProgress(declaration.effects, progress, |events|, event).Some?
      ensures ordinal.Some? ==> ordinal.value == event.effect.ordinal < |declaration.effects|
                                && declaration.effects[ordinal.value] == event.effect
    {
      if event.sequence != |events| || event.effect !in ordinals {
        return None;
      }
      var item := progress[ordinals[event.effect]];
      if event.kind.Intent? {
        if item.intended || item.terminal.Some? {
          return None;
        }
      } else {
        if !item.intended || item.terminal.Some? {
          return None;
        }
      }
      return Some(ordinals[event.effect]);
    }

    /** The cursor and the completed counter an accepted step leads to. */
    method ValidateStep(step: Step) returns (r: Option<(Cursor, Option<nat>, nat)>)
      requires Valid()
      ensures r.Some? <==> Admissible(declaration, steps, step)
      ensures r.Some? ==> var next := Check(declaration, Value(), step).value;
                          && r.value.0 == next.cursor && r.value.2 == next.completed
                          && r.value.1 == if step.event.None? then None else Some(step.event.value.effect.ordinal)
    {
      var candidate := Advance(cursor, step);
      if candidate.None? {
        return None;
      }
      var ordinal: Option<nat> := None;
      var total := completed;
      if step.event.Some? {
        ordinal := ValidateEvent(step.event.value);
        if ordinal.None? {
          return None;
        }
        if step.event.value.kind.EventCompleted? && SuccessRequired(declaration.effects[ordinal.value].kind) {
          total := total + 1;
        }
      }
      if (step.event.None? || step.event.value.kind.Intent?) && step.fact.Some? {
        return None;
      }
      var introduces := cursor.receipt.None? && candidate.value.receipt.Some?;
      if introduces && step.event.Some? {
        if !step.event.value.kind.EventCompleted? || !declaration.effects[ordinal.value].kind.SealReceipt? {
          return None;
        }
      }
      if introduces && Successful(candidate.value.state) && step.event.None? {
        return None;
      }
      if !ResolutionAllowed(candidate.value, total, required) {
        return None;
      }
      return Some((candidate.value, ordinal, total));
    }

    method Append(step: Step) returns (accepted: bool)
      requires Valid()
      modifies this
      ensures Valid()
      ensures accepted <==> Admissible(declaration, old(steps), step)
      ensures steps == if accepted then old(steps) + [step] else old(steps)
      ensures !accepted ==> Value() == old(Value())
    {
      hide Check, Replay, ResolutionAllowed, EventProgress, Advance;
      ghost var before := Value();
      var validated := ValidateStep(step);
      if validated.None? {
        return false;
      }
      AppendedReplays(declaration, Value(), step);
      if step.event.Some? {
        progress := Marked(progress, validated.value.1.value, step.event.value.kind);
        events := events + [step.event.value];
      } else {
        assert events + [] == events;
      }
      completed := validated.value.2;
      steps := steps + [step];
      cursor := validated.value.0;
      assert Value() == Appended(before, step, validated.value.0, validated.value.2);
      return true;
    }

    /** The batch record of the history; the batch validator accepts it. */
    method Snapshot() returns (r: Option<JournalRecord>)
      requires Valid()
      ensures r == Some(RecordOf(declaration, steps)) && RecordOk(r.value)
    {
      ReplayAgrees(declaration, steps);
      SnapshotAccepted(declaration, steps);
      r := MakeRecord(declaration.header, cursor.state, declaration.effects, events, cursor.receipt, cursor.completed);
    }
  }
}
