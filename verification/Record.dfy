/** The batch view of a journal: a record rebuilt and validated from all of
    its effects and events at once, and the rule for replacing one record by
    another. */
module Record {
  import opened Wrappers
  import opened Journal

  datatype Progress = Progress(intended: bool, terminal: Option<EventKind>)

  datatype JournalRecord = JournalRecord(
    header: nat,
    state: State,
    effects: seq<Effect>,
    events: seq<Event>,
    receipt: Option<Receipt>,
    completed: Option<CompletedEvidence>)

  /** Progress after the event at position `index`, or `None` when refused. */
  function EventProgress(effects: seq<Effect>, progress: seq<Progress>, index: nat, event: Event): Option<seq<Progress>>
    requires Consecutive(effects) && |progress| == |effects|
  {
    if event.sequence != index then None
    else if event.effect !in effects then None
    else
      var item := progress[event.effect.ordinal];
      if event.kind.Intent? then
        if item.intended || item.terminal.Some? then None
        else Some(progress[event.effect.ordinal := item.(intended := true)])
      else if !item.intended || item.terminal.Some? then None
      else Some(progress[event.effect.ordinal := item.(terminal := Some(event.kind))])
  }

  function IdleProgress(count: nat): seq<Progress> {
    seq(count, _ => Progress(false, None))
  }

  function BatchProgress(effects: seq<Effect>, events: seq<Event>): (progress: Option<seq<Progress>>)
    requires Consecutive(effects)
    ensures progress.Some? ==> |progress.value| == |effects|
  {
    if events == [] then Some(IdleProgress(|effects|))
    else
      var before := BatchProgress(effects, events[..|events| - 1]);
      if before.None? then None
      else EventProgress(effects, before.value, |events| - 1, events[|events| - 1])
  }

  lemma {:induction false} RefusedPrefix(effects: seq<Effect>, events: seq<Event>, k: nat)
    requires Consecutive(effects) && k <= |events| && BatchProgress(effects, events[..k]).None?
    ensures BatchProgress(effects, events).None?
    decreases |events|
  {
    if k == |events| {
      assert events[..k] == events;
    } else {
      assert events[..|events| - 1][..k] == events[..k];
      RefusedPrefix(effects, events[..|events| - 1], k);
    }
  }

  method ValidateEvents(effects: seq<Effect>, events: seq<Event>) returns (r: Option<seq<Progress>>)
    requires Consecutive(effects)
    ensures r == BatchProgress(effects, events)
  {
    var progress := IdleProgress(|effects|);
    for index := 0 to |events|
      invariant |progress| == |effects|
      invariant BatchProgress(effects, events[..index]) == Some(progress)
    {
      var event := events[index];
      assert events[..index + 1][..index] == events[..index];
      if BatchProgress(effects, events[..index + 1]).None? {
        RefusedPrefix(effects, events, index + 1);
      }
      if event.sequence != index || event.effect !in effects {
        return None;
      }
      var ordinal := event.effect.ordinal;
      if event.kind.Intent? {
        if progress[ordinal].intended || progress[ordinal].terminal.Some? {
          return None;
        }
        progress := progress[ordinal := progress[ordinal].(intended := true)];
      } else {
        if !progress[ordinal].intended || progress[ordinal].terminal.Some? {
          return None;
        }
        progress := progress[ordinal := progress[ordinal].(terminal := Some(event.kind))];
      }
    }
    assert events[..|events|] == events;
    return Some(progress);
  }

  ghost predicate SuccessEffectsCompleted(effects: seq<Effect>, progress: seq<Progress>)
    requires |progress| == |effects|
  {
    forall i :: 0 <= i < |effects| && SuccessRequired(effects[i].kind) ==>
                  progress[i].intended && progress[i].terminal == Some(EventCompleted)
  }

  method CheckSuccessEffects(effects: seq<Effect>, progress: seq<Progress>) returns (done: bool)
    requires |progress| == |effects|
    ensures done <==> SuccessEffectsCompleted(effects, progress)
  {
    for index := 0 to |effects|
      invariant forall i :: 0 <= i < index && SuccessRequired(effects[i].kind) ==>
                              progress[i].intended && progress[i].terminal == Some(EventCompleted)
    {
      if SuccessRequired(effects[index].kind)
         && (!progress[index].intended || progress[index].terminal != Some(EventCompleted)) {
        return false;
      }
    }
    return true;
  }

  /** The resolution rule of a whole record. */
  ghost predicate ResolutionOk(
    state: State, effects: seq<Effect>, progress: seq<Progress>,
    receipt: Option<Receipt>, completed: Option<CompletedEvidence>)
    requires |progress| == |effects|
  {
    && (completed.Some? ==> receipt.Some?)
    && (Successful(state) ==> receipt.Some? && completed.Some? && SuccessEffectsCompleted(effects, progress))
    && (!Successful(state) ==> completed.None?)
    && (state.Recovered? ==> receipt.Some?)
  }

  ghost predicate RecordOk(record: JournalRecord) {
    && Consecutive(record.effects)
    && BatchProgress(record.effects, record.events).Some?
    && ResolutionOk(record.state, record.effects, BatchProgress(record.effects, record.events).value,
                    record.receipt, record.completed)
  }

  /** Builds a record from effects in ordinal order; the declaration already
      guarantees that order. */
  method MakeRecord(
      header: nat, state: State, effects: seq<Effect>, events: seq<Event>,
      receipt: Option<Receipt>, completed: Option<CompletedEvidence>) returns (r: Option<JournalRecord>)
    requires Consecutive(effects)
    ensures var record := JournalRecord(header, state, effects, events, receipt, completed);
            r == if RecordOk(record) then Some(record) else None
  {
    var progress := ValidateEvents(effects, events);
    if progress.None? {
      return None;
    }
    if completed.Some? && receipt.None? {
      return None;
    }
    if Successful(state) {
      if receipt.None? || completed.None? {
        return None;
      }
      var done := CheckSuccessEffects(effects, progress.value);
      if !done {
        return None;
      }
    } else if completed.Some? {
      return None;
    }
    if state.Recovered? && receipt.None? {
      return None;
    }
    return Some(JournalRecord(header, state, effects, events, receipt, completed));
  }

  datatype TransitionError =
    | DifferentJournal
    | EffectGraphChanged
    | EventHistoryRewritten
    | ResolutionRegressed
    | TerminalReplaced
    | StateRegressed

  /** Why `next` may not replace `previous`; `None` when it may. */
  function SuccessorError(previous: JournalRecord, next: JournalRecord): Option<TransitionError> {
    if previous.header != next.header then Some(DifferentJournal)
    else if previous.effects != next.effects then Some(EffectGraphChanged)
    else if !(previous.events <= next.events) then Some(EventHistoryRewritten)
    else if previous.receipt.Some? && previous.receipt != next.receipt then Some(ResolutionRegressed)
    else if previous.completed.Some? && previous.completed != next.completed then Some(ResolutionRegressed)
    else if previous.receipt.Some? && previous != next then Some(TerminalReplaced)
    else if !StateMayFollow(previous.state, next.state) then Some(StateRegressed)
    else None
  }
}
