/** The restart view: what a restart learns from the replay facts of a
    journal, or why it refuses them. */
module RestartView {
  import opened Wrappers
  import opened Paths
  import opened Plans
  import opened Journal
  import opened History
  import opened Ledgers
  import opened Jobs
  import opened Protocol

  /** The replay facts by effect, the staging fact, the latest synchronization
      of each domain, and the durability all facts add up to. */
  datatype View = View(facts: map<Key, Fact>, staged: Option<Fact>, synchronized: map<Domain, Status>, durability: Durability)

  function EmptyView(): View {
    View(map[], None, map[], EmptyLedger().durability)
  }

  function FactAt(view: View, key: Key): Option<Fact> {
    if key in view.facts then Some(view.facts[key]) else None
  }

  /** Facts of a path are retained once. */
  predicate OncePerPath(kind: EffectKind) {
    kind.CaptureOldObject? || Mechanism(kind)
  }

  /** The effect makes a domain durable; its fact is kept by domain. */
  predicate Synchronizes(key: Key) {
    DomainOf(key.kind).Some?
  }

  predicate StageConflict(view: View, key: Key, fact: Fact) {
    key.kind.StageIncomingPayload? && view.staged.Some? && view.staged != Some(fact)
  }

  /** The view after one more terminal event. */
  function Retained(job: Job, view: View, key: Key, kind: EventKind, fact: Option<Fact>): Option<View> {
    if !SlotFits(job, key, kind, fact) then None
    else if fact.None? then Some(view)
    else if StageConflict(view, key, fact.value) || (OncePerPath(key.kind) && key in view.facts) then None
    else
      Some(View(if Synchronizes(key) then view.facts else view.facts[key := fact.value],
                if key.kind.StageIncomingPayload? then fact else view.staged,
                if Synchronizes(key) then view.synchronized[DomainOf(key.kind).value := fact.value.status] else view.synchronized,
                DurabilityAfter(view.durability, fact.value)))
  }

  function ViewOf(job: Job, steps: seq<Step>): Option<View> {
    if steps == [] then Some(EmptyView())
    else
      var before := ViewOf(job, steps[..|steps| - 1]);
      var move := MoveOf(steps[|steps| - 1]);
      if before.None? || move.None? || move.value.kind.Intent? then before
      else Retained(job, before.value, move.value.key, move.value.kind, move.value.fact)
  }

  // ---------------------------------------------------------------- reading the facts

  method RequestFor(job: Job, p: Path) returns (found: set<CaptureRequest>)
    ensures forall request :: request in found <==> request in job.captures && request.path == p
  {
    found := {};
    for i := 0 to |job.captures|
      invariant forall request :: request in found <==> request in job.captures[..i] && request.path == p
    {
      if job.captures[i].path == p {
        found := found + {job.captures[i]};
      }
    }
    assert job.captures[..|job.captures|] == job.captures;
  }

  /** Retains the replay fact of one terminal event, effect kind by effect
      kind. */
  method Retain(job: Job, view: View, key: Key, kind: EventKind, fact: Option<Fact>) returns (r: Option<View>)
    ensures r == Retained(job, view, key, kind, fact)
  {
    if fact.None? {
      var allowed := key.kind.ObserveResult? || key.kind.SealReceipt?
                     || (key.kind.PublishCompletedEvidence? && !kind.EventCompleted?);
      return if allowed then Some(view) else None;
    }
    var value := fact.value;
    var d := view.durability;
    match key.kind
    case StageIncomingPayload =>
      if !value.StageFact? || value.outcome.ConditionalRetained? || kind != TerminalOf(value.outcome) {
        return None;
      }
      if view.staged.Some? && view.staged != fact {
        return None;
      }
      return Some(View(view.facts[key := value], fact, view.synchronized,
                       d.(incoming := if value.outcome.Completed? then Visible else StatusIndeterminate)));
    case CaptureOldObject =>
      if !value.CaptureFact? || key.path != Some(value.path) || value.outcome.ConditionalRetained? {
        return None;
      }
      var requests := RequestFor(job, value.path);
      if !exists request :: request in requests && kind == CaptureTerminal(request, job.control, value.outcome, value.exact) {
        return None;
      }
      if key in view.facts {
        return None;
      }
      return Some(View(view.facts[key := value], view.staged, view.synchronized,
                       d.(recovery := if value.outcome.Completed? then Visible else StatusIndeterminate)));
    case PublishRejectedObject =>
      if !value.RejectedFact? || key.path != Some(value.path) || value.outcome.ConditionalRetained?
         || kind != TerminalOf(value.outcome) || key in view.facts {
        return None;
      }
      return Some(View(view.facts[key := value], view.staged, view.synchronized, d.(rejected := MechanismStatus(value.outcome, d.rejected))));
    case PublishActiveObject =>
      if !value.ActiveFact? || key.path != Some(value.path) || kind != TerminalOf(value.outcome) || key in view.facts {
        return None;
      }
      return Some(View(view.facts[key := value], view.staged, view.synchronized, d.(active := MechanismStatus(value.outcome, d.active))));
    case RecoverActiveObject =>
      if !value.RecoveryFact? || key.path != Some(value.path) || value.outcome.ConditionalRetained?
         || kind != TerminalOf(value.outcome) || key in view.facts {
        return None;
      }
      return Some(View(view.facts[key := value], view.staged, view.synchronized, d.(active := MechanismStatus(value.outcome, d.active))));
    case PublishCompletedEvidence =>
      if !value.EvidenceFact? || !kind.EventCompleted? {
        return None;
      }
      return Some(View(view.facts[key := value], view.staged, view.synchronized, d.(completed := Visible)));
    case ObserveResult | SealReceipt =>
      return None;
    case _ =>
      if !value.SynchronizationFact? || Some(value.domain) != DomainOf(key.kind)
         || value.status.NotAttempted? || kind != StatusTerminal(value.status) {
        return None;
      }
      return Some(View(view.facts, view.staged, view.synchronized[value.domain := value.status],
                       WithStatus(d, value.domain, value.status)));
  }

  /** Reads the whole journal. */
  method BuildView(job: Job, steps: seq<Step>) returns (r: Option<View>)
    ensures r == ViewOf(job, steps)
  {
    var view := EmptyView();
    for k := 0 to |steps|
      invariant ViewOf(job, steps[..k]) == Some(view)
    {
      assert steps[..k + 1][..k] == steps[..k];
      var event := steps[k].event;
      if event.None? || event.value.kind.Intent? {
        continue;
      }
      var next := Retain(job, view, KeyOf(event.value.effect), event.value.kind, steps[k].fact);
      if next.None? {
        RefusedStays(job, steps, k + 1);
        return None;
      }
      view := next.value;
    }
    assert steps[..|steps|] == steps;
    return Some(view);
  }

  lemma {:induction false} RefusedStays(job: Job, steps: seq<Step>, k: nat)
    requires k <= |steps| && ViewOf(job, steps[..k]).None?
    ensures ViewOf(job, steps).None?
    decreases |steps|
  {
    if k == |steps| {
      assert steps[..k] == steps;
    } else {
      assert steps[..|steps| - 1][..k] == steps[..k];
      RefusedStays(job, steps[..|steps| - 1], k);
    }
  }

  // ---------------------------------------------------------------- the view and the ledger

  /** The view holds exactly the facts of the terminal events. */
  ghost predicate Shows(view: View, ledger: Ledger) {
    && (forall key :: !Synchronizes(key) ==> FactAt(view, key) == if At(ledger, key).Done? then At(ledger, key).fact else None)
    && SynchronizationsShown(view, ledger)
    && view.durability == ledger.durability
  }

  /** The status of a domain is that of one of its synchronizations, and no
      synchronized domain is missing. */
  ghost predicate SynchronizationsShown(view: View, ledger: Ledger) {
    && (forall domain :: domain in view.synchronized ==> SynchronizedIn(ledger, domain, view.synchronized[domain]))
    && forall key :: Synchronizes(key) && At(ledger, key).Done? ==> DomainOf(key.kind).value in view.synchronized
  }

  ghost predicate SynchronizedIn(ledger: Ledger, domain: Domain, status: Status) {
    exists key: Key :: DomainOf(key.kind) == Some(domain) && At(ledger, key).Done?
                       && At(ledger, key).fact == Some(SynchronizationFact(domain, status))
  }

  lemma SynchronizationsKept(view: View, before: Ledger, entry: Entry)
    requires SynchronizationsShown(view, before) && (entry.move.Some? ==> MoveAllowed(before, entry.move.value))
    requires entry.move.Some? && Synchronizes(entry.move.value.key) ==> entry.move.value.kind.Intent?
    ensures SynchronizationsShown(view, Enter(before, entry))
  {
    var after := Enter(before, entry);
    forall domain | domain in view.synchronized ensures SynchronizedIn(after, domain, view.synchronized[domain]) {
      var key: Key :| DomainOf(key.kind) == Some(domain) && At(before, key).Done?
                      && At(before, key).fact == Some(SynchronizationFact(domain, view.synchronized[domain]));
      assert At(after, key) == At(before, key);
    }
  }

  lemma SynchronizationsNext(job: Job, view: View, before: Ledger, entry: Entry)
    requires SynchronizationsShown(view, before) && entry.move.Some? && MoveAllowed(before, entry.move.value)
    requires !entry.move.value.kind.Intent? && Synchronizes(entry.move.value.key)
    requires SlotFits(job, entry.move.value.key, entry.move.value.kind, entry.move.value.fact)
    ensures var fact := entry.move.value.fact.value;
            SynchronizationsShown(view.(synchronized := view.synchronized[fact.domain := fact.status]), Enter(before, entry))
  {
    var after, move := Enter(before, entry), entry.move.value;
    var domain, status := move.fact.value.domain, move.fact.value.status;
    assert At(after, move.key).Done? && At(after, move.key).fact == Some(SynchronizationFact(domain, status));
    forall other | other in view.synchronized && other != domain ensures SynchronizedIn(after, other, view.synchronized[other]) {
      var key: Key :| DomainOf(key.kind) == Some(other) && At(before, key).Done?
                      && At(before, key).fact == Some(SynchronizationFact(other, view.synchronized[other]));
      assert At(after, key) == At(before, key);
    }
  }

  /** The view holds the fact of every terminal event of these kinds. */
  ghost predicate Knows(view: View, ledger: Ledger, kinds: set<EffectKind>) {
    forall key: Key :: key.kind in kinds && At(ledger, key).Done? ==> FactAt(view, key) == At(ledger, key).fact
  }

  /** The staging fact is the one of every staging effect. */
  ghost predicate StagedIs(view: View, ledger: Ledger) {
    && (forall a: Key :: a.kind.StageIncomingPayload? && At(ledger, a).Done? ==> At(ledger, a).fact == view.staged)
    && (view.staged.Some? <==> exists a: Key :: a.kind.StageIncomingPayload? && At(ledger, a).Done?)
  }

  lemma RetainedStaged(job: Job, view: View, before: Ledger, entry: Entry)
    requires StagedIs(view, before) && entry.move.Some? && MoveAllowed(before, entry.move.value)
    ensures entry.move.value.kind.Intent? ==> StagedIs(view, Enter(before, entry))
    ensures !entry.move.value.kind.Intent? ==>
              var move := entry.move.value;
              var next := Retained(job, view, move.key, move.kind, move.fact);
              next.Some? ==> StagedIs(next.value, Enter(before, entry))
  {
    var move := entry.move.value;
    var after := Enter(before, entry);
    assert forall key :: key != move.key ==> At(after, key) == At(before, key);
    if !move.kind.Intent? {
      var next := Retained(job, view, move.key, move.kind, move.fact);
      if next.Some? && move.key.kind.StageIncomingPayload? {
        assert At(after, move.key).Done?;
      }
    }
  }

  lemma RetainedShows(job: Job, view: View, before: Ledger, entry: Entry)
    requires Shows(view, before) && entry.move.Some? && MoveAllowed(before, entry.move.value)
    ensures entry.move.value.kind.Intent? ==> Shows(view, Enter(before, entry))
    ensures !entry.move.value.kind.Intent? ==>
              var move := entry.move.value;
              var next := Retained(job, view, move.key, move.kind, move.fact);
              next.Some? ==> Shows(next.value, Enter(before, entry))
  {
    var move := entry.move.value;
    var after := Enter(before, entry);
    assert forall key :: key != move.key ==> At(after, key) == At(before, key);
    if move.kind.Intent? || !Synchronizes(move.key) {
      SynchronizationsKept(view, before, entry);
    }
    if !move.kind.Intent? {
      var next := Retained(job, view, move.key, move.kind, move.fact);
      if next.Some? && Synchronizes(move.key) {
        SynchronizationsNext(job, view, before, entry);
      }
    }
  }

  /** For a journal the history accepts, the view shows exactly what the
      journal records, effect by effect. */
  lemma {:induction false} ViewShows(job: Job, declaration: Declaration, steps: seq<Step>)
    requires Accepted(declaration, steps) && Indexed(declaration.effects) && ViewOf(job, steps).Some?
    ensures Shows(ViewOf(job, steps).value, LedgerOf(steps)) && StagedIs(ViewOf(job, steps).value, LedgerOf(steps))
  {
    if steps != [] {
      var rest, last := steps[..|steps| - 1], steps[|steps| - 1];
      assert rest + [last] == steps;
      ViewShows(job, declaration, rest);
      AcceptedAppend(declaration, rest, last);
      DoneStays(declaration, rest, last);
      if last.event.Some? {
        RetainedShows(job, ViewOf(job, rest).value, LedgerOf(rest), EntryOf(last));
        RetainedStaged(job, ViewOf(job, rest).value, LedgerOf(rest), EntryOf(last));
      } else {
        assert LedgerOf(steps).slots == LedgerOf(rest).slots;
        SynchronizationsKept(ViewOf(job, rest).value, LedgerOf(rest), EntryOf(last));
      }
    }
  }

  /** A view of an accepted journal whose facts fit their events is refused
      only over conflicting staging facts. */
  lemma {:induction false} ViewAccepts(job: Job, declaration: Declaration, steps: seq<Step>)
    requires Accepted(declaration, steps) && Indexed(declaration.effects) && FactsFit(job, LedgerOf(steps))
    ensures ViewOf(job, steps).Some? <==> StagesAgree(LedgerOf(steps))
  {
    if steps != [] {
      var rest, last := steps[..|steps| - 1], steps[|steps| - 1];
      assert rest + [last] == steps;
      AcceptedAppend(declaration, rest, last);
      DoneStays(declaration, rest, last);
      PrefixFits(job, declaration, rest, last);
      ViewAccepts(job, declaration, rest);
      if ViewOf(job, rest).Some? {
        ViewShows(job, declaration, rest);
        if last.event.Some? && !last.event.value.kind.Intent? {
          NextAccepted(job, ViewOf(job, rest).value, LedgerOf(rest), EntryOf(last));
        } else {
          SameDone(LedgerOf(rest), LedgerOf(steps));
        }
      } else {
        StillConflicts(LedgerOf(rest), LedgerOf(steps));
      }
    }
  }

  lemma PrefixFits(job: Job, declaration: Declaration, rest: seq<Step>, last: Step)
    requires Admissible(declaration, rest, last) && Indexed(declaration.effects) && FactsFit(job, LedgerOf(rest + [last]))
    ensures FactsFit(job, LedgerOf(rest))
  {
    DoneStays(declaration, rest, last);
  }

  lemma SameDone(before: Ledger, after: Ledger)
    requires forall key :: At(before, key).Done? ==> At(after, key) == At(before, key)
    requires forall key :: At(after, key).Done? ==> At(before, key).Done?
    ensures StagesAgree(before) <==> StagesAgree(after)
  {
  }

  lemma StillConflicts(before: Ledger, after: Ledger)
    requires forall key :: At(before, key).Done? ==> At(after, key) == At(before, key)
    ensures StagesAgree(after) ==> StagesAgree(before)
  {
  }

  lemma NextAccepted(job: Job, view: View, before: Ledger, entry: Entry)
    requires Shows(view, before) && StagedIs(view, before) && StagesAgree(before)
    requires entry.move.Some? && !entry.move.value.kind.Intent? && MoveAllowed(before, entry.move.value)
    requires FactsFit(job, Enter(before, entry))
    ensures var move := entry.move.value;
            Retained(job, view, move.key, move.kind, move.fact).Some? <==> StagesAgree(Enter(before, entry))
  {
    var move := entry.move.value;
    var after := Enter(before, entry);
    assert forall key :: key != move.key ==> At(after, key) == At(before, key);
    assert At(after, move.key) == Done(move.kind, move.fact);
    assert !Synchronizes(move.key) ==> FactAt(view, move.key).None?;
    if move.key.kind.StageIncomingPayload? && view.staged.Some? {
      var a: Key :| a.kind.StageIncomingPayload? && At(before, a).Done?;
      assert At(after, a).fact == view.staged;
    }
  }
}
