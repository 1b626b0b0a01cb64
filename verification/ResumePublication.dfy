/** The rejected phase of a restarted run. */
module ResumePublication {
  import opened Wrappers
  import opened Paths
  import opened Plans
  import opened Journal
  import opened Record
  import opened History
  import opened Ledgers
  import opened Jobs
  import opened Protocol
  import opened Receipts
  import opened Backend
  import opened Applications
  import opened RestartView
  import opened Phases
  import opened Preparation
  import opened Publication
  import opened ResumePreparation

  /** The durability the view reports for the rejected store is the one of its
      synchronization. */
  ghost predicate ViewSync(view: View, ledger: Ledger) {
    At(ledger, RejectedSync()).Done? ==>
      At(ledger, RejectedSync()).fact == Some(SynchronizationFact(RejectedStore, view.durability.rejected))
  }

  /** While a rejected object is not published, or the rejected store not
      durable, nothing active was begun. */
  lemma ActiveWaits(app: Application)
    requires app.Open() && (!RejectedPublished(app.job, app.ledger) || !RejectedDurable(app.job, app.ledger))
    ensures ActiveIdle(app.job, app.ledger) && RecoverIdle(app.ledger)
  {
    SoundMeans(app.job, app.seed, app.ledger, app.backend.trace);
    assert ActiveIdle(app.job, app.ledger);
    IdleUntouched(app.job, app.ledger);
    NoCandidates(app.ledger, app.job.active);
    assert RecoverShape(app.job, app.ledger);
  }

  /** Some rejected object is not published. */
  lemma NotPublished(job: Job, ledger: Ledger, k: nat)
    requires k < |job.rejected| && Recorded(ledger, PublishRejectedObject, job.rejected[k]) != Some(Completed)
    ensures !RejectedPublished(job, ledger)
  {
    assert job.rejected[k] in job.rejected;
  }

  /** The states of a run that is past its preparation. */
  predicate UnderWay(state: State) {
    state.Mutating? || PastRejected(state)
  }

  /** What is not published, or not durable, was not left behind. */
  lemma RejectedIsMutating(app: Application)
    requires app.Open() && UnderWay(app.ledger.state) && !RejectedBehind(app.job, app.ledger)
    ensures app.ledger.state.Mutating?
  {
    Behind(app);
  }

  /** An honest backend keeps the rejected object of a path under the record
      of that path. */
  lemma RecordHonest(app: Application, p: Path)
    requires app.Open() && SlotAt(app.ledger, PublishRejectedObject, p).Done?
    ensures var slot := SlotAt(app.ledger, PublishRejectedObject, p);
            && slot.fact.Some? && slot.fact.value.RejectedFact?
            && (app.backend.honest && slot.fact.value.record.Some? ==> slot.fact.value.record.value == app.backend.recordOf(p))
  {
    hide Core, PhaseGate, ActiveGate, PreparedGate, SyncGate, EvidenceGate, StoredParts, WrittenAhead, Witnessed;
    SoundMeans(app.job, app.seed, app.ledger, app.backend.trace);
    app.AwareMeans();
    AttestedMeans(app.job, app.store.steps, app.backend);
    var key := Key(PublishRejectedObject, Some(p));
    var slot := At(app.ledger, key);
    assert SlotFits(app.job, key, slot.kind, slot.fact);
    assert app.backend.honest ==> MovePlausible(app.job, app.backend.recordOf, Move(key, slot.kind, slot.fact));
  }

  /** Part way through the rejected objects of a restarted run. */
  ghost predicate Republishing(job: Job, ledger: Ledger, prepared: PreparedAttempt, view: View, results: seq<RejectedResult>) {
    && AllCaptured(job, ledger, prepared.captures)
    && |results| <= |job.rejected|
    && (forall i :: 0 <= i < |results| ==>
          && results[i].outcome.Completed?
          && Recorded(ledger, PublishRejectedObject, job.rejected[i]) == Some(Completed))
    && (forall i :: |results| <= i < |job.rejected| && SlotAt(ledger, PublishRejectedObject, job.rejected[i]).Done? ==>
                      FactAt(view, Key(PublishRejectedObject, Some(job.rejected[i]))) ==
                      SlotAt(ledger, PublishRejectedObject, job.rejected[i]).fact)
    && ViewSync(view, ledger)
  }

  lemma RepublishingTurn(job: Job, ledger: Ledger, prepared: PreparedAttempt, view: View, results: seq<RejectedResult>)
    requires Republishing(job, ledger, prepared, view, results) && |results| < |job.rejected|
    ensures TurnOf(job, ledger, PublishRejectedObject, job.rejected[|results|], |results|)
  {
  }

  /** One more rejected object of a restarted run: retained, uncertain, or
      published now. */
  method RepublishNext(app: Application, prepared: PreparedAttempt, view: View, results: seq<RejectedResult>)
    returns (r: Flow<RejectedResult>)
    requires app.Open() && Republishing(app.job, app.ledger, prepared, view, results) && |results| < |app.job.rejected|
    requires UnderWay(app.ledger.state)
    modifies app, app.store, app.history, app.backend
    ensures r.Crashed? ==> app.MayCrash()
    ensures app.Safe()
    ensures !old(SlotAt(app.ledger, PublishRejectedObject, app.job.rejected[|results|])).Idle? ==>
              app.backend.trace == old(app.backend.trace) && app.ledger == old(app.ledger)
    ensures old(SlotAt(app.ledger, PublishRejectedObject, app.job.rejected[|results|])).Intended? ==>
              r == Live(RejectedResult(Indeterminate, None))
    ensures r.Live? ==>
              var p := app.job.rejected[|results|];
              && app.Open() && Recorded(app.ledger, PublishRejectedObject, p) == Some(r.value.outcome)
              && (forall other: Key :: other != Key(PublishRejectedObject, Some(p)) ==> At(app.ledger, other) == At(old(app.ledger), other))
              && (app.ledger.state == old(app.ledger).state || app.ledger.state.Mutating?)
    ensures r.Live? && app.backend.honest && r.value.record.Some? ==>
              r.value.record == Some(app.backend.recordOf(app.job.rejected[|results|]))
    ensures !r.Thrown?
  {
    hide Inv, StoredParts, Application.AwareOf, Attests;
    app.IsSafe();
    var p := app.job.rejected[|results|];
    var key := Key(PublishRejectedObject, Some(p));
    SoundFacts(app.job, app.seed, app.ledger, app.backend.trace, PublishRejectedObject, p);
    SoundLedger(app);
    var progress := app.ProgressFor(key);
    if progress.terminal.Some? {
      assert SlotFits(app.job, key, At(app.ledger, key).kind, At(app.ledger, key).fact);
      RecordHonest(app, p);
      var fact := FactAt(view, key).value;
      return Live(RejectedResult(fact.outcome, fact.record));
    }
    if progress.intended {
      return Live(RejectedResult(Indeterminate, None));
    }
    RepublishingTurn(app.job, app.ledger, prepared, view, results);
    NotPublished(app.job, app.ledger, |results|);
    ActiveWaits(app);
    RejectedIsMutating(app);
    var result :- RunRejected(app, p, |results|);
    app.IsSafe();
    return Live(result);
  }

  lemma RepublishingMoves(job: Job, before: Ledger, after: Ledger, prepared: PreparedAttempt, view: View,
                          results: seq<RejectedResult>, result: RejectedResult)
    requires Republishing(job, before, prepared, view, results) && |results| < |job.rejected| && Distinct(job.rejected)
    requires Recorded(after, PublishRejectedObject, job.rejected[|results|]) == Some(result.outcome)
    requires forall other: Key ::
               other != Key(PublishRejectedObject, Some(job.rejected[|results|])) ==> At(after, other) == At(before, other)
    ensures RejectedRecorded(job, after, results + [result])
    ensures result.outcome.Completed? ==> Republishing(job, after, prepared, view, results + [result])
    ensures OnlyChanged(before, after, {PublishRejectedObject})
  {
    CapturesSame(job, before, after, prepared.captures, {PublishRejectedObject});
    assert forall i :: 0 <= i < |job.rejected| && i != |results| ==>
                         SlotAt(after, PublishRejectedObject, job.rejected[i]) == SlotAt(before, PublishRejectedObject, job.rejected[i]);
  }

  function RetainedDurability(outcome: Outcome, visible: bool): Status {
    if outcome.Indeterminate? then StatusIndeterminate else if visible then Visible else NotAttempted
  }

  /** Seals the failure of a rejected object that was not published. */
  method FailRepublished(app: Application, prepared: PreparedAttempt, results: seq<RejectedResult>) returns (r: Flow<Receipt>)
    requires app.Open() && UnderWay(app.ledger.state) && RejectedRecorded(app.job, app.ledger, results)
    requires results != [] && !results[|results| - 1].outcome.Completed?
    requires app.backend.honest ==> RecordsNamed(app.backend.recordOf, app.job.rejected, results)
    modifies app, app.store, app.history
    ensures r.Crashed? ==> app.MayCrash()
    ensures app.Safe()
    ensures r.Live? ==> app.ledger.receipt == Some(r.value)
    ensures r.Thrown? ==> r.fault == BackendFault && !app.backend.Honest()
  {
    hide Inv, StoredParts, Application.AwareOf, Attests, RecordsNamed, RecordsDistinct;
    var outcome := results[|results| - 1].outcome;
    NotPublished(app.job, app.ledger, |results| - 1);
    ActiveWaits(app);
    RejectedIsMutating(app);
    HonestRecords(app, results);
    r := FailRejected(app, results, UnfinishedEnding(outcome), prepared, RetainedDurability(outcome, |results| > 1));
  }

  /** Publishes the rejected objects that are not published yet. */
  method RepublishEach(app: Application, prepared: PreparedAttempt, view: View) returns (r: Flow<Phase<seq<RejectedResult>>>)
    requires app.Open() && Republishing(app.job, app.ledger, prepared, view, [])
    requires UnderWay(app.ledger.state)
    modifies app, app.store, app.history, app.backend
    ensures r.Crashed? ==> app.MayCrash()
    ensures app.Safe()
    ensures r.Live? && r.value.Sealed? ==> app.ledger.receipt == Some(r.value.receipt)
    ensures r.Live? && r.value.Onward? ==>
              && app.Open() && |r.value.value| == |app.job.rejected|
              && Republishing(app.job, app.ledger, prepared, view, r.value.value)
              && OnlyChanged(old(app.ledger), app.ledger, {PublishRejectedObject})
              && (app.ledger.state == old(app.ledger).state || app.ledger.state.Mutating?)
    ensures r.Live? && r.value.Onward? && app.backend.honest ==> RecordsNamed(app.backend.recordOf, app.job.rejected, r.value.value)
    ensures old(RejectedPublished(app.job, app.ledger)) ==> app.ledger == old(app.ledger) && (r.Live? ==> r.value.Onward?)
    ensures r.Thrown? ==> r.fault == BackendFault && !app.backend.Honest()
  {
    hide Inv, StoredParts, Application.AwareOf, Attests, ViewSync;
    app.IsSafe();
    JobFacts(app);
    ghost var first := app.ledger;
    var results: seq<RejectedResult> := [];
    for i := 0 to |app.job.rejected|
      invariant app.Open() && app.Safe() && |results| == i && UnderWay(app.ledger.state)
      invariant app.backend.honest ==> RecordsNamed(app.backend.recordOf, app.job.rejected, results)
      invariant RejectedPublished(app.job, first) ==> app.ledger == first
      invariant Republishing(app.job, app.ledger, prepared, view, results)
      invariant OnlyChanged(first, app.ledger, {PublishRejectedObject})
      invariant app.ledger.state == first.state || app.ledger.state.Mutating?
    {
      ghost var before := app.ledger;
      assert RejectedPublished(app.job, first) ==> Recorded(first, PublishRejectedObject, app.job.rejected[i]) == Some(Completed);
      var result :- RepublishNext(app, prepared, view, results);
      RepublishingMoves(app.job, before, app.ledger, prepared, view, results, result);
      results := results + [result];
      if !result.outcome.Completed? {
        var receipt :- FailRepublished(app, prepared, results);
        return Live(Sealed(receipt));
      }
      app.IsSafe();
    }
    return Live(Onward(results));
  }

  lemma RepublishedAll(job: Job, ledger: Ledger, prepared: PreparedAttempt, view: View, results: seq<RejectedResult>)
    requires Republishing(job, ledger, prepared, view, results) && |results| == |job.rejected|
    ensures AllRejected(job, ledger, results) && RejectedPublished(job, ledger)
  {
    RejectedAllDone(job, ledger, results);
  }

  /** Makes the rejected store durable unless an earlier run did. */
  method ResynchronizeRejected(app: Application, prepared: PreparedAttempt, view: View, results: seq<RejectedResult>)
    returns (r: Flow<Status>)
    requires app.Open() && Republishing(app.job, app.ledger, prepared, view, results) && |results| == |app.job.rejected|
    requires results != [] && AllDomainsRequired(app.job.control)
    requires UnderWay(app.ledger.state)
    modifies app, app.store, app.history, app.backend
    ensures r.Crashed? ==> app.MayCrash()
    ensures app.Safe()
    ensures r.Live? ==>
              && app.Open() && OnlyChanged(old(app.ledger), app.ledger, {SynchronizeRejectedStore})
              && (r.value.Confirmed? <==> RejectedDurable(app.job, app.ledger))
              && (app.ledger.state == old(app.ledger).state || app.ledger.state.Mutating?)
    ensures r.Live? ==> r.value.Confirmed? || r.value.Visible? || r.value.Unconfirmed? || r.value.StatusIndeterminate?
    ensures old(At(app.ledger, RejectedSync())).Done? ==> app.ledger == old(app.ledger)
    ensures r.Thrown? ==> r.fault == BackendFault && !app.backend.Honest()
  {
    hide Inv, StoredParts, Application.AwareOf, Attests;
    app.IsSafe();
    SoundLedger(app);
    RepublishedAll(app.job, app.ledger, prepared, view, results);
    var progress := app.ProgressFor(RejectedSync());
    if progress.terminal.Some? {
      assert SlotFits(app.job, RejectedSync(), At(app.ledger, RejectedSync()).kind, At(app.ledger, RejectedSync()).fact);
      return Live(view.durability.rejected);
    }
    NotDurable(app);
    RejectedIsMutating(app);
    r := RunSynchronization(app, Mutating, RejectedStore, SynchronizeRejectedStore);
  }

  lemma NotDurable(app: Application)
    requires app.Open() && JobDeclares(app.job, RejectedSync()) && !At(app.ledger, RejectedSync()).Done?
    ensures RecoverIdle(app.ledger)
  {
    ActiveWaits(app);
  }

  /** A restarted run whose rejected objects are published and durable. */
  ghost predicate Republished(job: Job, ledger: Ledger, published: PublishedAttempt) {
    && AllCaptured(job, ledger, published.prepared.captures)
    && AllRejected(job, ledger, published.rejected)
    && RejectedPublished(job, ledger) && RejectedDurable(job, ledger)
  }

  lemma RepublishedSync(job: Job, before: Ledger, after: Ledger, prepared: PreparedAttempt, view: View, results: seq<RejectedResult>, d: Durability)
    requires Republishing(job, before, prepared, view, results) && |results| == |job.rejected|
    requires OnlyChanged(before, after, {SynchronizeRejectedStore})
    ensures RejectedRecorded(job, after, results)
    ensures RejectedDurable(job, after) ==> Republished(job, after, PublishedAttempt(prepared, results, d))
  {
    RepublishedAll(job, before, prepared, view, results);
    CapturesSame(job, before, after, prepared.captures, {SynchronizeRejectedStore});
    assert forall q :: Recorded(after, PublishRejectedObject, q) == Recorded(before, PublishRejectedObject, q);
  }

  /** Synchronizes where asked for, and concludes the phase. */
  method FinishRepublication(app: Application, prepared: PreparedAttempt, view: View, results: seq<RejectedResult>)
    returns (r: Flow<Phase<PublishedAttempt>>)
    requires app.Open() && Republishing(app.job, app.ledger, prepared, view, results) && |results| == |app.job.rejected|
    requires UnderWay(app.ledger.state)
    requires app.backend.honest ==> RecordsNamed(app.backend.recordOf, app.job.rejected, results)
    requires prepared.durability == PreparedDurability(app.job)
    modifies app, app.store, app.history, app.backend
    ensures r.Crashed? ==> app.MayCrash()
    ensures app.Safe()
    ensures r.Live? && r.value.Sealed? ==> app.ledger.receipt == Some(r.value.receipt)
    ensures r.Live? && r.value.Onward? ==>
              && app.Open() && Republished(app.job, app.ledger, r.value.value)
              && OnlyChanged(old(app.ledger), app.ledger, RejectedKinds())
              && (app.ledger.state == old(app.ledger).state || app.ledger.state.Mutating?)
    ensures r.Live? && r.value.Onward? ==> r.value.value.durability == PreparedDurability(app.job).(rejected := RejectedStatus(app.job))
    ensures old(RejectedBehind(app.job, app.ledger)) ==> app.ledger == old(app.ledger) && (r.Live? ==> r.value.Onward?)
    ensures r.Thrown? ==> r.fault == BackendFault && !app.backend.Honest()
  {
    hide Inv, StoredParts, Application.AwareOf, Attests;
    app.IsSafe();
    ghost var before := app.ledger;
    var rejected := if results == [] then NotAttempted else Visible;
    if results != [] && AllDomainsRequired(app.job.control) {
      rejected :- ResynchronizeRejected(app, prepared, view, results);
    }
    RepublishedSync(app.job, before, app.ledger, prepared, view, results, prepared.durability.(rejected := rejected));
    app.IsSafe();
    if results != [] && AllDomainsRequired(app.job.control) && rejected != Confirmed {
      ActiveWaits(app);
      RejectedIsMutating(app);
      HonestRecords(app, results);
      var receipt :- FailRejected(app, results, UnconfirmedEnding(rejected), prepared, rejected);
      return Live(Sealed(receipt));
    }
    HonestRecords(app, results);
    if !RecordsDistinct(results) {
      return Thrown(BackendFault);
    }
    return Live(Onward(PublishedAttempt(prepared, results, prepared.durability.(rejected := rejected))));
  }

  lemma RepublishingStarts(app: Application, before: Ledger, prepared: PreparedAttempt, view: View)
    requires app.Alive() && Resumed(app.job, before, app.ledger, prepared)
    requires Knows(view, before, {PublishRejectedObject}) && ViewSync(view, before)
    ensures Republishing(app.job, app.ledger, prepared, view, [])
  {
  }

  /** Enters the rejected phase unless an earlier run did. */
  method BeginRepublication(app: Application, prepared: PreparedAttempt, view: View) returns (r: Flow<()>)
    requires app.Open() && Republishing(app.job, app.ledger, prepared, view, [])
    requires UnderWay(app.ledger.state) || app.ledger.state.Prepared?
    modifies app, app.store, app.history
    ensures r.Crashed? ==> app.MayCrash()
    ensures app.Safe()
    ensures r.Live? ==> app.Open() && Republishing(app.job, app.ledger, prepared, view, []) && UnderWay(app.ledger.state)
                        && OnlyChanged(old(app.ledger), app.ledger, {})
                        && (app.ledger.state == old(app.ledger).state || app.ledger.state.Mutating?)
    ensures old(UnderWay(app.ledger.state)) ==> app.ledger == old(app.ledger)
    ensures !r.Thrown?
  {
    hide Inv, StoredParts, Application.AwareOf, Attests;
    app.IsSafe();
    ghost var before := app.ledger;
    var state := app.State();
    if state.Prepared? {
      NothingBegun(app);
      var mutating :- PublishState(app, Mutating);
    }
    CapturesSame(app.job, before, app.ledger, prepared.captures, {});
    return Live(());
  }

  /** The rejected phase of a restarted run. */
  method ResumePublish(app: Application, prepared: PreparedAttempt, view: View) returns (r: Flow<Phase<PublishedAttempt>>)
    requires app.Open() && Republishing(app.job, app.ledger, prepared, view, [])
    requires UnderWay(app.ledger.state) || app.ledger.state.Prepared?
    requires prepared.durability == PreparedDurability(app.job)
    modifies app, app.store, app.history, app.backend
    ensures r.Crashed? ==> app.MayCrash()
    ensures app.Safe()
    ensures r.Live? && r.value.Sealed? ==> app.ledger.receipt == Some(r.value.receipt)
    ensures r.Live? && r.value.Onward? ==>
              && app.Open() && Republished(app.job, app.ledger, r.value.value)
              && OnlyChanged(old(app.ledger), app.ledger, RejectedKinds())
              && (app.ledger.state == old(app.ledger).state || app.ledger.state.Mutating?)
    ensures r.Live? && r.value.Onward? ==>
              && UnderWay(app.ledger.state)
              && r.value.value.durability == PreparedDurability(app.job).(rejected := RejectedStatus(app.job))
    ensures old(RejectedBehind(app.job, app.ledger) && UnderWay(app.ledger.state)) ==>
              app.ledger == old(app.ledger) && (r.Live? ==> r.value.Onward?)
    ensures r.Thrown? ==> r.fault == BackendFault && !app.backend.Honest()
  {
    hide Inv, StoredParts, Application.AwareOf, Attests, AllCaptured, ViewSync;
    var begun :- BeginRepublication(app, prepared, view);
    var results :- RepublishEach(app, prepared, view);
    if results.Sealed? {
      return Live(Sealed(results.receipt));
    }
    r := FinishRepublication(app, prepared, view, results.value);
  }
}
