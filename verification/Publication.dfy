/** Publishing the rejected objects, before anything in the active namespace
    is touched. */
module Publication {
  import opened Wrappers
  import opened Paths
  import opened Plans
  import opened Journal
  import opened History
  import opened Ledgers
  import opened Jobs
  import opened Protocol
  import opened Receipts
  import opened Backend
  import opened Applications
  import opened Phases
  import opened Preparation

  /** A backend may not use one rejected record for two paths. */
  predicate RecordsDistinct(results: seq<RejectedResult>) {
    forall i, j :: 0 <= i < j < |results| && results[i].record.Some? ==> results[i].record != results[j].record
  }

  /** The results carry the records an honest backend uses. */
  predicate RecordsNamed(recordOf: Path -> nat, rejected: seq<Path>, results: seq<RejectedResult>) {
    && |results| <= |rejected|
    && forall i :: 0 <= i < |results| && results[i].record.Some? ==> results[i].record == Some(recordOf(rejected[i]))
  }

  lemma NamedIsDistinct(recordOf: Path -> nat, rejected: seq<Path>, results: seq<RejectedResult>)
    requires RecordsNamed(recordOf, rejected, results) && Distinct(rejected)
    requires forall p, q :: recordOf(p) == recordOf(q) ==> p == q
    ensures RecordsDistinct(results)
  {
    forall i, j | 0 <= i < j < |results| && results[i].record.Some? ensures results[i].record != results[j].record {
      assert rejected[i] != rejected[j];
    }
  }

  lemma HonestRecords(app: Application, results: seq<RejectedResult>)
    requires app.Alive() && (app.backend.honest ==> RecordsNamed(app.backend.recordOf, app.job.rejected, results))
    ensures app.backend.Honest() ==> RecordsDistinct(results)
  {
    if app.backend.Honest() {
      JobFacts(app);
      NamedIsDistinct(app.backend.recordOf, app.job.rejected, results);
    }
  }

  function RejectedPathsOf(rejected: seq<Path>, results: seq<RejectedResult>): (paths: seq<Consequence>)
    requires |results| <= |rejected|
    ensures |paths| == |results|
  {
    seq(|results|, i requires 0 <= i < |results| =>
      Consequence(rejected[i], None, Some(results[i].outcome), AdmittedState, false))
  }

  ghost predicate ActiveIdle(job: Job, ledger: Ledger) {
    forall p :: p in job.active ==> Recorded(ledger, PublishActiveObject, p).None?
  }

  /** How a rejected phase may end in failure. */
  predicate RejectedEnding(ending: Ending, rejected: Status) {
    || ending == Ending(FailedBeforeTargetMutation, Unchanged)
    || ending == Ending(AttemptIndeterminate, RequiresAuthoritativeObservation)
    || (ending == Ending(DurabilityUnconfirmed, RecoveryAssetsRetained) && (rejected.Visible? || rejected.Unconfirmed?))
  }

  lemma IdleUntouched(job: Job, ledger: Ledger)
    requires ActiveIdle(job, ledger) && OnlyDeclared(job, ledger)
    ensures forall p :: !Touched(ledger, p)
  {
    forall p ensures !Touched(ledger, p) {
      if p !in job.active {
        assert !JobDeclares(job, Key(PublishActiveObject, Some(p)));
      }
    }
  }

  lemma RejectedTruthful(job: Job, seed: Seed, ledger: Ledger, results: seq<RejectedResult>, receipt: Receipt)
    requires OnlyDeclared(job, ledger) && RejectedRecorded(job, ledger, results) && ActiveIdle(job, ledger)
    requires Distinct(job.rejected)
    requires receipt.paths == RejectedPathsOf(job.rejected, results)
    requires !receipt.outcome.AttemptCompleted?
    ensures Truthful(job, seed, ledger, receipt)
  {
    IdleUntouched(job, ledger);
    NoCandidates(ledger, job.active);
    forall c | c in receipt.paths ensures TruthfulPath(job, seed, ledger, c) {
      var i :| 0 <= i < |receipt.paths| && receipt.paths[i] == c;
      assert Recorded(ledger, PublishRejectedObject, job.rejected[i]) == Some(results[i].outcome);
    }
  }

  /** Seals a failure of the rejected phase. */
  method FailRejected(
      app: Application, results: seq<RejectedResult>, ending: Ending, prepared: PreparedAttempt, rejected: Status)
    returns (r: Flow<Receipt>)
    requires app.Open() && RejectedRecorded(app.job, app.ledger, results) && ActiveIdle(app.job, app.ledger)
    requires RejectedEnding(ending, rejected)
    modifies app, app.store, app.history
    ensures r.Crashed? ==> app.MayCrash()
    ensures app.Safe()
    ensures r.Live? ==> OnlyChanged(old(app.ledger), app.ledger, {}) && !r.value.outcome.AttemptCompleted?
    ensures r.Live? ==> app.ledger.receipt == Some(r.value)
    ensures r.Thrown? ==> (r.fault == BackendFault && !RecordsDistinct(results))
                          || (r.fault == StepRefused && !old(app.ledger).state.Mutating?)
  {
    hide Inv, StoredParts, Application.AwareOf, Attests;
    app.IsSafe();
    if !RecordsDistinct(results) {
      return Thrown(BackendFault);
    }
    var durability := prepared.durability.(rejected := rejected);
    var receipt := FailedReceipt(app.job.plan, ending.outcome, ending.recovery, durability,
                                 RejectedPathsOf(app.job.rejected, results), true);
    RejectedReceipt(app, results, ending, durability);
    var visible := exists r :: r in results && r.outcome.Completed?;
    var state :=
      if ending.outcome.AttemptIndeterminate? then StateIndeterminate
      else if ending.outcome.DurabilityUnconfirmed? || visible then EffectsVisible
      else Abandoned;
    var sealed :- SealState(app, state, receipt.value);
    return Live(receipt.value);
  }

  /** The failure receipt of the rejected phase is never refused, and true. */
  lemma RejectedReceipt(app: Application, results: seq<RejectedResult>, ending: Ending, durability: Durability)
    requires app.Alive() && RejectedRecorded(app.job, app.ledger, results) && ActiveIdle(app.job, app.ledger)
    requires RejectedEnding(ending, durability.rejected)
    ensures var receipt := FailedReceipt(app.job.plan, ending.outcome, ending.recovery, durability,
                                         RejectedPathsOf(app.job.rejected, results), true);
            receipt.Some? && Truthful(app.job, app.seed, app.ledger, receipt.value)
  {
    JobFacts(app);
    SoundMeans(app.job, app.seed, app.ledger, app.backend.trace);
    var paths := RejectedPathsOf(app.job.rejected, results);
    forall c | c in paths ensures c.path in PlanPaths(app.job.plan) {
      RejectedPlanned(app.job, c.path);
    }
    assert durability.rejected in Statuses(durability);
    var receipt := Receipt(ending.outcome, ending.recovery, durability, paths, None);
    RejectedTruthful(app.job, app.seed, app.ledger, results, receipt);
  }

  lemma PlanMember(plan: Plan, d: Decision)
    requires d in plan
    ensures d.path in PlanPaths(plan)
  {
    var i :| 0 <= i < |plan| && plan[i] == d;
    assert PlanPaths(plan)[i] == d.path;
  }

  lemma RejectedPlanned(job: Job, p: Path)
    requires JobOk(job)
    ensures p in job.rejected ==> p in PlanPaths(job.plan)
  {
    RejectedExact(job.plan, p);
    if p in job.rejected {
      var d :| d in job.plan && d.path == p && !d.rejected.NoRejected?;
      PlanMember(job.plan, d);
    }
  }

  // ---------------------------------------------------------------- the first run

  /** A first run whose rejected objects are published and nothing else. */
  ghost predicate FreshlyPublished(job: Job, ledger: Ledger, published: PublishedAttempt) {
    && ledger.state.Mutating?
    && AllCaptured(job, ledger, published.prepared.captures)
    && AllRejected(job, ledger, published.rejected)
    && Finished(job, ledger, PreparationKinds() + RejectedKinds())
    && Untouched(ledger, ActiveKinds() + CompletionKinds() + RecoveryKinds())
    && published.durability == PreparedDurability(job).(rejected := RejectedStatus(job))
  }

  function RejectedStatus(job: Job): Status {
    if job.rejected == [] then NotAttempted
    else if AllDomainsRequired(job.control) then Confirmed
    else Visible
  }

  /** Part way through the rejected objects. */
  ghost predicate Publishing(job: Job, ledger: Ledger, prepared: PreparedAttempt, results: seq<RejectedResult>) {
    && ledger.state.Mutating?
    && AllCaptured(job, ledger, prepared.captures)
    && Finished(job, ledger, PreparationKinds())
    && Untouched(ledger, {SynchronizeRejectedStore} + ActiveKinds() + CompletionKinds() + RecoveryKinds())
    && |results| <= |job.rejected|
    && (forall i :: 0 <= i < |results| ==>
          && results[i].outcome.Completed?
          && CompletedSlot(SlotAt(ledger, PublishRejectedObject, job.rejected[i]))
          && Recorded(ledger, PublishRejectedObject, job.rejected[i]) == Some(Completed))
    && (forall i :: |results| <= i < |job.rejected| ==> SlotAt(ledger, PublishRejectedObject, job.rejected[i]).Idle?)
    && prepared.durability == PreparedDurability(job)
  }

  lemma UntouchedActive(job: Job, ledger: Ledger, kinds: set<EffectKind>)
    requires Untouched(ledger, kinds) && PublishActiveObject in kinds
    ensures ActiveIdle(job, ledger)
  {
  }

  /** One more rejected object is recorded. */
  lemma PublishingMoves(job: Job, before: Ledger, prepared: PreparedAttempt, results: seq<RejectedResult>, result: RejectedResult)
    requires Publishing(job, before, prepared, results) && |results| < |job.rejected| && Distinct(job.rejected)
    ensures var p := job.rejected[|results|];
            var after := Placed(before, Mutating, Key(PublishRejectedObject, Some(p)),
                                Done(TerminalOf(result.outcome), Some(RejectedFact(p, result.outcome, result.record))));
            && ActiveIdle(job, after) && RecoverIdle(after) && after.state.Mutating?
            && RejectedRecorded(job, after, results + [result])
            && (result.outcome.Completed? ==> Publishing(job, after, prepared, results + [result]))
  {
    var p := job.rejected[|results|];
    var after := Placed(before, Mutating, Key(PublishRejectedObject, Some(p)),
                        Done(TerminalOf(result.outcome), Some(RejectedFact(p, result.outcome, result.record))));
    assert OnlyChanged(before, after, {PublishRejectedObject});
    UnchangedKinds(job, before, after, {PublishRejectedObject}, PreparationKinds());
    UnchangedKinds(job, before, after, {PublishRejectedObject},
                   {SynchronizeRejectedStore} + ActiveKinds() + CompletionKinds() + RecoveryKinds());
    UntouchedRecover(after, {SynchronizeRejectedStore} + ActiveKinds() + CompletionKinds() + RecoveryKinds());
    CapturesSame(job, before, after, prepared.captures, {PublishRejectedObject});
    assert forall i :: 0 <= i < |job.rejected| && i != |results| ==>
                         SlotAt(after, PublishRejectedObject, job.rejected[i]) == SlotAt(before, PublishRejectedObject, job.rejected[i]);
  }

  function UnfinishedEnding(outcome: Outcome): Ending {
    if outcome.Indeterminate? then Ending(AttemptIndeterminate, RequiresAuthoritativeObservation)
    else Ending(FailedBeforeTargetMutation, Unchanged)
  }

  function UnconfirmedEnding(status: Status): Ending {
    if status.StatusIndeterminate? then Ending(AttemptIndeterminate, RequiresAuthoritativeObservation)
    else Ending(DurabilityUnconfirmed, RecoveryAssetsRetained)
  }

  lemma PublishingTurn(job: Job, ledger: Ledger, prepared: PreparedAttempt, results: seq<RejectedResult>)
    requires Publishing(job, ledger, prepared, results) && |results| < |job.rejected|
    ensures TurnOf(job, ledger, PublishRejectedObject, job.rejected[|results|], |results|)
    ensures SlotAt(ledger, PublishRejectedObject, job.rejected[|results|]).Idle? && RecoverIdle(ledger)
  {
    UntouchedRecover(ledger, {SynchronizeRejectedStore} + ActiveKinds() + CompletionKinds() + RecoveryKinds());
  }

  /** Publishes the rejected objects in plan order. */
  method PublishEach(app: Application, prepared: PreparedAttempt) returns (r: Flow<Phase<seq<RejectedResult>>>)
    requires app.Open() && Publishing(app.job, app.ledger, prepared, [])
    modifies app, app.store, app.history, app.backend
    ensures r.Crashed? ==> app.MayCrash()
    ensures r.Thrown? && r.fault == BackendFault ==> !app.backend.Honest()
    ensures app.Safe()
    ensures r.Live? && r.value.Sealed? ==> Fallen(app.ledger) && !r.value.receipt.outcome.AttemptCompleted?
    ensures r.Live? && r.value.Sealed? ==> app.ledger.receipt == Some(r.value.receipt)
    ensures r.Live? && r.value.Onward? ==>
              app.Open() && |r.value.value| == |app.job.rejected| && Publishing(app.job, app.ledger, prepared, r.value.value)
    ensures r.Live? && r.value.Onward? && app.backend.honest ==>
              RecordsNamed(app.backend.recordOf, app.job.rejected, r.value.value)
    ensures r.Thrown? ==> r.fault == BackendFault
  {
    hide Inv, StoredParts, Application.AwareOf, Attests;
    app.IsSafe();
    JobFacts(app);
    var results: seq<RejectedResult> := [];
    for i := 0 to |app.job.rejected|
      invariant app.Open() && app.Safe()
      invariant |results| == i && Publishing(app.job, app.ledger, prepared, results)
      invariant app.backend.honest ==> RecordsNamed(app.backend.recordOf, app.job.rejected, results)
    {
      PublishingTurn(app.job, app.ledger, prepared, results);
      ghost var before := app.ledger;
      var result :- RunRejected(app, app.job.rejected[i], i);
      PublishingMoves(app.job, before, prepared, results, result);
      results := results + [result];
      if !result.outcome.Completed? {
        HonestRecords(app, results);
        ghost var stopped := app.ledger;
        FallenAt(stopped, Key(PublishRejectedObject, Some(app.job.rejected[i])));
        var receipt :- FailRejected(app, results, UnfinishedEnding(result.outcome), prepared,
                                    if result.outcome.Indeterminate? then StatusIndeterminate
                                    else if i == 0 then NotAttempted else Visible);
        FallenKept(stopped, app.ledger, {});
        return Live(Sealed(receipt));
      }
      app.IsSafe();
    }
    return Live(Onward(results));
  }

  /** What was published is still published. */
  lemma PublishedStays(job: Job, before: Ledger, after: Ledger, prepared: PreparedAttempt, results: seq<RejectedResult>)
    requires Publishing(job, before, prepared, results) && |results| == |job.rejected|
    requires OnlyChanged(before, after, {SynchronizeRejectedStore})
    ensures RejectedRecorded(job, after, results) && Finished(job, after, {PublishRejectedObject})
  {
    forall key: Key | key.kind == PublishRejectedObject && JobDeclares(job, key) ensures CompletedSlot(At(after, key)) {
      var i :| 0 <= i < |job.rejected| && job.rejected[i] == key.path.value;
      assert CompletedSlot(SlotAt(before, PublishRejectedObject, job.rejected[i]));
      assert key == Key(PublishRejectedObject, Some(job.rejected[i]));
    }
  }

  lemma PublishedFinished(job: Job, before: Ledger, after: Ledger, prepared: PreparedAttempt, results: seq<RejectedResult>)
    requires Publishing(job, before, prepared, results) && |results| == |job.rejected|
    requires OnlyChanged(before, after, {SynchronizeRejectedStore}) && after.state.Mutating?
    ensures RejectedRecorded(job, after, results) && ActiveIdle(job, after) && RecoverIdle(after)
    ensures Finished(job, after, {SynchronizeRejectedStore}) ==>
              FreshlyPublished(job, after, PublishedAttempt(prepared, results,
                                 prepared.durability.(rejected := RejectedStatus(job))))
  {
    PublishedStays(job, before, after, prepared, results);
    UnchangedKinds(job, before, after, {SynchronizeRejectedStore}, PreparationKinds());
    UnchangedKinds(job, before, after, {SynchronizeRejectedStore}, ActiveKinds() + CompletionKinds() + RecoveryKinds());
    UntouchedRecover(after, ActiveKinds() + CompletionKinds() + RecoveryKinds());
    UntouchedActive(job, after, ActiveKinds() + CompletionKinds() + RecoveryKinds());
    CapturesSame(job, before, after, prepared.captures, {SynchronizeRejectedStore});
  }

  /** Makes the rejected store durable. */
  method SynchronizeRejected(app: Application, prepared: PreparedAttempt, results: seq<RejectedResult>) returns (r: Flow<Status>)
    requires app.Open() && Publishing(app.job, app.ledger, prepared, results) && |results| == |app.job.rejected|
    requires results != [] && AllDomainsRequired(app.job.control)
    modifies app, app.store, app.history, app.backend
    ensures r.Crashed? ==> app.MayCrash()
    ensures r.Thrown? && r.fault == BackendFault ==> !app.backend.Honest()
    ensures app.Safe()
    ensures r.Live? && !r.value.Confirmed? ==> Fallen(app.ledger)
    ensures r.Live? ==>
              && app.Open() && app.ledger.state.Mutating? && !r.value.NotAttempted?
              && RejectedRecorded(app.job, app.ledger, results) && ActiveIdle(app.job, app.ledger)
    ensures r.Live? && r.value.Confirmed? ==>
              FreshlyPublished(app.job, app.ledger, PublishedAttempt(prepared, results, prepared.durability.(rejected := Confirmed)))
    ensures r.Thrown? ==> r.fault == BackendFault
  {
    hide Inv, StoredParts, Application.AwareOf, Attests;
    ghost var before := app.ledger;
    UntouchedRecover(app.ledger, {SynchronizeRejectedStore} + ActiveKinds() + CompletionKinds() + RecoveryKinds());
    r := RunSynchronization(app, Mutating, RejectedStore, SynchronizeRejectedStore);
    if r.Live? {
      PublishedFinished(app.job, before, app.ledger, prepared, results);
      if r.value != Confirmed {
        FallenAt(app.ledger, Key(SynchronizeRejectedStore, None));
      }
    }
  }

  /** The first mutating state is durable before the first visible effect. */
  method BeginMutation(app: Application, prepared: PreparedAttempt) returns (r: Flow<()>)
    requires app.Open() && FreshlyPrepared(app.job, app.ledger, prepared)
    modifies app, app.store, app.history
    ensures r.Crashed? ==> app.MayCrash()
    ensures app.Safe()
    ensures r.Live? ==> app.Open() && Publishing(app.job, app.ledger, prepared, [])
    ensures !r.Thrown?
  {
    hide Inv, StoredParts, Application.AwareOf, Attests;
    UntouchedRecover(app.ledger, LaterKinds());
    ghost var before := app.ledger;
    r := PublishState(app, Mutating);
    CapturesSame(app.job, before, before.(state := Mutating), prepared.captures, {});
  }

  method FinishPublication(app: Application, prepared: PreparedAttempt, results: seq<RejectedResult>)
    returns (r: Flow<Phase<PublishedAttempt>>)
    requires app.Open() && Publishing(app.job, app.ledger, prepared, results) && |results| == |app.job.rejected|
    requires app.backend.honest ==> RecordsNamed(app.backend.recordOf, app.job.rejected, results)
    modifies app, app.store, app.history, app.backend
    ensures r.Crashed? ==> app.MayCrash()
    ensures r.Thrown? && r.fault == BackendFault ==> !app.backend.Honest()
    ensures app.Safe()
    ensures r.Live? && r.value.Sealed? ==> Fallen(app.ledger) && !r.value.receipt.outcome.AttemptCompleted?
    ensures r.Live? && r.value.Sealed? ==> app.ledger.receipt == Some(r.value.receipt)
    ensures r.Live? && r.value.Onward? ==> app.Open() && FreshlyPublished(app.job, app.ledger, r.value.value)
    ensures r.Thrown? ==> r.fault == BackendFault
  {
    hide Inv, StoredParts, Application.AwareOf, Attests;
    HonestRecords(app, results);
    var rejected := if results == [] then NotAttempted else Visible;
    if results != [] && AllDomainsRequired(app.job.control) {
      rejected :- SynchronizeRejected(app, prepared, results);
      if rejected != Confirmed {
        ghost var stopped := app.ledger;
        var receipt :- FailRejected(app, results, UnconfirmedEnding(rejected), prepared, rejected);
        FallenKept(stopped, app.ledger, {});
        return Live(Sealed(receipt));
      }
    } else {
      PublishedFinished(app.job, app.ledger, app.ledger, prepared, results);
    }
    app.IsSafe();
    if !RecordsDistinct(results) {
      return Thrown(BackendFault);
    }
    return Live(Onward(PublishedAttempt(prepared, results, prepared.durability.(rejected := rejected))));
  }

  /** The rejected phase of a first run. */
  method PublishRejected(app: Application, prepared: PreparedAttempt) returns (r: Flow<Phase<PublishedAttempt>>)
    requires app.Open() && FreshlyPrepared(app.job, app.ledger, prepared)
    modifies app, app.store, app.history, app.backend
    ensures r.Crashed? ==> app.MayCrash()
    ensures r.Thrown? && r.fault == BackendFault ==> !app.backend.Honest()
    ensures app.Safe()
    ensures r.Live? && r.value.Sealed? ==> Fallen(app.ledger) && !r.value.receipt.outcome.AttemptCompleted?
    ensures r.Live? && r.value.Sealed? ==> app.ledger.receipt == Some(r.value.receipt)
    ensures r.Live? && r.value.Onward? ==> app.Open() && FreshlyPublished(app.job, app.ledger, r.value.value)
    ensures r.Thrown? ==> r.fault == BackendFault
  {
    hide Inv, StoredParts, Application.AwareOf, Attests;
    var mutating :- BeginMutation(app, prepared);
    var results :- PublishEach(app, prepared);
    if results.Sealed? {
      return Live(Sealed(results.receipt));
    }
    r := FinishPublication(app, prepared, results.value);
  }
}
