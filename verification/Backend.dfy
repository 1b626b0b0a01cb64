/** The application backend: every call may fail, be uncertain, lie about its
    domain, or never return because the process died before or after the
    physical effect.

    The backend remembers the captures and mechanisms it was asked for and the
    paths it observed; what the calls do to the target, and that what was seen
    was there, is the contract of module Namespace.
 */
module Backend {
  import opened Wrappers
  import opened Paths
  import opened Journal
  import opened Protocol

  /** `faithful`: the captured object is the admitted one. */
  datatype CaptureResult = CaptureResult(outcome: Outcome, exact: bool, faithful: bool)

  datatype RejectedResult = RejectedResult(outcome: Outcome, record: Option<nat>)

  datatype StageResult = StageResult(outcome: Outcome, evidence: nat)

  datatype DurabilityFact = DurabilityFact(domain: Domain, status: Status)

  datatype PublicationResult = PublicationResult(outcome: Outcome, matches: bool)

  /** How an observed object compares with the expected one. */
  datatype Match = Matched | Mismatch | Unsure

  datatype Sighting = Unseen | Gone | Here(match_: Match)

  /** One more call, of this kind and on this path. */
  ghost predicate Called(before: Trace, after: Trace, kind: EffectKind, path: Path, durable: nat) {
    && |after| == |before| + 1
    && after == before + [after[|before|]]
    && after[|before|].kind == kind
    && after[|before|].path == path
    && after[|before|].durable == durable
  }

  /** Each path that was seen, was seen after `at` calls. */
  ghost predicate Sighted(paths: seq<Path>, sightings: seq<Sighting>, at: nat, seen: seq<Observation>) {
    && |sightings| == |paths|
    && forall i :: 0 <= i < |paths| && !sightings[i].Unseen? ==> Observation(at, paths[i], sightings[i].Here?) in seen
  }

  class ApplicationBackend {
    ghost var trace: Trace
    ghost var seen: seq<Observation>
    /** Whether the process may die inside a call. */
    const mayCrash: bool
    /** Whether what is reported keeps the contract. */
    const honest: bool
    /** Whether it publishes all evidence and confirms all synchronizations. */
    const confirms: bool
    /** The record under which a backend keeps the rejected object of a path. */
    const recordOf: Path -> nat

    /** The backend keeps its contract: results fit the command, and rejected
        objects are kept under records of their own. */
    ghost predicate Honest() {
      honest && forall p, q :: recordOf(p) == recordOf(q) ==> p == q
    }

    /** The backend keeps its contract and makes everything durable. */
    ghost predicate Confirms() {
      Honest() && confirms
    }

    constructor (mayCrash: bool, honest: bool, confirms: bool, recordOf: Path -> nat)
      ensures trace == [] && seen == [] && this.mayCrash == mayCrash && this.honest == honest && this.confirms == confirms
      ensures this.recordOf == recordOf
    {
      this.mayCrash, this.honest, this.confirms, this.recordOf := mayCrash, honest, confirms, recordOf;
      trace, seen := [], [];
    }

    method CaptureOld(path: Path, ghost durable: nat) returns (r: Flow<CaptureResult>)
      modifies this`trace
      ensures r.Crashed? ==> mayCrash
      ensures r.Live? ==> trace == old(trace) + [Call(CaptureOldObject, path, r.value.outcome, r.value.exact, durable)]
      ensures r.Live? && r.value.exact ==> r.value.outcome.Completed?
      ensures r.Live? && honest ==> !r.value.outcome.ConditionalRetained? && (r.value.outcome.Completed? ==> r.value.faithful)
      ensures trace == old(trace) || Called(old(trace), trace, CaptureOldObject, path, durable)
      ensures !r.Thrown?
    {
      var dies: bool := *;
      if mayCrash && dies {
        return Crashed;
      }
      var result: CaptureResult := *;
      if result.exact && !result.outcome.Completed? {
        result := result.(exact := false);
      }
      if honest {
        result := result.(faithful := true);
        if result.outcome.ConditionalRetained? {
          result := result.(outcome := Failed, exact := false);
        }
      }
      trace := trace + [Call(CaptureOldObject, path, result.outcome, result.exact, durable)];
      dies := *;
      return if mayCrash && dies then Crashed else Live(result);
    }

    method ExecuteRejected(path: Path, ghost durable: nat) returns (r: Flow<RejectedResult>)
      modifies this`trace
      ensures r.Crashed? ==> mayCrash
      ensures r.Live? ==> trace == old(trace) + [Call(PublishRejectedObject, path, r.value.outcome, false, durable)]
      ensures r.Live? ==> !r.value.outcome.ConditionalRetained? && (r.value.record.Some? <==> r.value.outcome.Completed?)
      ensures r.Live? && honest && r.value.record.Some? ==> r.value.record == Some(recordOf(path))
      ensures trace == old(trace) || Called(old(trace), trace, PublishRejectedObject, path, durable)
      ensures !r.Thrown?
    {
      var dies: bool := *;
      if mayCrash && dies {
        return Crashed;
      }
      var outcome: Outcome := *;
      var record: nat := *;
      if outcome.ConditionalRetained? {
        outcome := Indeterminate;
      }
      if honest {
        record := recordOf(path);
      }
      trace := trace + [Call(PublishRejectedObject, path, outcome, false, durable)];
      dies := *;
      return if mayCrash && dies then Crashed else Live(RejectedResult(outcome, if outcome.Completed? then Some(record) else None));
    }

    method ExecuteActive(path: Path, mayRetain: bool, ghost durable: nat) returns (r: Flow<Outcome>)
      modifies this`trace
      ensures r.Live? && honest && r.value.ConditionalRetained? ==> mayRetain
      ensures r.Crashed? ==> mayCrash
      ensures r.Live? ==> trace == old(trace) + [Call(PublishActiveObject, path, r.value, false, durable)]
      ensures trace == old(trace) || Called(old(trace), trace, PublishActiveObject, path, durable)
      ensures !r.Thrown?
    {
      var dies: bool := *;
      if mayCrash && dies {
        return Crashed;
      }
      var outcome: Outcome := *;
      if honest && outcome.ConditionalRetained? && !mayRetain {
        outcome := Failed;
      }
      trace := trace + [Call(PublishActiveObject, path, outcome, false, durable)];
      dies := *;
      return if mayCrash && dies then Crashed else Live(outcome);
    }

    method Recover(path: Path, ghost durable: nat) returns (r: Flow<Outcome>)
      modifies this`trace
      ensures r.Crashed? ==> mayCrash
      ensures r.Live? ==> trace == old(trace) + [Call(RecoverActiveObject, path, r.value, false, durable)]
      ensures r.Live? && honest ==> !r.value.ConditionalRetained?
      ensures trace == old(trace) || Called(old(trace), trace, RecoverActiveObject, path, durable)
      ensures !r.Thrown?
    {
      var dies: bool := *;
      if mayCrash && dies {
        return Crashed;
      }
      var outcome: Outcome := *;
      if honest && outcome.ConditionalRetained? {
        outcome := Failed;
      }
      trace := trace + [Call(RecoverActiveObject, path, outcome, false, durable)];
      dies := *;
      return if mayCrash && dies then Crashed else Live(outcome);
    }

    /** Staging the selected payloads and sealing the stage. */
    method StagePayloads() returns (r: Flow<StageResult>)
      ensures r.Live? && honest ==> !r.value.outcome.ConditionalRetained?
      ensures r.Crashed? ==> mayCrash
      ensures !r.Thrown?
    {
      var dies: bool := *;
      var result: StageResult := *;
      if honest && result.outcome.ConditionalRetained? {
        result := result.(outcome := Failed);
      }
      return if mayCrash && dies then Crashed else Live(result);
    }

    method Synchronize(domain: Domain) returns (r: Flow<DurabilityFact>)
      ensures r.Live? && honest ==> r.value.domain == domain && !r.value.status.NotAttempted?
      ensures r.Live? && confirms ==> r.value.status.Confirmed?
      ensures r.Crashed? ==> mayCrash
      ensures !r.Thrown?
    {
      var dies: bool := *;
      var fact: DurabilityFact := *;
      if honest {
        fact := fact.(domain := domain);
        if fact.status.NotAttempted? {
          fact := fact.(status := Unconfirmed);
        }
      }
      if confirms {
        fact := fact.(status := Confirmed);
      }
      return if mayCrash && dies then Crashed else Live(fact);
    }

    /** What was seen is remembered with the calls made before it. */
    method Observe(paths: seq<Path>) returns (r: Flow<seq<Sighting>>)
      modifies this`seen
      ensures r.Crashed? ==> mayCrash
      ensures old(seen) <= seen
      ensures r.Live? ==> Sighted(paths, r.value, |trace|, seen)
      ensures !r.Thrown?
    {
      var dies: bool := *;
      if mayCrash && dies {
        return Crashed;
      }
      var sightings: seq<Sighting> := [];
      while |sightings| < |paths|
        invariant |sightings| <= |paths| && old(seen) <= seen
        invariant Sighted(paths[..|sightings|], sightings, |trace|, seen)
      {
        var sighting: Sighting := *;
        var path := paths[|sightings|];
        sightings := sightings + [sighting];
        seen := if sighting.Unseen? then seen else seen + [Observation(|trace|, path, sighting.Here?)];
      }
      assert paths[..|sightings|] == paths;
      return Live(sightings);
    }

    method PublishCompletedEvidence(evidence: CompletedEvidence) returns (r: Flow<PublicationResult>)
      ensures r.Crashed? ==> mayCrash
      ensures r.Live? ==> !r.value.outcome.ConditionalRetained?
      ensures r.Live? && honest && r.value.outcome.Completed? ==> r.value.matches
      ensures r.Live? && confirms ==> r.value.outcome.Completed?
      ensures !r.Thrown?
    {
      var dies: bool := *;
      if mayCrash && dies {
        return Crashed;
      }
      var result: PublicationResult := *;
      if honest {
        result := result.(matches := true);
      }
      if result.outcome.ConditionalRetained? {
        result := result.(outcome := Indeterminate);
      }
      if confirms {
        result := result.(outcome := Completed);
      }
      return Live(result);
    }
  }
}
