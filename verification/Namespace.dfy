/** What the invariant of an attempt says about the real target.

    A run of the backend is a trace of calls and the worlds around them:
    `worlds[k]` is the target just before call k.  The backend contract is
    stated twice.  In the first an effect may transform the whole target in
    any way and can be undone only while no later effect is in force; the
    reverse recovery order is what makes the restored target the admitted one.
    In the second each effect stays on its own path; it gives the truth of
    every path of a failure receipt.
 */
module Namespace {
  import opened Wrappers
  import opened Paths
  import opened Plans
  import opened Journal
  import opened Ledgers
  import opened Jobs
  import opened Protocol

  predicate MayChange(outcome: Outcome) {
    outcome.Completed? || outcome.Indeterminate?
  }

  /** The backend holds what it needs to restore the path exactly. */
  predicate Restorable(seed: Seed, trace: Trace, path: Path) {
    && path in seed
    && (seed[path].Absent? || (seed[path].Present? && Held(trace, path) == Some((Completed, true))))
  }

  lemma ExactRestorable(seed: Seed, ledger: Ledger, trace: Trace, path: Path)
    requires CapturesHeld(ledger, trace) && Exact(seed, ledger, path)
    ensures Restorable(seed, trace, path)
  {
    assert HeldFact(SlotAt(ledger, CaptureOldObject, path), trace, path);
  }

  // ---------------------------------------------------------------- last in, first out

  datatype Undo<W> = Undo(path: Path, before: W)

  predicate OnStack<W>(stack: seq<Undo<W>>, path: Path) {
    exists i :: 0 <= i < |stack| && stack[i].path == path
  }

  predicate OnTop<W>(stack: seq<Undo<W>>, path: Path) {
    |stack| > 0 && stack[|stack| - 1].path == path
  }

  /** The effects still in force after the first n calls, with the world each
      one found. */
  function InForce<W>(trace: Trace, worlds: seq<W>, n: nat): (stack: seq<Undo<W>>)
    requires n <= |trace| < |worlds|
  {
    if n == 0 then []
    else
      var before := InForce(trace, worlds, n - 1);
      var call := trace[n - 1];
      if call.kind.PublishActiveObject? && MayChange(call.outcome) then before + [Undo(call.path, worlds[n - 1])]
      else if call.kind.RecoverActiveObject? && call.outcome.Completed? && OnTop(before, call.path) then before[..|before| - 1]
      else before
  }

  /** Call k obeys the contract: completed may do anything to the target,
      failed and retained did nothing, and a completed recovery of the latest
      effect in force restores the world that effect found. */
  ghost predicate Obeys<W>(seed: Seed, trace: Trace, worlds: seq<W>, k: nat)
    requires k < |trace| < |worlds|
  {
    var call := trace[k];
    var stack := InForce(trace, worlds, k);
    match call.kind
    case PublishActiveObject => MayChange(call.outcome) || worlds[k + 1] == worlds[k]
    case RecoverActiveObject =>
      && (call.outcome.Failed? ==> worlds[k + 1] == worlds[k])
      && (call.outcome.Completed? && Restorable(seed, trace, call.path) ==>
            && (OnTop(stack, call.path) ==> worlds[k + 1] == stack[|stack| - 1].before)
            && (!OnStack(stack, call.path) ==> worlds[k + 1] == worlds[k]))
    case _ => worlds[k + 1] == worlds[k]
  }

  ghost predicate Lawful<W>(seed: Seed, trace: Trace, worlds: seq<W>) {
    && |worlds| == |trace| + 1
    && forall k :: 0 <= k < |trace| ==> Obeys(seed, trace, worlds, k)
  }

  /** Where unwinding everything in force would lead. */
  function Base<W>(stack: seq<Undo<W>>, world: W): W {
    if stack == [] then world else stack[0].before
  }

  lemma {:induction false} CallPathsPrefix(trace: Trace, kind: EffectKind, n: nat)
    requires n <= |trace|
    ensures CallPaths(trace[..n], kind) <= CallPaths(trace, kind)
    decreases |trace|
  {
    if n == |trace| {
      assert trace[..n] == trace;
    } else {
      assert trace[..|trace| - 1][..n] == trace[..n];
      CallPathsPrefix(trace[..|trace| - 1], kind, n);
    }
  }

  /** The k-th call of a kind goes to the next path of its order. */
  lemma NextCall(trace: Trace, kind: EffectKind, k: nat)
    requires k < |trace| && trace[k].kind == kind
    ensures CallPaths(trace[..k], kind) + [trace[k].path] <= CallPaths(trace, kind)
  {
    CallPathsPrefix(trace, kind, k + 1);
    assert trace[..k + 1] == trace[..k] + [trace[k]];
    CallPathsAppend(trace[..k], trace[k], kind);
  }

  function IndexOf(paths: seq<Path>, p: Path): (i: nat)
    requires p in paths
    ensures i < |paths| && paths[i] == p
  {
    if paths[0] == p then 0 else 1 + IndexOf(paths[1..], p)
  }

  /** Later touched effects are undone first. */
  lemma {:induction false} LaterFirst(ledger: Ledger, active: seq<Path>, j: nat, a: nat, b: nat)
    requires Distinct(active) && a < b < |active| && Touched(ledger, active[b])
    requires j < |Candidates(ledger, active)| && Candidates(ledger, active)[j] == active[a]
    ensures active[b] in Candidates(ledger, active)[..j]
  {
    var rest, last := active[..|active| - 1], active[|active| - 1];
    var all, tail := Candidates(ledger, active), Candidates(ledger, rest);
    assert active[a] == rest[a] && active[a] != last;
    if all == [last] + tail {
      assert j > 0 && tail[j - 1] == rest[a] && all[..j] == [last] + tail[..j - 1];
      if b < |rest| {
        assert rest[b] == active[b];
        LaterFirst(ledger, rest, j - 1, a, b);
      } else {
        assert all[..j][0] == last;
      }
    } else {
      assert all == tail && b < |rest| && rest[b] == active[b];
      LaterFirst(ledger, rest, j, a, b);
    }
  }

  /** Every effect in force was called, counts as touched, was not recovered,
      and the effects in force follow the scheduled order. */
  ghost predicate StackOk<W>(job: Job, ledger: Ledger, trace: Trace, stack: seq<Undo<W>>) {
    && (forall i :: 0 <= i < |stack| ==>
          && stack[i].path in CallPaths(trace, PublishActiveObject)
          && stack[i].path in job.active
          && Touched(ledger, stack[i].path)
          && stack[i].path !in CallPaths(trace, RecoverActiveObject))
    && forall i, j :: 0 <= i < j < |stack| ==> IndexOf(job.active, stack[i].path) < IndexOf(job.active, stack[j].path)
  }

  /** What the invariant contributes: the calls follow their orders, touched
      calls are recorded as touched, every recovery completed and was exact. */
  ghost predicate CleanRun(job: Job, seed: Seed, ledger: Ledger, trace: Trace) {
    && Distinct(job.active)
    && CallPaths(trace, PublishActiveObject) <= job.active
    && CallPaths(trace, RecoverActiveObject) <= Candidates(ledger, job.active)
    && RanksAscend(trace)
    && forall k :: 0 <= k < |trace| ==>
         && (trace[k].kind.PublishActiveObject? && MayChange(trace[k].outcome) ==> Touched(ledger, trace[k].path))
         && (trace[k].kind.RecoverActiveObject? ==> trace[k].outcome.Completed? && Restorable(seed, trace, trace[k].path))
  }

  lemma {:induction false} NoRecoveryYet(trace: Trace, n: nat)
    requires RanksAscend(trace) && n < |trace| && trace[n].kind.PublishActiveObject?
    ensures CallPaths(trace[..n], RecoverActiveObject) == []
  {
    if CallPaths(trace[..n], RecoverActiveObject) != [] {
      CalledIn(trace[..n], RecoverActiveObject, CallPaths(trace[..n], RecoverActiveObject)[0]);
    }
  }

  lemma CalledBelow(job: Job, calls: seq<Path>, p: Path)
    requires calls <= job.active && Distinct(job.active) && p in calls && p in job.active
    ensures IndexOf(job.active, p) < |calls|
  {
    var c :| 0 <= c < |calls| && calls[c] == p;
    assert job.active[c] == job.active[IndexOf(job.active, p)];
  }

  lemma PushEntry<W>(job: Job, ledger: Ledger, trace: Trace, stack: seq<Undo<W>>, entry: Undo<W>)
    requires StackOk(job, ledger, trace, stack) && StackOk(job, ledger, trace, [entry]) && entry.path in job.active
    requires forall i :: 0 <= i < |stack| ==> IndexOf(job.active, stack[i].path) < IndexOf(job.active, entry.path)
    ensures StackOk(job, ledger, trace, stack + [entry])
  {
  }

  lemma CallPathsNext(trace: Trace, kind: EffectKind, n: nat)
    requires n < |trace|
    ensures CallPaths(trace[..n + 1], kind) == CallPaths(trace[..n], kind) + (if trace[n].kind == kind then [trace[n].path] else [])
  {
    assert trace[..n + 1] == trace[..n] + [trace[n]];
    CallPathsAppend(trace[..n], trace[n], kind);
  }

  /** The calls after one more active call. */
  lemma ActiveCalled(trace: Trace, n: nat)
    requires n < |trace| && trace[n].kind.PublishActiveObject? && RanksAscend(trace)
    ensures CallPaths(trace[..n + 1], PublishActiveObject) == CallPaths(trace[..n], PublishActiveObject) + [trace[n].path]
    ensures CallPaths(trace[..n + 1], PublishActiveObject) <= CallPaths(trace, PublishActiveObject)
    ensures CallPaths(trace[..n + 1], RecoverActiveObject) == []
  {
    NoRecoveryYet(trace, n);
    CallPathsNext(trace, PublishActiveObject, n);
    CallPathsNext(trace, RecoverActiveObject, n);
    CallPathsPrefix(trace, PublishActiveObject, n + 1);
  }

  /** The path of one more active call comes after all called before. */
  lemma CallsAhead(job: Job, trace: Trace, n: nat, p: Path)
    requires n < |trace| && trace[n].kind.PublishActiveObject? && RanksAscend(trace) && Distinct(job.active)
    requires CallPaths(trace, PublishActiveObject) <= job.active
    requires p in CallPaths(trace[..n], PublishActiveObject) && p in job.active
    ensures trace[n].path in job.active && IndexOf(job.active, p) < IndexOf(job.active, trace[n].path)
  {
    var calls := CallPaths(trace[..n], PublishActiveObject);
    NextCall(trace, PublishActiveObject, n);
    assert job.active[|calls|] == trace[n].path;
    CalledBelow(job, calls, p);
  }

  lemma CallPlanned(job: Job, trace: Trace, n: nat)
    requires n < |trace| && trace[n].kind.PublishActiveObject? && CallPaths(trace, PublishActiveObject) <= job.active
    ensures trace[n].path in job.active && trace[n].path in CallPaths(trace[..n + 1], PublishActiveObject)
  {
    NextCall(trace, PublishActiveObject, n);
    CallPathsNext(trace, PublishActiveObject, n);
    var calls := CallPaths(trace[..n], PublishActiveObject);
    assert job.active[|calls|] == trace[n].path;
  }

  lemma PushOk<W>(job: Job, ledger: Ledger, trace: Trace, n: nat, stack: seq<Undo<W>>, world: W)
    requires n < |trace| && trace[n].kind.PublishActiveObject?
    requires StackOk(job, ledger, trace[..n], stack) && Distinct(job.active) && RanksAscend(trace)
    requires CallPaths(trace, PublishActiveObject) <= job.active && Touched(ledger, trace[n].path)
    ensures StackOk(job, ledger, trace[..n + 1], stack + [Undo(trace[n].path, world)])
  {
    ActiveCalled(trace, n);
    CallPlanned(job, trace, n);
    OtherOk(job, ledger, trace, n, stack);
    var entry := Undo(trace[n].path, world);
    forall i | 0 <= i < |stack| ensures IndexOf(job.active, stack[i].path) < IndexOf(job.active, entry.path) {
      CallsAhead(job, trace, n, stack[i].path);
    }
    PushEntry(job, ledger, trace[..n + 1], stack, entry);
  }

  /** A recovery addresses the latest effect in force, or none at all. */
  lemma TopOrAbsent<W>(job: Job, ledger: Ledger, trace: Trace, n: nat, stack: seq<Undo<W>>)
    requires n < |trace| && trace[n].kind.RecoverActiveObject?
    requires StackOk(job, ledger, trace[..n], stack) && Distinct(job.active)
    requires CallPaths(trace, RecoverActiveObject) <= Candidates(ledger, job.active)
    ensures OnStack(stack, trace[n].path) ==> OnTop(stack, trace[n].path)
  {
    if OnStack(stack, trace[n].path) {
      var i :| 0 <= i < |stack| && stack[i].path == trace[n].path;
      var done := CallPaths(trace[..n], RecoverActiveObject);
      NextCall(trace, RecoverActiveObject, n);
      assert Candidates(ledger, job.active)[|done|] == trace[n].path;
      if i < |stack| - 1 {
        var top := stack[|stack| - 1].path;
        LaterFirst(ledger, job.active, |done|, IndexOf(job.active, stack[i].path), IndexOf(job.active, top));
      }
    }
  }

  lemma OtherOk<W>(job: Job, ledger: Ledger, trace: Trace, n: nat, stack: seq<Undo<W>>)
    requires n < |trace| && StackOk(job, ledger, trace[..n], stack)
    requires trace[n].kind.RecoverActiveObject? ==> !OnStack(stack, trace[n].path)
    ensures StackOk(job, ledger, trace[..n + 1], stack)
  {
    assert trace[..n + 1] == trace[..n] + [trace[n]];
    CallPathsAppend(trace[..n], trace[n], PublishActiveObject);
    CallPathsAppend(trace[..n], trace[n], RecoverActiveObject);
  }

  /** A lawful call that is not a recovery out of turn keeps the base. */
  lemma BaseKept<W>(seed: Seed, trace: Trace, worlds: seq<W>, k: nat)
    requires k < |trace| < |worlds| && Obeys(seed, trace, worlds, k)
    requires trace[k].kind.RecoverActiveObject? ==>
               && trace[k].outcome.Completed? && Restorable(seed, trace, trace[k].path)
               && (OnStack(InForce(trace, worlds, k), trace[k].path) ==> OnTop(InForce(trace, worlds, k), trace[k].path))
    ensures Base(InForce(trace, worlds, k + 1), worlds[k + 1]) == Base(InForce(trace, worlds, k), worlds[k])
  {
  }

  /** In a clean run unwinding always leads back to the first world. */
  lemma {:induction false} Unwinds<W>(job: Job, seed: Seed, ledger: Ledger, trace: Trace, worlds: seq<W>, n: nat)
    requires CleanRun(job, seed, ledger, trace) && Lawful(seed, trace, worlds) && n <= |trace|
    ensures StackOk(job, ledger, trace[..n], InForce(trace, worlds, n))
    ensures Base(InForce(trace, worlds, n), worlds[n]) == worlds[0]
  {
    if n > 0 {
      var k := n - 1;
      Unwinds(job, seed, ledger, trace, worlds, k);
      assert Obeys(seed, trace, worlds, k);
      var stack := InForce(trace, worlds, k);
      if trace[k].kind.RecoverActiveObject? {
        TopOrAbsent(job, ledger, trace, k, stack);
      }
      BaseKept(seed, trace, worlds, k);
      StackKept(job, ledger, trace, worlds, k);
    }
  }

  lemma StackKept<W>(job: Job, ledger: Ledger, trace: Trace, worlds: seq<W>, k: nat)
    requires k < |trace| < |worlds| && StackOk(job, ledger, trace[..k], InForce(trace, worlds, k))
    requires Distinct(job.active) && RanksAscend(trace) && CallPaths(trace, PublishActiveObject) <= job.active
    requires trace[k].kind.PublishActiveObject? && MayChange(trace[k].outcome) ==> Touched(ledger, trace[k].path)
    requires trace[k].kind.RecoverActiveObject? ==> trace[k].outcome.Completed?
    requires trace[k].kind.RecoverActiveObject? && OnStack(InForce(trace, worlds, k), trace[k].path) ==>
               OnTop(InForce(trace, worlds, k), trace[k].path)
    ensures StackOk(job, ledger, trace[..k + 1], InForce(trace, worlds, k + 1))
  {
    var stack := InForce(trace, worlds, k);
    var call := trace[k];
    if call.kind.PublishActiveObject? && MayChange(call.outcome) {
      PushOk(job, ledger, trace, k, stack, worlds[k]);
    } else if call.kind.RecoverActiveObject? && OnTop(stack, call.path) {
      PopOk(job, ledger, trace, k, stack);
    } else {
      OtherOk(job, ledger, trace, k, stack);
    }
  }

  lemma PopOk<W>(job: Job, ledger: Ledger, trace: Trace, n: nat, stack: seq<Undo<W>>)
    requires n < |trace| && StackOk(job, ledger, trace[..n], stack)
    requires trace[n].kind.RecoverActiveObject? && OnTop(stack, trace[n].path)
    ensures StackOk(job, ledger, trace[..n + 1], stack[..|stack| - 1])
  {
    var rest := stack[..|stack| - 1];
    forall i | 0 <= i < |rest| ensures rest[i].path != trace[n].path {
      assert IndexOf(job.active, stack[i].path) < IndexOf(job.active, stack[|stack| - 1].path);
    }
    OtherOk(job, ledger, trace, n, rest);
  }

  // ---------------------------------------------------------------- what receipts say about the target

  lemma CleanActive(job: Job, ledger: Ledger, trace: Trace, k: nat)
    requires Linked(ledger, trace) && k < |trace| && trace[k].kind.PublishActiveObject? && MayChange(trace[k].outcome)
    ensures Touched(ledger, trace[k].path)
  {
    assert Reports(SlotAt(ledger, trace[k].kind, trace[k].path), trace[k]);
  }

  /** All recoveries are exact and completed. */
  ghost predicate AllUndone(job: Job, seed: Seed, ledger: Ledger) {
    forall p :: p in Candidates(ledger, job.active) ==> Undone(seed, ledger, p)
  }

  lemma RecoveredRun(job: Job, seed: Seed, ledger: Ledger, trace: Trace)
    requires Inv(job, seed, ledger, trace) && AllUndone(job, seed, ledger)
    ensures CleanRun(job, seed, ledger, trace)
    ensures forall p :: p in Candidates(ledger, job.active) ==> p in CallPaths(trace, RecoverActiveObject)
  {
    assert CallPaths(trace, PublishActiveObject) <= Turns(job, ledger, PublishActiveObject);
    assert CallPaths(trace, RecoverActiveObject) <= Turns(job, ledger, RecoverActiveObject);
    forall k | 0 <= k < |trace| && trace[k].kind.RecoverActiveObject?
      ensures trace[k].outcome.Completed? && Restorable(seed, trace, trace[k].path)
    {
      CalledIn(trace, RecoverActiveObject, trace[k].path);
      assert Undone(seed, ledger, trace[k].path);
      ExactRestorable(seed, ledger, trace, trace[k].path);
    }
    forall k | 0 <= k < |trace| && trace[k].kind.PublishActiveObject? && MayChange(trace[k].outcome)
      ensures Touched(ledger, trace[k].path)
    {
      CleanActive(job, ledger, trace, k);
    }
    forall p | p in Candidates(ledger, job.active) ensures p in CallPaths(trace, RecoverActiveObject) {
      assert SlotAt(ledger, RecoverActiveObject, p).Done?;
    }
  }

  /** When every candidate was undone, exactly and in reverse order, the
      target is the admitted one. */
  lemma UndoneRestores<W>(job: Job, seed: Seed, ledger: Ledger, trace: Trace, worlds: seq<W>)
    requires Inv(job, seed, ledger, trace) && AllUndone(job, seed, ledger)
    requires Lawful(seed, trace, worlds)
    ensures worlds[|trace|] == worlds[0]
  {
    RecoveredRun(job, seed, ledger, trace);
    Unwinds(job, seed, ledger, trace, worlds, |trace|);
    assert trace[..|trace|] == trace;
    var stack := InForce(trace, worlds, |trace|);
    if stack != [] {
      CandidatesExact(ledger, job.active, stack[0].path);
    }
  }

  /** A receipt that reports the attempt as fully recovered, or as failed
      before any target mutation, is right about the target. */
  lemma ReceiptRestores<W>(job: Job, seed: Seed, ledger: Ledger, trace: Trace, worlds: seq<W>)
    requires Inv(job, seed, ledger, trace) && Lawful(seed, trace, worlds)
    requires ledger.receipt.Some?
    requires ledger.receipt.value.outcome.FailedFullyRecovered? || ledger.receipt.value.outcome.FailedBeforeTargetMutation?
    ensures worlds[|trace|] == worlds[0]
  {
    UndoneRestores(job, seed, ledger, trace, worlds);
  }

  // ---------------------------------------------------------------- one path at a time

  /** A target as at most one object for each path. */
  type Target = Path -> Option<nat>

  /** Call k stays on its own path, and a completed exact recovery brings back
      the admitted object of the path. */
  ghost predicate StaysLocal(seed: Seed, trace: Trace, worlds: seq<Target>, k: nat)
    requires k < |trace| < |worlds|
  {
    var call := trace[k];
    && (forall q :: q != call.path ==> worlds[k + 1](q) == worlds[k](q))
    && (call.kind.PublishActiveObject? && !MayChange(call.outcome) ==> worlds[k + 1](call.path) == worlds[k](call.path))
    && (call.kind.RecoverActiveObject? && call.outcome.Failed? ==> worlds[k + 1](call.path) == worlds[k](call.path))
    && (call.kind.RecoverActiveObject? && call.outcome.Completed? && Restorable(seed, trace, call.path) ==>
          worlds[k + 1](call.path) == worlds[0](call.path))
    && (!call.kind.PublishActiveObject? && !call.kind.RecoverActiveObject? ==>
          worlds[k + 1](call.path) == worlds[k](call.path))
  }

  ghost predicate LocallyLawful(seed: Seed, trace: Trace, worlds: seq<Target>) {
    && |worlds| == |trace| + 1
    && forall k :: 0 <= k < |trace| ==> StaysLocal(seed, trace, worlds, k)
  }

  /** No call in the given range can have changed the path. */
  ghost predicate Quiet(trace: Trace, p: Path, from: nat, to: nat)
    requires from <= to <= |trace|
  {
    forall k :: from <= k < to && trace[k].path == p ==>
      !trace[k].kind.RecoverActiveObject? && (trace[k].kind.PublishActiveObject? ==> !MayChange(trace[k].outcome))
  }

  lemma {:induction false} QuietKeeps(seed: Seed, trace: Trace, worlds: seq<Target>, p: Path, from: nat, to: nat)
    requires LocallyLawful(seed, trace, worlds) && from <= to <= |trace| && Quiet(trace, p, from, to)
    ensures worlds[to](p) == worlds[from](p)
  {
    if from < to {
      QuietKeeps(seed, trace, worlds, p, from, to - 1);
      assert StaysLocal(seed, trace, worlds, to - 1);
    }
  }

  lemma {:induction false} CalledOnce(trace: Trace, kind: EffectKind, i: nat, j: nat)
    requires i < j < |trace| && trace[i].kind == kind && trace[j].kind == kind
    requires Distinct(CallPaths(trace, kind))
    ensures trace[i].path != trace[j].path
  {
    NextCall(trace, kind, j);
    CalledIn(trace[..j], kind, trace[i].path);
    assert trace[..j][i] == trace[i];
    var calls := CallPaths(trace[..j], kind);
    var a :| 0 <= a < |calls| && calls[a] == trace[i].path;
    assert CallPaths(trace, kind)[a] == calls[a] && CallPaths(trace, kind)[|calls|] == trace[j].path;
  }

  /** A path whose effect never touched the target holds its admitted object. */
  lemma UntouchedKept(job: Job, seed: Seed, ledger: Ledger, trace: Trace, worlds: seq<Target>, p: Path)
    requires Inv(job, seed, ledger, trace) && LocallyLawful(seed, trace, worlds)
    requires !Touched(ledger, p)
    ensures worlds[|trace|](p) == worlds[0](p)
  {
    forall k | 0 <= k < |trace| && trace[k].path == p
      ensures !trace[k].kind.RecoverActiveObject? && (trace[k].kind.PublishActiveObject? ==> !MayChange(trace[k].outcome))
    {
      if trace[k].kind.PublishActiveObject? && MayChange(trace[k].outcome) {
        CleanActive(job, ledger, trace, k);
      }
      if trace[k].kind.RecoverActiveObject? {
        assert Reports(SlotAt(ledger, trace[k].kind, p), trace[k]);
        assert Recorded(ledger, RecoverActiveObject, p).Some?;
        CandidatesExact(ledger, job.active, p);
      }
    }
    QuietKeeps(seed, trace, worlds, p, 0, |trace|);
  }

  /** Nothing happens to a path after its recovery. */
  lemma QuietAfterRecovery(job: Job, ledger: Ledger, trace: Trace, p: Path, k: nat)
    requires JobOk(job) && CallOrder(job, ledger, trace)
    requires k < |trace| && trace[k].kind == RecoverActiveObject && trace[k].path == p
    ensures Quiet(trace, p, k + 1, |trace|)
  {
    OrderDistinct(job, ledger, trace, RecoverActiveObject);
    forall j | k < j < |trace| && trace[j].path == p
      ensures !trace[j].kind.RecoverActiveObject? && !trace[j].kind.PublishActiveObject?
    {
      assert Rank(trace[k].kind) <= Rank(trace[j].kind);
      if trace[j].kind.RecoverActiveObject? {
        CalledOnce(trace, RecoverActiveObject, k, j);
      }
    }
  }

  /** A path whose effect was undone exactly holds its admitted object. */
  lemma UndoneKept(job: Job, seed: Seed, ledger: Ledger, trace: Trace, worlds: seq<Target>, p: Path)
    requires Inv(job, seed, ledger, trace) && LocallyLawful(seed, trace, worlds)
    requires Undone(seed, ledger, p)
    ensures worlds[|trace|](p) == worlds[0](p)
  {
    hide Linked, CapturesHeld, LedgerOk, ActiveShape, RejectedShape, RecoverShape, CallOrder, OnlyDeclared, Truthful, Undone;
    var k := RecoveryCall(seed, ledger, trace, p);
    QuietAfterRecovery(job, ledger, trace, p, k);
    assert StaysLocal(seed, trace, worlds, k);
    QuietKeeps(seed, trace, worlds, p, k + 1, |trace|);
  }

  /** The one call that undid a path: it completed, and exactly. */
  lemma RecoveryCall(seed: Seed, ledger: Ledger, trace: Trace, p: Path) returns (k: nat)
    requires Linked(ledger, trace) && CapturesHeld(ledger, trace) && Undone(seed, ledger, p)
    ensures k < |trace| && trace[k].kind == RecoverActiveObject && trace[k].path == p
    ensures trace[k].outcome.Completed? && Restorable(seed, trace, p)
  {
    ExactRestorable(seed, ledger, trace, p);
    k := ReportedCall(ledger, trace, RecoverActiveObject, p);
  }

  /** The call a terminal event reports. */
  lemma ReportedCall(ledger: Ledger, trace: Trace, kind: EffectKind, p: Path) returns (k: nat)
    requires Linked(ledger, trace) && Mechanism(kind) && SlotAt(ledger, kind, p).Done?
    ensures k < |trace| && trace[k].kind == kind && trace[k].path == p && Recorded(ledger, kind, p) == Some(trace[k].outcome)
  {
    CalledIn(trace, kind, p);
    k :| 0 <= k < |trace| && trace[k].kind == kind && trace[k].path == p;
    assert Reports(SlotAt(ledger, trace[k].kind, p), trace[k]);
  }

  /** What was seen was there: an observation tells whether the path held an
      object in the world it was made in. */
  ghost predicate SeenTruly(worlds: seq<Target>, seen: seq<Observation>) {
    forall o :: o in seen && o.at < |worlds| ==> (o.present <==> worlds[o.at](o.path).Some?)
  }

  /** What a consequence says about its path afterwards holds of the object
      that was there at first and the one that is there now. */
  predicate AfterHolds(after: After, first: Option<nat>, now: Option<nat>) {
    match after
    case AdmittedState => now == first
    case Observed(present) => present <==> now.Some?
    case UnknownState => true
  }

  /** Every path of a receipt is in the state that the receipt records for it
      afterwards, unless it records none. */
  lemma AfterIsTrue(job: Job, seed: Seed, ledger: Ledger, trace: Trace, worlds: seq<Target>, seen: seq<Observation>, c: Consequence)
    requires Inv(job, seed, ledger, trace) && LocallyLawful(seed, trace, worlds) && SeenTruly(worlds, seen)
    requires ledger.receipt.Some? && Witnessed(ledger.receipt.value, trace, seen) && c in ledger.receipt.value.paths
    ensures AfterHolds(c.after, worlds[0](c.path), worlds[|trace|](c.path))
  {
    assert TruthfulPath(job, seed, ledger, c);
    if c.after.Observed? {
      assert Observation(|trace|, c.path, c.after.present) in seen;
    } else if Touched(ledger, c.path) && c.after.AdmittedState? {
      UndoneKept(job, seed, ledger, trace, worlds, c.path);
    } else if c.after.AdmittedState? {
      UntouchedKept(job, seed, ledger, trace, worlds, c.path);
    }
  }

  // ---------------------------------------------------------------- what was called

  /** Rejected publication, active execution and recovery each follow their
      own order: a prefix of the scheduled paths, and for recovery a prefix of
      the candidates the journal determines. */
  lemma CallsInOrder(job: Job, seed: Seed, ledger: Ledger, trace: Trace)
    requires Inv(job, seed, ledger, trace)
    ensures CallPaths(trace, PublishRejectedObject) <= job.rejected
    ensures CallPaths(trace, PublishActiveObject) <= job.active
    ensures CallPaths(trace, RecoverActiveObject) <= Candidates(ledger, job.active)
  {
    assert CallPaths(trace, PublishRejectedObject) <= Turns(job, ledger, PublishRejectedObject);
    assert CallPaths(trace, PublishActiveObject) <= Turns(job, ledger, PublishActiveObject);
    assert CallPaths(trace, RecoverActiveObject) <= Turns(job, ledger, RecoverActiveObject);
  }

  /** No mechanism was called twice on a path. */
  ghost predicate CalledAtMostOnce(trace: Trace) {
    forall i, j :: 0 <= i < j < |trace| && Mechanism(trace[i].kind) && trace[i].kind == trace[j].kind ==>
      trace[i].path != trace[j].path
  }

  /** No mechanism is called twice on a path, and no call of an earlier phase
      follows one of a later phase. */
  lemma CallsAreSafe(job: Job, seed: Seed, ledger: Ledger, trace: Trace)
    requires Inv(job, seed, ledger, trace)
    ensures CalledAtMostOnce(trace) && RanksAscend(trace)
  {
    forall i, j | 0 <= i < j < |trace| && Mechanism(trace[i].kind) && trace[i].kind == trace[j].kind
      ensures trace[i].path != trace[j].path
    {
      OrderDistinct(job, ledger, trace, trace[i].kind);
      CalledOnce(trace, trace[i].kind, i, j);
    }
  }

  lemma OrderDistinct(job: Job, ledger: Ledger, trace: Trace, kind: EffectKind)
    requires JobOk(job) && CallOrder(job, ledger, trace) && Mechanism(kind)
    ensures Distinct(CallPaths(trace, kind))
  {
    TurnsDistinct(job, ledger, kind);
    assert CallPaths(trace, kind) <= Turns(job, ledger, kind);
  }
}
