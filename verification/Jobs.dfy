/** What an application is going to do: captures, payload staging, rejected
    publication, the active schedule, and the effect graph that freezes all of
    it in the journal declaration. */
module Jobs {
  import opened Wrappers
  import opened Paths
  import opened Plans
  import opened Journal
  import opened Ledgers
  import opened Schedule

  datatype CaptureRequest = CaptureRequest(path: Path, forRejected: bool, forRecovery: bool)

  datatype Requirement = Requirement(
    path: Path, entry: EntryId, payload: Option<EntryId>, forActive: bool, forRejected: bool)

  /** `stages` are the paths of the regular payload entries. */
  datatype Job = Job(
    plan: Plan,
    control: Control,
    captures: seq<CaptureRequest>,
    selection: seq<EntryId>,
    stages: seq<Path>,
    rejected: seq<Path>,
    active: seq<Path>)

  // ---------------------------------------------------------------- captures

  predicate RecoverySelected(control: Control) {
    !control.recovery.NoRecovery?
  }

  /** Whether the old object may be lost, and so must be captured first. */
  predicate MayDestroyOld(decision: Decision) {
    decision.present && MechanismRequired(decision.active)
  }

  predicate NeedsCapture(decision: Decision, control: Control) {
    decision.rejected.StageOld? || (RecoverySelected(control) && MayDestroyOld(decision))
  }

  function RequestOf(decision: Decision, control: Control): CaptureRequest {
    CaptureRequest(decision.path, decision.rejected.StageOld?, RecoverySelected(control) && MayDestroyOld(decision))
  }

  function CapturesOf(plan: Plan, control: Control): seq<CaptureRequest> {
    if plan == [] then []
    else
      var last := plan[|plan| - 1];
      CapturesOf(plan[..|plan| - 1], control) + (if NeedsCapture(last, control) then [RequestOf(last, control)] else [])
  }

  ghost predicate Capturable(plan: Plan) {
    forall d :: d in plan && d.rejected.StageOld? ==> d.present
  }

  /** Which old objects must be captured before anything is mutated. */
  method PrepareCaptures(plan: Plan, control: Control) returns (r: Option<seq<CaptureRequest>>)
    ensures r == if Capturable(plan) then Some(CapturesOf(plan, control)) else None
  {
    var requests: seq<CaptureRequest> := [];
    for k := 0 to |plan|
      invariant Capturable(plan[..k]) && requests == CapturesOf(plan[..k], control)
    {
      assert plan[..k + 1][..k] == plan[..k];
      var decision := plan[k];
      var forRejected := decision.rejected.StageOld?;
      var forRecovery := RecoverySelected(control) && MayDestroyOld(decision);
      if forRejected && !decision.present {
        assert decision in plan;
        return None;
      }
      if forRejected || forRecovery {
        requests := requests + [CaptureRequest(decision.path, forRejected, forRecovery)];
      }
    }
    assert plan[..|plan|] == plan;
    return Some(requests);
  }

  /** Exactly the decisions that need one have a capture request. */
  lemma {:induction false} CapturesExact(plan: Plan, control: Control, request: CaptureRequest)
    ensures request in CapturesOf(plan, control) <==>
              exists d :: d in plan && NeedsCapture(d, control) && request == RequestOf(d, control)
  {
    if plan != [] {
      var rest, last := plan[..|plan| - 1], plan[|plan| - 1];
      CapturesExact(rest, control, request);
      assert forall d :: d in plan <==> d in rest || d == last;
    }
  }

  function CapturePaths(requests: seq<CaptureRequest>): (paths: seq<Path>)
    ensures |paths| == |requests|
  {
    seq(|requests|, i requires 0 <= i < |requests| => requests[i].path)
  }

  lemma {:induction false} CapturesDistinct(plan: Plan, control: Control)
    requires Canonical(plan)
    ensures Distinct(CapturePaths(CapturesOf(plan, control)))
  {
    if plan != [] {
      var rest, last := plan[..|plan| - 1], plan[|plan| - 1];
      CanonicalDistinct(plan);
      assert PlanPaths(rest) == PlanPaths(plan)[..|rest|];
      CapturesDistinct(rest, control);
      var requests := CapturesOf(rest, control);
      forall i | 0 <= i < |requests| ensures requests[i].path != last.path {
        var request := requests[i];
        CapturesExact(rest, control, request);
        var d :| d in rest && NeedsCapture(d, control) && request == RequestOf(d, control);
        assert request.path == d.path;
      }
      assert CapturePaths(CapturesOf(plan, control)) ==
             CapturePaths(CapturesOf(rest, control)) + (if NeedsCapture(last, control) then [last.path] else []);
    }
  }

  // ---------------------------------------------------------------- payloads

  /** Images are normalized: one entry for each path. */
  ghost predicate Normalized(image: Image) {
    forall a, b :: a in image && b in image && image[a].path == image[b].path ==> a == b
  }

  /** The regular entry whose bytes an entry needs: its own, for a hard link
      those of the regular entry at its target, otherwise none. */
  predicate Needs(image: Image, id: EntryId, payload: Option<EntryId>)
    requires id in image
  {
    match image[id].kind
    case Regular => payload == Some(id)
    case Hardlink =>
      && payload.Some? && payload.value in image && image[payload.value].kind.Regular?
      && image[id].hardlinkTarget == Some(image[payload.value].path)
    case _ => payload.None?
  }

  /** Some entry's bytes, or none, serve the entry. */
  ghost predicate Served(image: Image, id: EntryId)
    requires id in image
  {
    exists payload :: Needs(image, id, payload)
  }

  /** In a normalized image at most one payload serves an entry. */
  lemma NeedsOne(image: Image, id: EntryId, a: Option<EntryId>, b: Option<EntryId>)
    requires Normalized(image) && id in image && Needs(image, id, a) && Needs(image, id, b)
    ensures a == b
  {
  }

  /** Finds the payload of an entry; a hard link without a regular anchor is
      refused. */
  method RegularPayload(image: Image, id: EntryId) returns (r: Result<Option<EntryId>>)
    requires id in image && Normalized(image)
    ensures r.Ok? ==> Needs(image, id, r.value)
    ensures r.Refused? <==> !Served(image, id)
    ensures r.Refused? ==> r.reason.MissingAnchor?
  {
    var entry := image[id];
    match entry.kind
    case Regular =>
      assert Needs(image, id, Some(id));
      return Ok(Some(id));
    case Hardlink =>
      if entry.hardlinkTarget.None? {
        return Refused(MissingAnchor);
      }
      if target :| target in image && image[target].path == entry.hardlinkTarget.value {
        if !image[target].kind.Regular? {
          return Refused(MissingAnchor);
        }
        assert Needs(image, id, Some(target));
        return Ok(Some(target));
      }
      return Refused(MissingAnchor);
    case _ =>
      assert Needs(image, id, None);
      return Ok(None);
  }

  function Insert(x: nat, sorted: seq<nat>): (r: seq<nat>) {
    if sorted == [] then [x]
    else if x < sorted[0] then [x] + sorted
    else if x == sorted[0] then sorted
    else [sorted[0]] + Insert(x, sorted[1..])
  }

  ghost predicate Increasing(s: seq<nat>) {
    forall i, j :: 0 <= i < j < |s| ==> s[i] < s[j]
  }

  lemma {:induction false} InsertSorts(x: nat, sorted: seq<nat>)
    requires Increasing(sorted)
    ensures Increasing(Insert(x, sorted))
    ensures forall y :: y in Insert(x, sorted) <==> y == x || y in sorted
  {
    if sorted != [] && x > sorted[0] {
      InsertSorts(x, sorted[1..]);
      assert sorted == [sorted[0]] + sorted[1..];
      var r := Insert(x, sorted[1..]);
      forall i | 0 <= i < |r| ensures sorted[0] < r[i] {
        assert r[i] in r;
      }
    } else if sorted != [] && x < sorted[0] {
      assert forall y :: y in [x] + sorted <==> y == x || y in sorted;
    }
  }

  predicate NeedsEntry(decision: Decision) {
    decision.active.ActivateIncoming? || decision.rejected.StageIncoming?
  }

  /** The decisions that need an image entry, in plan order. */
  function Incoming(plan: Plan): seq<Decision> {
    if plan == [] then []
    else
      var last := plan[|plan| - 1];
      Incoming(plan[..|plan| - 1]) + (if NeedsEntry(last) then [last] else [])
  }

  lemma {:induction false} IncomingExact(plan: Plan, d: Decision)
    ensures d in Incoming(plan) <==> d in plan && NeedsEntry(d)
  {
    if plan != [] {
      IncomingExact(plan[..|plan| - 1], d);
      assert plan == plan[..|plan| - 1] + [plan[|plan| - 1]];
    }
  }

  /** The requirement is that of the decision, with the payload of its entry. */
  predicate RequiredBy(image: Image, d: Decision, q: Requirement) {
    && q.path == d.path && d.incoming == Some(q.entry) && q.entry in image && image[q.entry].path == d.path
    && q.forActive == d.active.ActivateIncoming? && q.forRejected == d.rejected.StageIncoming?
    && Needs(image, q.entry, q.payload)
  }

  /** The image has what a decision needs. */
  ghost predicate Supplied(image: Image, d: Decision) {
    BoundEntry(d, Some(image)).Ok? && Served(image, d.incoming.value)
  }

  /** The entries whose bytes are required are the selected ones. */
  ghost predicate Selects(requirements: seq<Requirement>, selection: seq<EntryId>) {
    && Increasing(selection)
    && forall id :: id in selection <==> exists q :: q in requirements && q.payload == Some(id)
  }

  lemma SelectsMore(requirements: seq<Requirement>, selection: seq<EntryId>, added: Requirement)
    requires Selects(requirements, selection)
    ensures added.payload.Some? ==> Selects(requirements + [added], Insert(added.payload.value, selection))
    ensures added.payload.None? ==> Selects(requirements + [added], selection)
  {
    assert forall q :: q in requirements + [added] <==> q in requirements || q == added;
    if added.payload.Some? {
      InsertSorts(added.payload.value, selection);
    }
  }

  /** The payload requirements of a plan, one for each decision that needs an
      image entry, and the selection of the regular entries they need, in entry
      order without repetition.  A plan is refused exactly when the image lacks
      something. */
  method PreparePayloads(plan: Plan, image: Image) returns (r: Result<(seq<Requirement>, seq<EntryId>)>)
    requires Normalized(image)
    ensures r.Ok? <==> forall d :: d in plan && NeedsEntry(d) ==> Supplied(image, d)
    ensures r.Ok? ==>
              && |r.value.0| == |Incoming(plan)|
              && (forall i :: 0 <= i < |r.value.0| ==> RequiredBy(image, Incoming(plan)[i], r.value.0[i]))
              && Selects(r.value.0, r.value.1)
              && forall id :: id in r.value.1 ==> id in image && image[id].kind.Regular?
  {
    var requirements: seq<Requirement> := [];
    var selection: seq<EntryId> := [];
    for k := 0 to |plan|
      invariant forall d :: d in plan[..k] && NeedsEntry(d) ==> Supplied(image, d)
      invariant |requirements| == |Incoming(plan[..k])|
      invariant forall i :: 0 <= i < |requirements| ==> RequiredBy(image, Incoming(plan[..k])[i], requirements[i])
      invariant Selects(requirements, selection)
      invariant forall id :: id in selection ==> id in image && image[id].kind.Regular?
    {
      var decision := plan[k];
      assert plan[..k + 1][..k] == plan[..k];
      if NeedsEntry(decision) {
        var bound := BoundEntry(decision, Some(image));
        if bound.Refused? {
          return Refused(bound.reason);
        }
        var payload := RegularPayload(image, decision.incoming.value);
        if payload.Refused? {
          return Refused(payload.reason);
        }
        var added := Requirement(decision.path, decision.incoming.value, payload.value,
                                 decision.active.ActivateIncoming?, decision.rejected.StageIncoming?);
        SelectsMore(requirements, selection, added);
        if payload.value.Some? {
          InsertSorts(payload.value.value, selection);
          selection := Insert(payload.value.value, selection);
        }
        requirements := requirements + [added];
      }
    }
    assert plan[..|plan|] == plan;
    return Ok((requirements, selection));
  }

  // ---------------------------------------------------------------- schedules and effects

  function RejectedPaths(plan: Plan): seq<Path> {
    if plan == [] then []
    else
      var last := plan[|plan| - 1];
      RejectedPaths(plan[..|plan| - 1]) + (if last.rejected.NoRejected? then [] else [last.path])
  }

  lemma {:induction false} RejectedExact(plan: Plan, p: Path)
    ensures p in RejectedPaths(plan) <==> exists d :: d in plan && d.path == p && !d.rejected.NoRejected?
  {
    if plan != [] {
      var rest, last := plan[..|plan| - 1], plan[|plan| - 1];
      RejectedExact(rest, p);
      assert forall d :: d in plan <==> d in rest || d == last;
    }
  }

  lemma {:induction false} RejectedDistinct(plan: Plan)
    requires Canonical(plan)
    ensures Distinct(RejectedPaths(plan))
  {
    if plan != [] {
      var rest, last := plan[..|plan| - 1], plan[|plan| - 1];
      CanonicalDistinct(plan);
      assert PlanPaths(rest) == PlanPaths(plan)[..|rest|];
      RejectedDistinct(rest);
      RejectedExact(rest, last.path);
    }
  }

  function NodePaths(nodes: seq<Node>): (paths: seq<Path>)
    ensures |paths| == |nodes|
  {
    seq(|nodes|, i requires 0 <= i < |nodes| => nodes[i].path)
  }

  function StagePaths(image: Image, selection: seq<EntryId>): (paths: seq<Path>)
    requires forall id :: id in selection ==> id in image
    ensures |paths| == |selection|
  {
    seq(|selection|, i requires 0 <= i < |selection| => image[selection[i]].path)
  }

  function Keys(kind: EffectKind, paths: seq<Path>): (keys: seq<Key>)
    ensures |keys| == |paths|
  {
    seq(|paths|, i requires 0 <= i < |paths| => Key(kind, Some(paths[i])))
  }

  /** The steps of the schedule, in execution order. */
  function Steps(job: Job): seq<Key> {
    Keys(CaptureOldObject, CapturePaths(job.captures))
    + Keys(StageIncomingPayload, job.stages)
    + Keys(PublishRejectedObject, job.rejected)
    + Keys(PublishActiveObject, job.active)
    + Keys(ObserveResult, PlanPaths(job.plan))
  }

  predicate AllDomainsRequired(control: Control) {
    control.durability.AllDomains?
  }

  function Optional(wanted: bool, kinds: seq<EffectKind>): seq<Key> {
    if wanted then seq(|kinds|, i requires 0 <= i < |kinds| => Key(kinds[i], None)) else []
  }

  /** The effects without a path. */
  function Tail(hasIncoming: bool, hasRecovery: bool, hasActive: bool, hasRejected: bool, domains: bool): seq<Key> {
    Optional(hasIncoming, [SynchronizeIncomingStaging])
    + Optional(hasRecovery, [SynchronizeRecoveryStaging])
    + Optional(hasActive && domains, [SynchronizeActiveNamespace, SynchronizeRecoveredNamespace])
    + Optional(hasRejected && domains, [SynchronizeRejectedStore])
    + Optional(true, [PublishCompletedEvidence, SynchronizeCompletedEvidence, SealReceipt])
  }

  function Reversed<T>(items: seq<T>): (r: seq<T>)
    ensures |r| == |items|
    ensures forall k :: 0 <= k < |items| ==> r[k] == items[|items| - 1 - k]
  {
    seq(|items|, k requires 0 <= k < |items| => items[|items| - 1 - k])
  }

  /** The whole frozen effect graph: the schedule, then recovery in the exact
      reverse of the active order, then the effects without a path. */
  function JobKeys(job: Job): seq<Key> {
    Steps(job)
    + Keys(RecoverActiveObject, Reversed(job.active))
    + Tail(job.selection != [], job.captures != [], job.active != [], job.rejected != [], AllDomainsRequired(job.control))
  }

  function EffectsOf(keys: seq<Key>): (effects: seq<Effect>)
    ensures |effects| == |keys|
    ensures forall i :: 0 <= i < |keys| ==> effects[i] == Effect(i, keys[i].kind, keys[i].path)
  {
    seq(|keys|, i requires 0 <= i < |keys| => Effect(i, keys[i].kind, keys[i].path))
  }

  /** The recovery steps of a schedule: its active steps, last first. */
  function RecoverySteps(steps: seq<Key>): seq<Key> {
    if steps == [] then []
    else
      var last := steps[|steps| - 1];
      (if last.kind.PublishActiveObject? then [Key(RecoverActiveObject, last.path)] else [])
      + RecoverySteps(steps[..|steps| - 1])
  }

  method JournalEffects(
      steps: seq<Key>, hasIncoming: bool, hasRecovery: bool, hasActive: bool, hasRejected: bool, domains: bool)
    returns (effects: seq<Effect>)
    ensures effects == EffectsOf(steps + RecoverySteps(steps) + Tail(hasIncoming, hasRecovery, hasActive, hasRejected, domains))
  {
    effects := [];
    for k := 0 to |steps|
      invariant effects == EffectsOf(steps[..k])
    {
      effects := effects + [Effect(|effects|, steps[k].kind, steps[k].path)];
    }
    assert steps[..|steps|] == steps;
    effects := AppendRecovery(effects, steps);
    effects := AppendTail(effects, steps + RecoverySteps(steps), hasIncoming, hasRecovery, hasActive, hasRejected, domains);
  }

  method AppendRecovery(before: seq<Effect>, steps: seq<Key>) returns (effects: seq<Effect>)
    requires before == EffectsOf(steps)
    ensures effects == EffectsOf(steps + RecoverySteps(steps))
  {
    effects := before;
    ghost var recovery: seq<Key> := [];
    assert steps + recovery == steps && steps[..|steps|] == steps;
    for k := |steps| downto 0
      invariant effects == EffectsOf(steps + recovery)
      invariant RecoverySteps(steps) == recovery + RecoverySteps(steps[..k])
    {
      assert steps[..k + 1][..k] == steps[..k];
      if steps[k].kind.PublishActiveObject? {
        effects := effects + [Effect(|effects|, RecoverActiveObject, steps[k].path)];
        recovery := recovery + [Key(RecoverActiveObject, steps[k].path)];
      }
    }
    assert recovery == RecoverySteps(steps);
  }

  method AppendKinds(before: seq<Effect>, ghost keys: seq<Key>, wanted: bool, kinds: seq<EffectKind>)
    returns (effects: seq<Effect>)
    requires before == EffectsOf(keys)
    ensures effects == EffectsOf(keys + Optional(wanted, kinds))
  {
    effects := before;
    if !wanted {
      assert keys + [] == keys;
      return;
    }
    for k := 0 to |kinds|
      invariant effects == EffectsOf(keys + Optional(true, kinds[..k]))
    {
      effects := effects + [Effect(|effects|, kinds[k], None)];
      assert Optional(true, kinds[..k + 1]) == Optional(true, kinds[..k]) + [Key(kinds[k], None)];
      assert keys + Optional(true, kinds[..k + 1]) == keys + Optional(true, kinds[..k]) + [Key(kinds[k], None)];
    }
    assert kinds[..|kinds|] == kinds;
  }

  method AppendTail(
      before: seq<Effect>, ghost keys: seq<Key>, hasIncoming: bool, hasRecovery: bool, hasActive: bool,
      hasRejected: bool, domains: bool) returns (effects: seq<Effect>)
    requires before == EffectsOf(keys)
    ensures effects == EffectsOf(keys + Tail(hasIncoming, hasRecovery, hasActive, hasRejected, domains))
  {
    var a := AppendKinds(before, keys, hasIncoming, [SynchronizeIncomingStaging]);
    ghost var ka := keys + Optional(hasIncoming, [SynchronizeIncomingStaging]);
    var b := AppendKinds(a, ka, hasRecovery, [SynchronizeRecoveryStaging]);
    ghost var kb := ka + Optional(hasRecovery, [SynchronizeRecoveryStaging]);
    var c := AppendKinds(b, kb, hasActive && domains, [SynchronizeActiveNamespace, SynchronizeRecoveredNamespace]);
    ghost var kc := kb + Optional(hasActive && domains, [SynchronizeActiveNamespace, SynchronizeRecoveredNamespace]);
    var d := AppendKinds(c, kc, hasRejected && domains, [SynchronizeRejectedStore]);
    ghost var kd := kc + Optional(hasRejected && domains, [SynchronizeRejectedStore]);
    effects := AppendKinds(d, kd, true, [PublishCompletedEvidence, SynchronizeCompletedEvidence, SealReceipt]);
    Reassociate(keys, Optional(hasIncoming, [SynchronizeIncomingStaging]),
                Optional(hasRecovery, [SynchronizeRecoveryStaging]),
                Optional(hasActive && domains, [SynchronizeActiveNamespace, SynchronizeRecoveredNamespace]),
                Optional(hasRejected && domains, [SynchronizeRejectedStore]),
                Optional(true, [PublishCompletedEvidence, SynchronizeCompletedEvidence, SealReceipt]));
  }

  lemma Reassociate<T>(s: seq<T>, a: seq<T>, b: seq<T>, c: seq<T>, d: seq<T>, e: seq<T>)
    ensures s + a + b + c + d + e == s + (a + b + c + d + e)
  {
  }

  lemma RecoveryOfOneMore(steps: seq<Key>, last: Key)
    ensures RecoverySteps(steps + [last]) ==
            (if last.kind.PublishActiveObject? then [Key(RecoverActiveObject, last.path)] else []) + RecoverySteps(steps)
  {
    assert (steps + [last])[..|steps|] == steps;
  }

  lemma {:induction false} RecoveryAppend(a: seq<Key>, b: seq<Key>)
    ensures RecoverySteps(a + b) == RecoverySteps(b) + RecoverySteps(a)
  {
    if b == [] {
      assert a + b == a;
    } else {
      var rest, last := b[..|b| - 1], b[|b| - 1];
      RecoveryAppend(a, rest);
      RecoveryOfOneMore(a + rest, last);
      RecoveryOfOneMore(rest, last);
      assert rest + [last] == b && a + rest + [last] == a + b;
    }
  }

  lemma ReversedKeys(rest: seq<Path>, last: Path)
    ensures Keys(RecoverActiveObject, Reversed(rest + [last])) ==
            [Key(RecoverActiveObject, Some(last))] + Keys(RecoverActiveObject, Reversed(rest))
  {
    assert Reversed(rest + [last]) == [last] + Reversed(rest);
  }

  lemma {:induction false} RecoveryOf(kind: EffectKind, paths: seq<Path>)
    ensures RecoverySteps(Keys(kind, paths)) == if kind.PublishActiveObject? then Keys(RecoverActiveObject, Reversed(paths)) else []
  {
    if paths != [] {
      var rest, last := paths[..|paths| - 1], paths[|paths| - 1];
      var keys := Keys(kind, paths);
      RecoveryOf(kind, rest);
      assert keys[..|keys| - 1] == Keys(kind, rest) && keys[|keys| - 1] == Key(kind, Some(last));
      if kind.PublishActiveObject? {
        ReversedKeys(rest, last);
        assert rest + [last] == paths;
      }
    }
  }

  /** The declared recovery effects are the exact reverse of the active ones. */
  lemma RecoveryReversed(job: Job)
    ensures RecoverySteps(Steps(job)) == Keys(RecoverActiveObject, Reversed(job.active))
  {
    var a := Keys(CaptureOldObject, CapturePaths(job.captures));
    var b := Keys(StageIncomingPayload, job.stages);
    var c := Keys(PublishRejectedObject, job.rejected);
    var d := Keys(PublishActiveObject, job.active);
    var e := Keys(ObserveResult, PlanPaths(job.plan));
    RecoveryAppend(a, b);
    RecoveryAppend(a + b, c);
    RecoveryAppend(a + b + c, d);
    RecoveryAppend(a + b + c + d, e);
    RecoveryOf(CaptureOldObject, CapturePaths(job.captures));
    RecoveryOf(StageIncomingPayload, job.stages);
    RecoveryOf(PublishRejectedObject, job.rejected);
    RecoveryOf(PublishActiveObject, job.active);
    RecoveryOf(ObserveResult, PlanPaths(job.plan));
  }

  // ---------------------------------------------------------------- well-formed jobs

  ghost predicate MechanismPath(plan: Plan, p: Path) {
    exists d :: d in plan && d.path == p && MechanismRequired(d.active)
  }

  ghost predicate JobOk(job: Job) {
    && Canonical(job.plan) && Capturable(job.plan)
    && job.captures == CapturesOf(job.plan, job.control)
    && |job.stages| == |job.selection| && Distinct(job.stages)
    && job.rejected == RejectedPaths(job.plan)
    && Distinct(job.active)
    && forall p :: p in job.active <==> MechanismPath(job.plan, p)
  }

  /** Which effects a job declares. */
  predicate JobDeclares(job: Job, key: Key) {
    match key.kind
    case CaptureOldObject => key.path.Some? && key.path.value in CapturePaths(job.captures)
    case StageIncomingPayload => key.path.Some? && key.path.value in job.stages
    case PublishActiveObject | RecoverActiveObject => key.path.Some? && key.path.value in job.active
    case PublishRejectedObject => key.path.Some? && key.path.value in job.rejected
    case ObserveResult => key.path.Some? && key.path.value in PlanPaths(job.plan)
    case SynchronizeActiveNamespace | SynchronizeRecoveredNamespace =>
      key.path.None? && job.active != [] && AllDomainsRequired(job.control)
    case SynchronizeRejectedStore => key.path.None? && job.rejected != [] && AllDomainsRequired(job.control)
    case SynchronizeIncomingStaging => key.path.None? && job.selection != []
    case SynchronizeRecoveryStaging => key.path.None? && job.captures != []
    case SealReceipt | SynchronizeCompletedEvidence | PublishCompletedEvidence => key.path.None?
  }

  lemma KeysMember(kind: EffectKind, paths: seq<Path>, key: Key)
    ensures key in Keys(kind, paths) <==> key.kind == kind && key.path.Some? && key.path.value in paths
  {
    if key.kind == kind && key.path.Some? && key.path.value in paths {
      var i :| 0 <= i < |paths| && paths[i] == key.path.value;
      assert Keys(kind, paths)[i] == key;
    }
  }

  lemma ReversedMember<T>(items: seq<T>, x: T)
    ensures x in Reversed(items) <==> x in items
  {
    if x in items {
      var i :| 0 <= i < |items| && items[i] == x;
      assert Reversed(items)[|items| - 1 - i] == x;
    }
  }

  lemma OptionalMember(wanted: bool, kinds: seq<EffectKind>, key: Key)
    ensures key in Optional(wanted, kinds) <==> wanted && key.path.None? && key.kind in kinds
  {
    if wanted && key.path.None? && key.kind in kinds {
      var i :| 0 <= i < |kinds| && kinds[i] == key.kind;
      assert Optional(wanted, kinds)[i] == key;
    }
  }

  lemma TailMember(hasIncoming: bool, hasRecovery: bool, hasActive: bool, hasRejected: bool, domains: bool, key: Key)
    ensures key in Tail(hasIncoming, hasRecovery, hasActive, hasRejected, domains) <==>
              && key.path.None?
              && match key.kind
                 case SynchronizeIncomingStaging => hasIncoming
                 case SynchronizeRecoveryStaging => hasRecovery
                 case SynchronizeActiveNamespace | SynchronizeRecoveredNamespace => hasActive && domains
                 case SynchronizeRejectedStore => hasRejected && domains
                 case SealReceipt | SynchronizeCompletedEvidence | PublishCompletedEvidence => true
                 case _ => false
  {
    OptionalMember(hasIncoming, [SynchronizeIncomingStaging], key);
    OptionalMember(hasRecovery, [SynchronizeRecoveryStaging], key);
    OptionalMember(hasActive && domains, [SynchronizeActiveNamespace, SynchronizeRecoveredNamespace], key);
    OptionalMember(hasRejected && domains, [SynchronizeRejectedStore], key);
    OptionalMember(true, [PublishCompletedEvidence, SynchronizeCompletedEvidence, SealReceipt], key);
  }

  /** The effect graph declares exactly the effects of the job. */
  lemma JobKeysExact(job: Job, key: Key)
    ensures key in JobKeys(job) <==> JobDeclares(job, key)
  {
    hide Reversed, Keys, Tail, CapturePaths;
    KeysMember(CaptureOldObject, CapturePaths(job.captures), key);
    KeysMember(StageIncomingPayload, job.stages, key);
    KeysMember(PublishRejectedObject, job.rejected, key);
    KeysMember(PublishActiveObject, job.active, key);
    KeysMember(ObserveResult, PlanPaths(job.plan), key);
    KeysMember(RecoverActiveObject, Reversed(job.active), key);
    if key.path.Some? {
      ReversedMember(job.active, key.path.value);
    }
    TailMember(job.selection != [], job.captures != [], job.active != [], job.rejected != [],
               AllDomainsRequired(job.control), key);
  }

  lemma DistinctAppend<T(!new)>(a: seq<T>, b: seq<T>)
    requires Distinct(a) && Distinct(b) && forall x :: x in a ==> x !in b
    ensures Distinct(a + b)
  {
    forall i, j | 0 <= i < j < |a + b| ensures (a + b)[i] != (a + b)[j] {
      if i < |a| && j >= |a| {
        assert a[i] in a && b[j - |a|] in b;
      }
    }
  }

  lemma KeysDistinct(kind: EffectKind, paths: seq<Path>)
    requires Distinct(paths)
    ensures Distinct(Keys(kind, paths)) && forall key :: key in Keys(kind, paths) ==> key.kind == kind && key.path.Some?
  {
  }

  lemma TailDistinct(hasIncoming: bool, hasRecovery: bool, hasActive: bool, hasRejected: bool, domains: bool)
    ensures Distinct(Tail(hasIncoming, hasRecovery, hasActive, hasRejected, domains))
    ensures forall key :: key in Tail(hasIncoming, hasRecovery, hasActive, hasRejected, domains) ==> key.path.None?
  {
    var a := Optional(hasIncoming, [SynchronizeIncomingStaging]);
    var b := Optional(hasRecovery, [SynchronizeRecoveryStaging]);
    var c := Optional(hasActive && domains, [SynchronizeActiveNamespace, SynchronizeRecoveredNamespace]);
    var d := Optional(hasRejected && domains, [SynchronizeRejectedStore]);
    var e := Optional(true, [PublishCompletedEvidence, SynchronizeCompletedEvidence, SealReceipt]);
    OptionalDistinct(hasIncoming, [SynchronizeIncomingStaging]);
    OptionalDistinct(hasRecovery, [SynchronizeRecoveryStaging]);
    OptionalDistinct(hasActive && domains, [SynchronizeActiveNamespace, SynchronizeRecoveredNamespace]);
    OptionalDistinct(hasRejected && domains, [SynchronizeRejectedStore]);
    OptionalDistinct(true, [PublishCompletedEvidence, SynchronizeCompletedEvidence, SealReceipt]);
    DistinctAppend(a, b);
    DistinctAppend(a + b, c);
    DistinctAppend(a + b + c, d);
    DistinctAppend(a + b + c + d, e);
  }

  lemma OptionalDistinct(wanted: bool, kinds: seq<EffectKind>)
    requires Distinct(kinds)
    ensures Distinct(Optional(wanted, kinds))
    ensures forall key :: key in Optional(wanted, kinds) ==> key.path.None? && key.kind in kinds
  {
  }

  lemma StepsDistinct(job: Job)
    requires JobOk(job)
    ensures Distinct(Steps(job))
    ensures forall key :: key in Steps(job) ==> key.path.Some? && !key.kind.RecoverActiveObject?
  {
    CapturesDistinct(job.plan, job.control);
    RejectedDistinct(job.plan);
    AscendingDistinct(PlanPaths(job.plan));
    var a := Keys(CaptureOldObject, CapturePaths(job.captures));
    var b := Keys(StageIncomingPayload, job.stages);
    var c := Keys(PublishRejectedObject, job.rejected);
    var d := Keys(PublishActiveObject, job.active);
    var e := Keys(ObserveResult, PlanPaths(job.plan));
    KeysDistinct(CaptureOldObject, CapturePaths(job.captures));
    KeysDistinct(StageIncomingPayload, job.stages);
    KeysDistinct(PublishRejectedObject, job.rejected);
    KeysDistinct(PublishActiveObject, job.active);
    KeysDistinct(ObserveResult, PlanPaths(job.plan));
    DistinctAppend(a, b);
    DistinctAppend(a + b, c);
    DistinctAppend(a + b + c, d);
    DistinctAppend(a + b + c + d, e);
  }

  /** No two declared effects share a kind and a path. */
  lemma JobKeysDistinct(job: Job)
    requires JobOk(job)
    ensures Distinct(JobKeys(job))
    ensures Indexed(EffectsOf(JobKeys(job))) && Consecutive(EffectsOf(JobKeys(job)))
  {
    StepsDistinct(job);
    KeysDistinct(RecoverActiveObject, Reversed(job.active));
    TailDistinct(job.selection != [], job.captures != [], job.active != [], job.rejected != [],
                 AllDomainsRequired(job.control));
    DistinctAppend(Steps(job), Keys(RecoverActiveObject, Reversed(job.active)));
    DistinctAppend(Steps(job) + Keys(RecoverActiveObject, Reversed(job.active)),
                   Tail(job.selection != [], job.captures != [], job.active != [], job.rejected != [],
                        AllDomainsRequired(job.control)));
    var effects := EffectsOf(JobKeys(job));
    assert forall i :: 0 <= i < |effects| ==> KeyOf(effects[i]) == JobKeys(job)[i];
  }

  /** Looks an effect up; the source throws when it is missing or ambiguous. */
  method FindEffect(effects: seq<Effect>, key: Key) returns (found: Option<Effect>)
    ensures found.Some? ==> found.value in effects && KeyOf(found.value) == key
    ensures Indexed(effects) ==> (found.Some? <==> Declared(effects, key))
  {
    found := None;
    for i := 0 to |effects|
      invariant found.None? ==> forall j :: 0 <= j < i ==> KeyOf(effects[j]) != key
      invariant found.Some? ==> exists j :: 0 <= j < i && effects[j] == found.value && KeyOf(found.value) == key
    {
      if KeyOf(effects[i]) == key {
        if found.Some? {
          return None;
        }
        found := Some(effects[i]);
      }
    }
  }

  lemma JobDeclared(job: Job, key: Key)
    ensures Declared(EffectsOf(JobKeys(job)), key) <==> JobDeclares(job, key)
  {
    JobKeysExact(job, key);
    var effects := EffectsOf(JobKeys(job));
    assert forall i :: 0 <= i < |effects| ==> KeyOf(effects[i]) == JobKeys(job)[i];
    if key in JobKeys(job) {
      var i :| 0 <= i < |JobKeys(job)| && JobKeys(job)[i] == key;
      assert KeyOf(effects[i]) == key;
    }
  }

  // ---------------------------------------------------------------- preparing a job

  /** The active order is the schedule of the plan's active nodes. */
  ghost predicate ScheduledFrom(job: Job, image: Option<Image>) {
    && NodesOf(job.plan, image).Ok?
    && exists order ::
         && Schedules(image.Some?, NodeSet(NodesOf(job.plan, image).value), order)
         && job.active == NodePaths(order)
  }

  lemma ScheduledDistinct(plan: Plan, image: Option<Image>, order: seq<Node>)
    requires Canonical(plan) && NodesOf(plan, image).Ok?
    requires Schedules(image.Some?, NodeSet(NodesOf(plan, image).value), order)
    ensures Distinct(NodePaths(order))
  {
    var nodes := NodesOf(plan, image).value;
    NodesDistinct(plan, image);
    LeastFirstDistinct(image.Some?, NodeSet(nodes), order);
    forall i, j | 0 <= i < j < |order| ensures order[i].path != order[j].path {
      assert order[i] in NodeSet(order) && order[j] in NodeSet(order);
      var a: nat :| a < |nodes| && nodes[a] == order[i];
      var b: nat :| b < |nodes| && nodes[b] == order[j];
      DistinctIndices(nodes, a, b);
    }
  }

  lemma ScheduledPath(plan: Plan, image: Option<Image>, order: seq<Node>, p: Path)
    requires NodesOf(plan, image).Ok? && NodeSet(order) == NodeSet(NodesOf(plan, image).value)
    ensures p in NodePaths(order) <==> MechanismPath(plan, p)
  {
    if p in NodePaths(order) {
      var i :| 0 <= i < |order| && order[i].path == p;
      assert order[i] in NodeSet(order);
      NodesAreDecisions(plan, image, order[i]);
    }
    if MechanismPath(plan, p) {
      var d :| d in plan && d.path == p && MechanismRequired(d.active);
      BoundNode(plan, image, d);
      var n := NodeOf(d, image).value;
      assert n in NodeSet(order);
      var i :| 0 <= i < |order| && order[i] == n;
      assert NodePaths(order)[i] == p;
    }
  }

  lemma {:induction false} BoundNode(plan: Plan, image: Option<Image>, d: Decision)
    requires NodesOf(plan, image).Ok? && d in plan && MechanismRequired(d.active)
    ensures NodeOf(d, image).Ok? && NodeOf(d, image).value in NodesOf(plan, image).value
  {
    var rest, last := plan[..|plan| - 1], plan[|plan| - 1];
    assert plan == rest + [last];
    if d != last {
      BoundNode(rest, image, d);
    }
  }

  /** What the plan asks for can be prepared: the image has all entries and
      payloads, no absent object has to be kept, every node is bound, anchors
      are there, and the order has no cycle. */
  ghost predicate Preparable(plan: Plan, image: Option<Image>) {
    && (image.Some? ==> forall d :: d in plan && NeedsEntry(d) ==> Supplied(image.value, d))
    && Capturable(plan)
    && NodesOf(plan, image).Ok?
    && (image.Some? ==> AnchorsPresent(NodesOf(plan, image).value))
    && !HasCycle(EdgeSets(NodesOf(plan, image).value, image.Some?))
  }

  /** An entry is selected when some decision of the plan needs its bytes. */
  ghost predicate NeededBy(plan: Plan, image: Image, id: EntryId) {
    exists d :: d in plan && NeedsEntry(d) && BoundEntry(d, Some(image)).Ok? && Needs(image, d.incoming.value, Some(id))
  }

  /** The payload selection of a job is what its plan needs of the image. */
  ghost predicate SelectedFrom(job: Job, image: Option<Image>) {
    && (image.None? ==> job.selection == [] && job.stages == [])
    && (image.Some? ==>
          && Increasing(job.selection)
          && (forall id :: id in job.selection <==> NeededBy(job.plan, image.value, id))
          && (forall id :: id in job.selection ==> id in image.value)
          && job.stages == StagePaths(image.value, job.selection))
  }

  lemma SelectionGiven(plan: Plan, image: Image, requirements: seq<Requirement>, selection: seq<EntryId>)
    requires |requirements| == |Incoming(plan)| && Selects(requirements, selection) && Normalized(image)
    requires forall i :: 0 <= i < |requirements| ==> RequiredBy(image, Incoming(plan)[i], requirements[i])
    ensures forall id :: id in selection <==> NeededBy(plan, image, id)
  {
    forall id ensures id in selection <==> NeededBy(plan, image, id) {
      if id in selection {
        var q :| q in requirements && q.payload == Some(id);
        var i :| 0 <= i < |requirements| && requirements[i] == q;
        IncomingExact(plan, Incoming(plan)[i]);
      }
      if NeededBy(plan, image, id) {
        var d :| d in plan && NeedsEntry(d) && BoundEntry(d, Some(image)).Ok? && Needs(image, d.incoming.value, Some(id));
        IncomingExact(plan, d);
        var i :| 0 <= i < |Incoming(plan)| && Incoming(plan)[i] == d;
        NeedsOne(image, d.incoming.value, Some(id), requirements[i].payload);
        assert requirements[i] in requirements;
      }
    }
  }

  /** Freezes the whole job before anything happens: payload closure,
      captures, and the active schedule; each may refuse the plan. */
  method PrepareJob(plan: Plan, image: Option<Image>, control: Control) returns (r: Result<Job>)
    requires Canonical(plan) && (image.Some? ==> Normalized(image.value))
    ensures r.Ok? ==> JobOk(r.value) && r.value.plan == plan && r.value.control == control
    ensures r.Ok? ==> ScheduledFrom(r.value, image)
    ensures r.Ok? <==> Preparable(plan, image)
    ensures r.Ok? ==> SelectedFrom(r.value, image)
  {
    var selection: seq<EntryId> := [];
    if image.Some? {
      var payloads := PreparePayloads(plan, image.value);
      if payloads.Refused? {
        return Refused(payloads.reason);
      }
      selection := payloads.value.1;
      SelectionGiven(plan, image.value, payloads.value.0, selection);
    }
    var captures := PrepareCaptures(plan, control);
    if captures.None? {
      return Refused(MissingOldObject);
    }
    var nodes := ActiveNodes(plan, image);
    if nodes.Refused? {
      return Refused(nodes.reason);
    }
    var order := OrderActiveNodes(nodes.value, image.Some?);
    if order.Refused? {
      return Refused(order.reason);
    }
    NodesDistinct(plan, image);
    ScheduledDistinct(plan, image, order.value);
    forall p ensures p in NodePaths(order.value) <==> MechanismPath(plan, p) {
      ScheduledPath(plan, image, order.value, p);
    }
    var stages := if image.Some? then StagePaths(image.value, selection) else [];
    assert Distinct(stages) by {
      if image.Some? {
        forall i, j | 0 <= i < j < |stages| ensures stages[i] != stages[j] {
          assert selection[i] in selection && selection[j] in selection;
        }
      }
    }
    return Ok(Job(plan, control, captures.value, selection, stages, RejectedPaths(plan), NodePaths(order.value)));
  }

  /** The declaration of a job: its effect graph, with every lookup unique. */
  lemma DeclarationLookups(job: Job, declaration: Declaration)
    requires JobOk(job) && declaration.effects == EffectsOf(JobKeys(job))
    ensures Consecutive(declaration.effects) && Indexed(declaration.effects)
    ensures forall key :: Declared(declaration.effects, key) <==> JobDeclares(job, key)
  {
    JobKeysDistinct(job);
    forall key ensures Declared(declaration.effects, key) <==> JobDeclares(job, key) {
      JobDeclared(job, key);
    }
  }
}
