/** The binary form of journal steps.

    An event keeps its backend evidence as an ascending list without
    repetitions, and reading sorts what it finds.  So a step has one encoding,
    but several byte strings decode to it: one for each order of its evidence.
 */
module StepCodec {
  import opened Wrappers
  import opened Results
  import opened Bytes
  import opened Wire
  import opened CanonicalRecord
  import opened TransportCodec
  import Journal

  const STEP_MAGIC: Magic := [90, 76, 65, 80, 74, 83, 84, 0]
  const STEP_SCHEMA: u16 := 1
  const MAXIMUM_EVIDENCE: nat := 1_000_000

  // The order of identities

  /** Lexicographic order of bytes. */
  predicate Precedes(a: seq<byte>, b: seq<byte>) {
    b != [] && (a == [] || a[0] < b[0] || (a[0] == b[0] && Precedes(a[1..], b[1..])))
  }

  lemma {:induction false} Trichotomy(a: seq<byte>, b: seq<byte>)
    ensures Precedes(a, b) || Precedes(b, a) || a == b
    ensures !(Precedes(a, b) && Precedes(b, a)) && !Precedes(a, a)
    decreases |a| + |b|
  {
    if a != [] && b != [] {
      Trichotomy(a[1..], b[1..]);
      assert a == [a[0]] + a[1..] && b == [b[0]] + b[1..];
    }
    Irreflexive(a);
  }

  lemma {:induction false} Irreflexive(a: seq<byte>)
    ensures !Precedes(a, a)
  {
    if a != [] {
      Irreflexive(a[1..]);
    }
  }

  lemma {:induction false} Transitive(a: seq<byte>, b: seq<byte>, c: seq<byte>)
    requires Precedes(a, b) && Precedes(b, c)
    ensures Precedes(a, c)
  {
    if a != [] && a[0] == b[0] == c[0] {
      Transitive(a[1..], b[1..], c[1..]);
    }
  }

  predicate Ascending(s: seq<Digest>) {
    forall i, j :: 0 <= i < j < |s| ==> Precedes(s[i], s[j])
  }

  function Inserted(d: Digest, s: seq<Digest>): (r: seq<Digest>)
    ensures |r| == |s| + 1 && multiset(r) == multiset(s) + multiset{d}
  {
    if s == [] then [d]
    else
      assert s == [s[0]] + s[1..];
      if Precedes(s[0], d) then [s[0]] + Inserted(d, s[1..]) else [d] + s
  }

  function Sorted(s: seq<Digest>): (r: seq<Digest>)
    ensures |r| == |s| && multiset(r) == multiset(s)
  {
    if s == [] then []
    else
      assert s == [s[0]] + s[1..];
      Inserted(s[0], Sorted(s[1..]))
  }

  /** Sorting any order of an ascending list gives that list. */
  lemma {:induction false} SortedIsUnique(s: seq<Digest>, t: seq<Digest>)
    requires Ascending(t) && multiset(s) == multiset(t)
    ensures Sorted(s) == t
  {
    if s == [] {
      assert |multiset(t)| == 0;
    } else {
      assert s == [s[0]] + s[1..];
      assert s[0] in multiset(t);
      var k :| 0 <= k < |t| && t[k] == s[0];
      var u := t[..k] + t[k + 1..];
      Without(t, k);
      assert multiset(u) == multiset(t) - multiset{t[k]};
      assert multiset(s[1..]) == multiset(s) - multiset{s[0]};
      SortedIsUnique(s[1..], u);
      InsertedBack(t, k);
    }
  }

  lemma Without(t: seq<Digest>, k: nat)
    requires k < |t| && Ascending(t)
    ensures Ascending(t[..k] + t[k + 1..])
    ensures multiset(t) == multiset(t[..k] + t[k + 1..]) + multiset{t[k]}
  {
    assert t == t[..k] + [t[k]] + t[k + 1..];
  }

  lemma {:induction false} InsertedBack(t: seq<Digest>, k: nat)
    requires k < |t| && Ascending(t)
    ensures Inserted(t[k], t[..k] + t[k + 1..]) == t
    decreases k
  {
    var u := t[..k] + t[k + 1..];
    if k == 0 {
      if u != [] {
        assert u[0] == t[1];
        Trichotomy(t[0], t[1]);
      }
      assert t == [t[0]] + u;
    } else {
      var rest := t[1..];
      assert u[0] == t[0] && Precedes(t[0], t[k]);
      assert u[1..] == rest[..k - 1] + rest[k..];
      assert rest[k - 1] == t[k];
      InsertedBack(rest, k - 1);
      assert t == [t[0]] + rest;
    }
  }

  // Writing

  /** What the constructors of an event guarantee. */
  predicate EventFormed(event: Option<EventContent>) {
    event.Some? ==> Ascending(event.value.evidence)
  }

  /** What the constructors of a step guarantee. */
  predicate StepFormed(step: StepContent) {
    && ((step.sequence == 0) == step.predecessor.None?)
    && (step.completed.Some? ==> step.receipt.Some?)
    && EventFormed(step.event)
  }

  function EventFields(e: EventContent): seq<byte> {
    U64(e.sequence) +
    ([EventTag(e.kind)] +
     (Identity(e.effect) +
      (U64(|e.evidence|) + Identities(e.evidence))))
  }

  function EventBytes(event: Option<EventContent>): seq<byte> {
    match event
    case None => Flag(false)
    case Some(e) => Flag(true) + EventFields(e)
  }

  /** The fields of a step from its state on. */
  function StepTail(step: StepContent): seq<byte> {
    [StateTag(step.state)] +
    (EventBytes(step.event) +
     (Text(step.fact) +
      (Optional(step.receipt) + Optional(step.completed))))
  }

  function StepFields(step: StepContent): seq<byte> {
    Identity(step.declaration) +
    (U64(step.sequence) +
     (Optional(step.predecessor) + StepTail(step)))
  }

  function StepBytes(hash: Hash, step: StepContent): seq<byte> {
    Framed(STEP_MAGIC, STEP_SCHEMA, hash(StepRecord(step)), StepFields(step))
  }

  predicate EventFits(event: Option<EventContent>) {
    event.Some? ==> |event.value.evidence| <= MAXIMUM_EVIDENCE
  }

  /** Within the limits of the transport. */
  predicate StepFits(hash: Hash, step: StepContent) {
    EventFits(step.event) && |StepBytes(hash, step)| <= LIMIT
  }

  method AppendEventFields(output: Writer, e: EventContent) returns (r: Result<(), CodecError>)
    requires output.Valid()
    modifies output
    ensures |e.evidence| <= MAXIMUM_EVIDENCE ==> output.Wrote(r, EventFields(e))
    ensures |e.evidence| > MAXIMUM_EVIDENCE ==> r == Err(LimitExceeded)
  {
    var _ :- output.AppendU64(e.sequence);
    var _ :- output.AppendU8(EventTag(e.kind));
    var _ :- output.AppendIdentity(e.effect);
    if |e.evidence| > MAXIMUM_EVIDENCE {
      return Err(LimitExceeded);
    }
    var _ :- output.AppendU64(|e.evidence|);
    var _ :- output.AppendIdentities(e.evidence);
    Regrouped(old(output.bytes), EventFields(e));
    return Ok(());
  }

  method AppendEvent(output: Writer, event: Option<EventContent>) returns (r: Result<(), CodecError>)
    requires output.Valid()
    modifies output
    ensures EventFits(event) ==> output.Wrote(r, EventBytes(event))
    ensures !EventFits(event) ==> r == Err(LimitExceeded)
  {
    var _ :- output.AppendFlag(event.Some?);
    if event.Some? {
      var _ :- AppendEventFields(output, event.value);
    }
    Regrouped(old(output.bytes), EventBytes(event));
    return Ok(());
  }

  method AppendTail(output: Writer, step: StepContent) returns (r: Result<(), CodecError>)
    requires output.Valid()
    modifies output
    ensures EventFits(step.event) ==> output.Wrote(r, StepTail(step))
    ensures !EventFits(step.event) ==> r == Err(LimitExceeded)
  {
    var _ :- output.AppendU8(StateTag(step.state));
    var _ :- AppendEvent(output, step.event);
    var _ :- output.AppendBlob(step.fact);
    var _ :- output.AppendOptional(step.receipt);
    var _ :- output.AppendOptional(step.completed);
    Regrouped(old(output.bytes), StepTail(step));
    return Ok(());
  }

  method AppendStep(output: Writer, step: StepContent) returns (r: Result<(), CodecError>)
    requires output.Valid()
    modifies output
    ensures EventFits(step.event) ==> output.Wrote(r, StepFields(step))
    ensures !EventFits(step.event) ==> r == Err(LimitExceeded)
  {
    var _ :- output.AppendIdentity(step.declaration);
    var _ :- output.AppendU64(step.sequence);
    var _ :- output.AppendOptional(step.predecessor);
    var _ :- AppendTail(output, step);
    Regrouped(old(output.bytes), StepFields(step));
    return Ok(());
  }

  /** Encoding refuses exactly the steps beyond the limits. */
  method EncodeStep(hash: Hash, step: StepContent) returns (r: Result<seq<byte>, CodecError>)
    ensures r == if StepFits(hash, step) then Ok(StepBytes(hash, step)) else Err(LimitExceeded)
  {
    var output := new Writer();
    var identity := IdentifyStep(hash, step);
    ghost var frame := Framed(STEP_MAGIC, STEP_SCHEMA, identity, []);
    FrameFirst(STEP_MAGIC, STEP_SCHEMA, identity, StepFields(step));
    var framed := AppendFrame(output, STEP_MAGIC, STEP_SCHEMA, identity);
    assert framed.Ok? && output.bytes == frame;
    var _ :- AppendStep(output, step);
    return Ok(output.bytes);
  }

  // Reading

  function TakeEventFields(b: seq<byte>): Taken<EventContent> {
    var sequence :- TakeU64(b);
    var kind :- TakeKind(sequence.1);
    var effect :- TakeIdentity(kind.1);
    var count :- TakeU64(effect.1);
    if count.0 > MAXIMUM_EVIDENCE then Err(LimitExceeded)
    else
      var evidence :- TakeIdentities(count.1, count.0);
      IdentitiesRead(count.1, count.0);
      var sorted := Sorted(evidence.0);
      if !Ascending(sorted) then Err(InvalidValue)
      else Ok((EventContent(sequence.0, kind.0, effect.0, sorted), evidence.1))
  }

  function TakeEvent(b: seq<byte>): Taken<Option<EventContent>> {
    var flag :- TakeFlag(b);
    if !flag.0 then Ok((None, flag.1))
    else
      var t :- TakeEventFields(flag.1);
      Ok((Some(t.0), t.1))
  }

  function TakeStep(b: seq<byte>): Taken<StepContent> {
    var declaration :- TakeIdentity(b);
    var sequence :- TakeU64(declaration.1);
    var predecessor :- TakeOptional(sequence.1);
    var state :- TakeState(predecessor.1);
    var event :- TakeEvent(state.1);
    var fact :- TakeText(event.1, LIMIT);
    var receipt :- TakeOptional(fact.1);
    var completed :- TakeOptional(receipt.1);
    Ok((StepContent(declaration.0, sequence.0, predecessor.0, state.0, event.0, fact.0, receipt.0, completed.0), completed.1))
  }

  /** What decoding answers for every byte string. */
  function DecodedStep(hash: Hash, data: seq<byte>): Result<StepContent, CodecError> {
    if |data| > LIMIT then Err(LimitExceeded)
    else
      var expected :- TakeFrame(data, STEP_MAGIC, STEP_SCHEMA);
      var step :- TakeStep(expected.1);
      if step.1 != [] then Err(TrailingData)
      else if (step.0.sequence == 0) != step.0.predecessor.None? then Err(InvalidValue)
      else if step.0.completed.Some? && step.0.receipt.None? then Err(InvalidValue)
      else if hash(StepRecord(step.0)) != expected.0 then Err(IdentityMismatch)
      else Ok(step.0)
  }

  method ReadIdentities(input: Reader, count: nat) returns (r: Result<seq<Digest>, CodecError>)
    requires input.Valid()
    modifies input
    ensures input.Read(r, TakeIdentities(old(input.Rest()), count))
  {
    var digests: seq<Digest> := [];
    var index := 0;
    ghost var rest := input.Rest();
    ghost var all := TakeIdentities(rest, count);
    ContinueNone(rest, count);
    while index < count
      invariant 0 <= index <= count
      invariant input.Valid() && input.Rest() == rest
      invariant Continued(digests, rest, count - index) == all
    {
      ContinueOne(digests, rest, count - index);
      var next := input.ReadIdentity();
      if next.Err? {
        return next.PropagateFailure();
      }
      rest := input.Rest();
      digests := digests + [next.value];
      index := index + 1;
    }
    assert Continued(digests, rest, 0) == Ok((digests + [], rest));
    assert digests + [] == digests;
    return Ok(digests);
  }

  /** All identities, once `done` have been read and `count` are left in `b`. */
  function Continued(done: seq<Digest>, b: seq<byte>, count: nat): Taken<seq<Digest>> {
    var t :- TakeIdentities(b, count);
    Ok((done + t.0, t.1))
  }

  lemma ContinueNone(b: seq<byte>, count: nat)
    ensures Continued([], b, count) == TakeIdentities(b, count)
  {
    var t := TakeIdentities(b, count);
    assert t.Ok? ==> [] + t.value.0 == t.value.0;
  }

  lemma ContinueOne(done: seq<Digest>, b: seq<byte>, count: nat)
    requires count > 0
    ensures TakeIdentity(b).Err? ==> Continued(done, b, count) == Err(TakeIdentity(b).error)
    ensures TakeIdentity(b).Ok? ==>
      var (d, rest) := TakeIdentity(b).value; Continued(done, b, count) == Continued(done + [d], rest, count - 1)
  {
    var t := TakeIdentity(b);
    if t.Ok? {
      var r := TakeIdentities(t.value.1, count - 1);
      assert r.Ok? ==> done + ([t.value.0] + r.value.0) == (done + [t.value.0]) + r.value.0;
    }
  }

  method ReadEventFields(input: Reader) returns (r: Result<EventContent, CodecError>)
    requires input.Valid()
    modifies input
    ensures input.Read(r, TakeEventFields(old(input.Rest())))
  {
    var sequence :- input.ReadU64();
    var kind :- ReadKind(input);
    var effect :- input.ReadIdentity();
    var count :- input.ReadU64();
    if count > MAXIMUM_EVIDENCE {
      return Err(LimitExceeded);
    }
    IdentitiesSize(input.Rest(), count);
    var evidence :- ReadIdentities(input, count);
    var sorted := Sorted(evidence);
    return if !Ascending(sorted) then Err(InvalidValue) else Ok(EventContent(sequence, kind, effect, sorted));
  }

  lemma IdentitiesSize(b: seq<byte>, count: nat)
    ensures TakeIdentities(b, count).Ok? ==> |TakeIdentities(b, count).value.0| == count
  {
    if TakeIdentities(b, count).Ok? {
      IdentitiesRead(b, count);
    }
  }

  method ReadEvent(input: Reader) returns (r: Result<Option<EventContent>, CodecError>)
    requires input.Valid()
    modifies input
    ensures input.Read(r, TakeEvent(old(input.Rest())))
  {
    var present :- input.ReadFlag();
    if !present {
      return Ok(None);
    }
    var event :- ReadEventFields(input);
    return Ok(Some(event));
  }

  method ReadStep(input: Reader) returns (r: Result<StepContent, CodecError>)
    requires input.Valid()
    modifies input
    ensures input.Read(r, TakeStep(old(input.Rest())))
  {
    var declaration :- input.ReadIdentity();
    var sequence :- input.ReadU64();
    var predecessor :- input.ReadOptional();
    var state :- ReadState(input);
    var event :- ReadEvent(input);
    var fact :- input.ReadBlob();
    var receipt :- input.ReadOptional();
    var completed :- input.ReadOptional();
    return Ok(StepContent(declaration, sequence, predecessor, state, event, fact, receipt, completed));
  }

  method DecodeStep(hash: Hash, data: seq<byte>) returns (r: Result<StepContent, CodecError>)
    ensures r == DecodedStep(hash, data)
  {
    if |data| > LIMIT {
      return Err(LimitExceeded);
    }
    var input := new Reader(data);
    var expected :- ReadFrame(input, STEP_MAGIC, STEP_SCHEMA);
    var step :- ReadStep(input);
    if input.offset != |data| {
      return Err(TrailingData);
    }
    if (step.sequence == 0) != step.predecessor.None? {
      return Err(InvalidValue);
    }
    if step.completed.Some? && step.receipt.None? {
      return Err(InvalidValue);
    }
    var identity := IdentifyStep(hash, step);
    return if identity != expected then Err(IdentityMismatch) else Ok(step);
  }

  // Which bytes decode to which step

  /** An event that lists the evidence of `event` in some order. */
  predicate Reordered(event: Option<EventContent>, written: Option<EventContent>) {
    match (event, written)
    case (None, None) => true
    case (Some(e), Some(w)) =>
      w.sequence == e.sequence && w.kind == e.kind && w.effect == e.effect && multiset(w.evidence) == multiset(e.evidence)
    case _ => false
  }

  lemma EventTaken(e: EventContent, w: EventContent, rest: seq<byte>)
    requires Reordered(Some(e), Some(w)) && Ascending(e.evidence) && |e.evidence| <= MAXIMUM_EVIDENCE
    ensures TakeEventFields(EventFields(w) + rest) == Ok((e, rest))
  {
    assert |w.evidence| == |multiset(w.evidence)| == |multiset(e.evidence)| == |e.evidence|;
    var b4 := Identities(w.evidence) + rest;
    var b3 := U64(|w.evidence|) + b4;
    var b2 := Identity(w.effect) + b3;
    var b1 := [EventTag(w.kind)] + b2;
    EventFlat(w, rest);
    U64Exact(EventFields(w) + rest, w.sequence, b1);
    KindExact(b1, w.kind, b2);
    IdentityExact(b2, w.effect, b3);
    U64Exact(b3, |w.evidence|, b4);
    IdentitiesTaken(w.evidence, rest);
    SortedIsUnique(w.evidence, e.evidence);
  }

  /** The fields of an event, each followed by all that comes after it. */
  lemma EventFlat(e: EventContent, rest: seq<byte>)
    ensures EventFields(e) + rest ==
      U64(e.sequence) +
      ([EventTag(e.kind)] + (Identity(e.effect) + (U64(|e.evidence|) + (Identities(e.evidence) + rest))))
  {
    Flat(U64(e.sequence), [EventTag(e.kind)], Identity(e.effect), U64(|e.evidence|), Identities(e.evidence), rest);
  }

  lemma EventRead(b: seq<byte>, e: EventContent, rest: seq<byte>) returns (w: EventContent)
    requires TakeEventFields(b) == Ok((e, rest))
    ensures Reordered(Some(e), Some(w)) && Ascending(e.evidence) && |e.evidence| <= MAXIMUM_EVIDENCE
    ensures b == EventFields(w) + rest
  {
    var b1 := TakeU64(b).value.1;
    var b2 := TakeKind(b1).value.1;
    var b3 := TakeIdentity(b2).value.1;
    var (count, b4) := TakeU64(b3).value;
    IdentitiesRead(b4, count);
    w := EventContent(e.sequence, e.kind, e.effect, TakeIdentities(b4, count).value.0);
    U64Exact(b, e.sequence, b1);
    KindExact(b1, e.kind, b2);
    IdentityExact(b2, e.effect, b3);
    U64Exact(b3, count, b4);
    EventFlat(w, rest);
  }

  lemma OptionalEventTaken(e: Option<EventContent>, w: Option<EventContent>, rest: seq<byte>)
    requires Reordered(e, w) && EventFormed(e) && EventFits(e)
    ensures TakeEvent(EventBytes(w) + rest) == Ok((e, rest))
  {
    match (e, w)
    case (None, None) =>
      FlagExact(EventBytes(w) + rest, false, rest);
    case (Some(x), Some(y)) =>
      assert EventBytes(w) + rest == Flag(true) + (EventFields(y) + rest);
      FlagExact(EventBytes(w) + rest, true, EventFields(y) + rest);
      EventTaken(x, y, rest);
  }

  lemma OptionalEventRead(b: seq<byte>, e: Option<EventContent>, rest: seq<byte>) returns (w: Option<EventContent>)
    requires TakeEvent(b) == Ok((e, rest))
    ensures Reordered(e, w) && EventFormed(e) && EventFits(e)
    ensures b == EventBytes(w) + rest
  {
    var (present, after) := TakeFlag(b).value;
    FlagExact(b, present, after);
    match e
    case None =>
      w := None;
    case Some(x) =>
      var y := EventRead(after, x, rest);
      w := Some(y);
      assert Flag(true) + (EventFields(y) + rest) == (Flag(true) + EventFields(y)) + rest;
  }

  lemma StepTaken(s: StepContent, w: Option<EventContent>)
    requires Reordered(s.event, w) && EventFormed(s.event) && EventFits(s.event) && |s.fact| <= LIMIT
    ensures TakeStep(StepFields(s.(event := w))) == Ok((s, []))
  {
    hide Identity, U64, Optional, Text, EventBytes, StateTag;
    var b8 := Optional(s.completed);
    var b7 := Optional(s.receipt) + b8;
    var b6 := Text(s.fact) + b7;
    var b5 := EventBytes(w) + b6;
    var b4 := [StateTag(s.state)] + b5;
    var b3 := Optional(s.predecessor) + b4;
    var b2 := U64(s.sequence) + b3;
    IdentityExact(StepFields(s.(event := w)), s.declaration, b2);
    U64Exact(b2, s.sequence, b3);
    OptionalExact(b3, s.predecessor, b4);
    StateExact(b4, s.state, b5);
    OptionalEventTaken(s.event, w, b6);
    TextExact(b6, LIMIT, s.fact, b7);
    OptionalExact(b7, s.receipt, b8);
    assert b8 == b8 + [];
    OptionalExact(b8, s.completed, []);
  }

  lemma StepRead(b: seq<byte>, s: StepContent) returns (w: Option<EventContent>)
    requires TakeStep(b) == Ok((s, []))
    ensures Reordered(s.event, w) && EventFormed(s.event) && EventFits(s.event)
    ensures b == StepFields(s.(event := w))
  {
    var b2 := TakeIdentity(b).value.1;
    var b3 := TakeU64(b2).value.1;
    var b4 := TakeOptional(b3).value.1;
    var b5 := TakeState(b4).value.1;
    var b6 := TakeEvent(b5).value.1;
    var b7 := TakeText(b6, LIMIT).value.1;
    var b8 := TakeOptional(b7).value.1;
    w := OptionalEventRead(b5, s.event, b6);
    IdentityExact(b, s.declaration, b2);
    U64Exact(b2, s.sequence, b3);
    OptionalExact(b3, s.predecessor, b4);
    StateExact(b4, s.state, b5);
    TextExact(b6, LIMIT, s.fact, b7);
    OptionalExact(b7, s.receipt, b8);
    OptionalExact(b8, s.completed, []);
    assert b8 == Optional(s.completed) + [] == Optional(s.completed);
  }

  /** The encoding of a step with its evidence written in another order. */
  function Rewritten(hash: Hash, step: StepContent, written: Option<EventContent>): seq<byte> {
    Framed(STEP_MAGIC, STEP_SCHEMA, hash(StepRecord(step)), StepFields(step.(event := written)))
  }

  lemma RewritingDecodes(hash: Hash, step: StepContent, written: Option<EventContent>)
    requires StepFormed(step) && EventFits(step.event) && Reordered(step.event, written)
    requires |Rewritten(hash, step, written)| <= LIMIT
    ensures DecodedStep(hash, Rewritten(hash, step, written)) == Ok(step)
  {
    var fields := StepFields(step.(event := written));
    FrameExact(Rewritten(hash, step, written), STEP_MAGIC, STEP_SCHEMA, hash(StepRecord(step)), fields);
    FactSize(step.(event := written));
    StepTaken(step, written);
  }

  lemma FactSize(step: StepContent)
    ensures |step.fact| <= |StepFields(step)|
  {
  }

  /** Decoding gives back every step within the limits. */
  lemma StepRoundTrip(hash: Hash, step: StepContent)
    requires StepFormed(step) && StepFits(hash, step)
    ensures DecodedStep(hash, StepBytes(hash, step)) == Ok(step)
  {
    assert step.(event := step.event) == step;
    RewritingDecodes(hash, step, step.event);
  }

  lemma StepAccepted(hash: Hash, data: seq<byte>, step: StepContent) returns (fields: seq<byte>)
    requires DecodedStep(hash, data) == Ok(step)
    ensures |data| <= LIMIT && TakeStep(fields) == Ok((step, []))
    ensures (step.sequence == 0) == step.predecessor.None? && (step.completed.Some? ==> step.receipt.Some?)
    ensures TakeFrame(data, STEP_MAGIC, STEP_SCHEMA) == Ok((hash(StepRecord(step)), fields))
  {
    fields := TakeFrame(data, STEP_MAGIC, STEP_SCHEMA).value.1;
  }

  lemma StepDecoded(hash: Hash, data: seq<byte>, step: StepContent) returns (w: Option<EventContent>)
    requires DecodedStep(hash, data) == Ok(step)
    ensures StepFormed(step) && EventFits(step.event) && |data| <= LIMIT
    ensures Reordered(step.event, w) && data == Rewritten(hash, step, w)
  {
    var fields := StepAccepted(hash, data, step);
    FrameExact(data, STEP_MAGIC, STEP_SCHEMA, hash(StepRecord(step)), fields);
    w := StepRead(fields, step);
  }

  /** The bytes that decode to a step are its encodings under the orders of
      its evidence, and no others. */
  lemma StepCodecExact(hash: Hash, data: seq<byte>, step: StepContent)
    ensures DecodedStep(hash, data) == Ok(step) <==>
      && StepFormed(step) && EventFits(step.event) && |data| <= LIMIT
      && exists w :: Reordered(step.event, w) && data == Rewritten(hash, step, w)
  {
    var formed := StepFormed(step) && EventFits(step.event) && |data| <= LIMIT;
    if DecodedStep(hash, data) == Ok(step) {
      var w := StepDecoded(hash, data, step);
    } else if formed {
      forall w | Reordered(step.event, w) ensures data != Rewritten(hash, step, w) {
        if data == Rewritten(hash, step, w) {
          RewritingDecodes(hash, step, w);
        }
      }
    }
  }

  lemma EventFieldsFree(a: EventContent, s: seq<byte>, b: EventContent, t: seq<byte>)
    requires EventFields(a) + s == EventFields(b) + t
    ensures a == b
  {
    EventFlat(a, s);
    EventFlat(b, t);
    var a4, b4 := Identities(a.evidence) + s, Identities(b.evidence) + t;
    var a3, b3 := U64(|a.evidence|) + a4, U64(|b.evidence|) + b4;
    var a2, b2 := Identity(a.effect) + a3, Identity(b.effect) + b3;
    var a1, b1 := [EventTag(a.kind)] + a2, [EventTag(b.kind)] + b2;
    U64Free(a.sequence, a1, b.sequence, b1);
    TagFree(EventTag(a.kind), a2, EventTag(b.kind), b2);
    IdentityFree(a.effect, a3, b.effect, b3);
    U64Free(|a.evidence|, a4, |b.evidence|, b4);
    IdentitiesFree(a.evidence, s, b.evidence, t);
  }

  lemma IdentityFree(a: Digest, s: seq<byte>, b: Digest, t: seq<byte>)
    requires Identity(a) + s == Identity(b) + t
    ensures a == b && s == t
  {
    IdentityExact(Identity(a) + s, a, s);
    IdentityExact(Identity(b) + t, b, t);
  }

  lemma IdentitiesFree(a: seq<Digest>, s: seq<byte>, b: seq<Digest>, t: seq<byte>)
    requires |a| == |b| && Identities(a) + s == Identities(b) + t
    ensures a == b && s == t
  {
    IdentitiesTaken(a, s);
    IdentitiesTaken(b, t);
  }

  /** The fields of a step fix its event. */
  lemma StepFieldsFixEvent(s: StepContent, a: EventContent, b: EventContent)
    requires StepFields(s.(event := Some(a))) == StepFields(s.(event := Some(b)))
    ensures a == b
  {
    var rest := Text(s.fact) + (Optional(s.receipt) + Optional(s.completed));
    var a5, b5 := EventBytes(Some(a)) + rest, EventBytes(Some(b)) + rest;
    var a4, b4 := [StateTag(s.state)] + a5, [StateTag(s.state)] + b5;
    var a3, b3 := Optional(s.predecessor) + a4, Optional(s.predecessor) + b4;
    var a2, b2 := U64(s.sequence) + a3, U64(s.sequence) + b3;
    SplitAt(Identity(s.declaration), a2, Identity(s.declaration), b2);
    SplitAt(U64(s.sequence), a3, U64(s.sequence), b3);
    SplitAt(Optional(s.predecessor), a4, Optional(s.predecessor), b4);
    SplitAt([StateTag(s.state)], a5, [StateTag(s.state)], b5);
    assert a5 == Flag(true) + (EventFields(a) + rest) && b5 == Flag(true) + (EventFields(b) + rest);
    SplitAt(Flag(true), EventFields(a) + rest, Flag(true), EventFields(b) + rest);
    EventFieldsFree(a, rest, b, rest);
  }

  /** An encoding that lists the evidence in another order is not the encoding
      of the step it decodes to. */
  lemma RewritingIsNotCanonical(hash: Hash, step: StepContent, written: EventContent)
    requires step.event.Some? && step.event != Some(written)
    ensures Rewritten(hash, step, Some(written)) != StepBytes(hash, step)
  {
    if Rewritten(hash, step, Some(written)) == StepBytes(hash, step) {
      var identity := hash(StepRecord(step));
      var other := step.(event := Some(written));
      FrameExact(StepBytes(hash, step), STEP_MAGIC, STEP_SCHEMA, identity, StepFields(step));
      FrameExact(StepBytes(hash, step), STEP_MAGIC, STEP_SCHEMA, identity, StepFields(other));
      assert step == step.(event := Some(step.event.value));
      StepFieldsFixEvent(step, step.event.value, written);
    }
  }

  function PairEvent(effect: Digest, a: Digest, b: Digest): EventContent {
    EventContent(0, Journal.Intent, effect, [a, b])
  }

  function PairStep(declaration: Digest, effect: Digest, a: Digest, b: Digest): StepContent {
    StepContent(declaration, 0, None, Journal.Preparing, Some(PairEvent(effect, a, b)), [], None, None)
  }

  /** Unlike for cursors, two byte strings can decode to one step: evidence
      written in descending order is read as ascending. */
  lemma StepBytesAreNotCanonical(hash: Hash, declaration: Digest, effect: Digest, a: Digest, b: Digest)
    requires Precedes(a, b)
    ensures
      var step := PairStep(declaration, effect, a, b);
      var bytes := Rewritten(hash, step, Some(PairEvent(effect, b, a)));
      DecodedStep(hash, bytes) == Ok(step) && bytes != StepBytes(hash, step)
  {
    var step := PairStep(declaration, effect, a, b);
    PairDecodes(hash, declaration, effect, a, b);
    Irreflexive(a);
    assert PairEvent(effect, b, a).evidence[0] != step.event.value.evidence[0];
    RewritingIsNotCanonical(hash, step, PairEvent(effect, b, a));
  }

  lemma PairDecodes(hash: Hash, declaration: Digest, effect: Digest, a: Digest, b: Digest)
    requires Precedes(a, b)
    ensures
      var step := PairStep(declaration, effect, a, b);
      DecodedStep(hash, Rewritten(hash, step, Some(PairEvent(effect, b, a)))) == Ok(step)
  {
    hide StepFields, DecodedStep;
    var step := PairStep(declaration, effect, a, b);
    var written := PairEvent(effect, b, a);
    assert multiset([b, a]) == multiset([a, b]);
    PairSize(declaration, effect, b, a);
    assert step.(event := Some(written)) == PairStep(declaration, effect, b, a);
    RewritingDecodes(hash, step, Some(written));
  }

  lemma PairSize(declaration: Digest, effect: Digest, a: Digest, b: Digest)
    ensures |StepFields(PairStep(declaration, effect, a, b))| <= 10000
  {
    assert [a, b][1..] == [b] && [b][1..] == [];
    assert Identities([]) == [];
    assert |Identities([b])| <= 500;
    assert |Identities([a, b])| <= 1000;
    assert |EventFields(PairEvent(effect, a, b))| <= 2000;
  }
}
