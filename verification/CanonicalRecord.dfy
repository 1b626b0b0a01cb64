/** The byte records whose SHA-256 digests identify effects, declarations,
    steps and cursors.

    The digest is a parameter `hash`.  No property here needs it to be
    injective everywhere, which no function onto 32 bytes is: the chain
    theorem asks only that it has no collision among the records of the two
    journals compared.
 */
module CanonicalRecord {
  import opened Wrappers
  import opened Bytes
  import Journal

  type Hash = seq<byte> -> Digest

  /** A list whose length the source can represent. */
  type Evidence = e: seq<Digest> | |e| < 0x1_0000_0000_0000_0000

  datatype EffectContent = EffectContent(ordinal: u64, kind: Journal.EffectKind, path: Option<Buffer>)

  type Effects = e: seq<EffectContent> | |e| < 0x1_0000_0000_0000_0000

  datatype DeclarationContent = DeclarationContent(header: Digest, effects: Effects, seed: Buffer)

  datatype EventContent = EventContent(sequence: u64, kind: Journal.EventKind, effect: Digest, evidence: Evidence)

  datatype StepContent = StepContent(
    declaration: Digest,
    sequence: u64,
    predecessor: Option<Digest>,
    state: Journal.State,
    event: Option<EventContent>,
    fact: Buffer,
    receipt: Option<Digest>,
    completed: Option<Digest>)

  datatype CursorContent = CursorContent(
    declaration: Digest,
    stepCount: u64,
    latest: Option<Digest>,
    state: Journal.State,
    receipt: Option<Digest>,
    completed: Option<Digest>)

  // The fields of a record

  const MAGIC: seq<byte> := [90, 76, 65, 80, 80, 76, 89, 0]
  const ENCODING_VERSION: u16 := 1
  const SCHEMA_VERSION: u16 := 1
  const SHA256: byte := 1

  const EFFECT_DOMAIN: string := "pkgapply/application-journal-effect/v1"
  const DECLARATION_DOMAIN: string := "pkgapply/application-journal-declaration/v1"
  const STEP_DOMAIN: string := "pkgapply/application-journal-step/v1"
  const CURSOR_DOMAIN: string := "pkgapply/application-journal-cursor/v1"

  predicate IsDomain(domain: string) {
    domain in [EFFECT_DOMAIN, DECLARATION_DOMAIN, STEP_DOMAIN, CURSOR_DOMAIN]
  }

  function Ascii(text: string): (s: seq<byte>)
    ensures |s| == |text|
  {
    seq(|text|, i requires 0 <= i < |text| => text[i] as int % 256)
  }

  function StateTag(state: Journal.State): byte {
    match state
    case Preparing => 1
    case Prepared => 2
    case Mutating => 3
    case EffectsVisible => 4
    case ResultObserved => 5
    case ApplicationCompleted => 6
    case ExternalResolutionPending => 7
    case Recovering => 8
    case Recovered => 9
    case Finalized => 10
    case Abandoned => 11
    case StateIndeterminate => 12
    case RecoveryPending => 13
  }

  function EventTag(kind: Journal.EventKind): byte {
    match kind
    case Intent => 1
    case EventCompleted => 2
    case EventFailed => 3
    case EventIndeterminate => 4
  }

  function EffectTag(kind: Journal.EffectKind): byte {
    match kind
    case CaptureOldObject => 1
    case StageIncomingPayload => 2
    case PublishActiveObject => 3
    case PublishRejectedObject => 4
    case ObserveResult => 5
    case SynchronizeActiveNamespace => 7
    case SynchronizeRejectedStore => 8
    case SealReceipt => 9
    case SynchronizeIncomingStaging => 10
    case SynchronizeRecoveryStaging => 11
    case SynchronizeCompletedEvidence => 12
    case RecoverActiveObject => 13
    case SynchronizeRecoveredNamespace => 14
    case PublishCompletedEvidence => 15
  }

  function DigestField(digest: Digest): (s: seq<byte>)
    ensures |s| == 1 + DIGEST_SIZE
  {
    [SHA256] + digest
  }

  function OptionalDigest(digest: Option<Digest>): seq<byte> {
    match digest
    case None => Flag(false)
    case Some(d) => Flag(true) + DigestField(d)
  }

  function OptionalText(text: Option<Buffer>): seq<byte> {
    match text
    case None => Flag(false)
    case Some(t) => Flag(true) + Text(t)
  }

  function Digests(digests: seq<Digest>): seq<byte> {
    if digests == [] then [] else DigestField(digests[0]) + Digests(digests[1..])
  }

  function EventField(event: Option<EventContent>): seq<byte> {
    match event
    case None => Flag(false)
    case Some(e) =>
      Flag(true) +
      (U64(e.sequence) +
       ([EventTag(e.kind)] +
        (DigestField(e.effect) +
         (U64(|e.evidence|) + Digests(e.evidence)))))
  }

  function Record(domain: string, body: seq<byte>): seq<byte>
    requires IsDomain(domain)
  {
    MAGIC + (U16(ENCODING_VERSION) + (Text(Ascii(domain)) + (U16(SCHEMA_VERSION) + body)))
  }

  function EffectBody(effect: EffectContent): seq<byte> {
    U64(effect.ordinal) + ([EffectTag(effect.kind)] + OptionalText(effect.path))
  }

  function EffectIdentity(hash: Hash, effect: EffectContent): Digest {
    hash(Record(EFFECT_DOMAIN, EffectBody(effect)))
  }

  function EffectIdentities(hash: Hash, effects: seq<EffectContent>): (s: seq<Digest>)
    ensures |s| == |effects|
  {
    seq(|effects|, i requires 0 <= i < |effects| => EffectIdentity(hash, effects[i]))
  }

  function DeclarationBody(hash: Hash, declaration: DeclarationContent): seq<byte> {
    DigestField(declaration.header) +
    (U64(|declaration.effects|) +
     (Digests(EffectIdentities(hash, declaration.effects)) +
      (U64(|declaration.seed|) + Text(declaration.seed))))
  }

  function StepBody(step: StepContent): seq<byte> {
    DigestField(step.declaration) +
    (U64(step.sequence) +
     (OptionalDigest(step.predecessor) +
      ([StateTag(step.state)] + StepTail(step))))
  }

  function CursorBody(cursor: CursorContent): seq<byte> {
    DigestField(cursor.declaration) +
    (U64(cursor.stepCount) +
     (OptionalDigest(cursor.latest) +
      ([StateTag(cursor.state)] +
       (OptionalDigest(cursor.receipt) + OptionalDigest(cursor.completed)))))
  }

  function EffectRecord(effect: EffectContent): seq<byte> {
    Record(EFFECT_DOMAIN, EffectBody(effect))
  }

  function DeclarationRecord(hash: Hash, declaration: DeclarationContent): seq<byte> {
    Record(DECLARATION_DOMAIN, DeclarationBody(hash, declaration))
  }

  function StepRecord(step: StepContent): seq<byte> {
    Record(STEP_DOMAIN, StepBody(step))
  }

  function CursorRecord(cursor: CursorContent): seq<byte> {
    Record(CURSOR_DOMAIN, CursorBody(cursor))
  }

  // Building a record field by field

  /** The record buffer.  `Extended(s)` says that `s` was appended, and how
      that reads from the other end: whatever still follows the buffer used to
      follow `s`. */
  class RecordBuffer {
    var bytes: seq<byte>

    twostate predicate Extended(s: seq<byte>)
      reads this
    {
      && bytes == old(bytes) + s
      && (forall rest: seq<byte> {:trigger s + rest} :: old(bytes) + (s + rest) == bytes + rest)
    }

    constructor (domain: string)
      requires IsDomain(domain)
      ensures bytes == MAGIC + (U16(ENCODING_VERSION) + Text(Ascii(domain)))
    {
      bytes := MAGIC;
      new;
      AppendU16(ENCODING_VERSION);
      AppendBytes(Ascii(domain));
    }

    method AppendU8(value: byte)
      modifies this
      ensures Extended([value])
    {
      bytes := bytes + [value];
      Regrouped(old(bytes), [value]);
    }

    method AppendU16(value: u16)
      modifies this
      ensures Extended(U16(value))
    {
      AppendU8(value / 256 % 256);
      AppendU8(value % 256);
      assert U16(value) == [value / 256 % 256] + [value % 256] by {
        assert BigEndian(value, 2) == BigEndian(value / 256, 1) + [value % 256];
        assert BigEndian(value / 256, 1) == BigEndian(value / 256 / 256, 0) + [value / 256 % 256];
      }
      Regrouped(old(bytes), U16(value));
    }

    method AppendU64(value: u64)
      modifies this
      ensures Extended(U64(value))
    {
      var shift := 8;
      while shift > 0
        invariant 0 <= shift <= 8
        invariant bytes == old(bytes) + BigEndian(Shifted(value, shift), 8 - shift)
      {
        shift := shift - 1;
        EmitByte(value, shift, 7 - shift);
        AppendU8(Shifted(value, shift) % 256);
      }
      Regrouped(old(bytes), U64(value));
    }

    method AppendBool(value: bool)
      modifies this
      ensures Extended(Flag(value))
    {
      AppendU8(if value then 1 else 0);
    }

    method AppendBytes(value: Buffer)
      modifies this
      ensures Extended(Text(value))
    {
      AppendU64(|value|);
      var index := 0;
      while index < |value|
        invariant 0 <= index <= |value|
        invariant bytes == old(bytes) + (U64(|value|) + value[..index])
      {
        bytes := bytes + [value[index]];
        index := index + 1;
        assert value[..index] == value[..index - 1] + [value[index - 1]];
      }
      assert value[..index] == value;
      Regrouped(old(bytes), Text(value));
    }

    method AppendDigest(value: Digest)
      modifies this
      ensures Extended(DigestField(value))
    {
      AppendU8(SHA256);
      bytes := bytes + value;
      Regrouped(old(bytes), DigestField(value));
    }

    method AppendOptionalDigest(value: Option<Digest>)
      modifies this
      ensures Extended(OptionalDigest(value))
    {
      AppendBool(value.Some?);
      if value.Some? {
        AppendDigest(value.value);
      }
      Regrouped(old(bytes), OptionalDigest(value));
    }

    method AppendDigests(values: seq<Digest>)
      modifies this
      ensures Extended(Digests(values))
    {
      var index := 0;
      while index < |values|
        invariant 0 <= index <= |values|
        invariant bytes + Digests(values[index..]) == old(bytes) + Digests(values)
      {
        label Next:
        assert values[index..][1..] == values[index + 1..];
        AppendDigest(values[index]);
        assert DigestField(values[index]) + Digests(values[index + 1..]) == Digests(values[index..]);
        index := index + 1;
      }
      assert bytes == bytes + Digests(values[index..]);
      Regrouped(old(bytes), Digests(values));
    }

    method AppendEvent(event: Option<EventContent>)
      modifies this
      ensures Extended(EventField(event))
    {
      AppendBool(event.Some?);
      if event.Some? {
        var e := event.value;
        AppendU64(e.sequence);
        AppendU8(EventTag(e.kind));
        AppendDigest(e.effect);
        AppendU64(|e.evidence|);
        AppendDigests(e.evidence);
      }
      Regrouped(old(bytes), EventField(event));
    }
  }

  /** A record of a kind, up to its schema version: what follows is the body. */
  method OpenRecord(domain: string) returns (record: RecordBuffer)
    requires IsDomain(domain)
    ensures fresh(record)
    ensures forall body: seq<byte> {:trigger Record(domain, body)} :: record.bytes + body == Record(domain, body)
  {
    record := new RecordBuffer(domain);
    record.AppendU16(SCHEMA_VERSION);
    forall body: seq<byte> ensures record.bytes + body == Record(domain, body) {
      RecordFlat(domain, body);
    }
  }

  lemma RecordFlat(domain: string, body: seq<byte>)
    requires IsDomain(domain)
    ensures (MAGIC + (U16(ENCODING_VERSION) + Text(Ascii(domain)))) + U16(SCHEMA_VERSION) + body == Record(domain, body)
  {
    var s := U16(SCHEMA_VERSION) + body;
    var t := Text(Ascii(domain));
    assert (t + U16(SCHEMA_VERSION)) + body == t + s;
    assert (U16(ENCODING_VERSION) + t) + s == U16(ENCODING_VERSION) + (t + s);
  }

  method AppendEffectBody(record: RecordBuffer, effect: EffectContent)
    modifies record
    ensures record.bytes == old(record.bytes) + EffectBody(effect)
  {
    record.AppendU64(effect.ordinal);
    record.AppendU8(EffectTag(effect.kind));
    record.AppendBool(effect.path.Some?);
    if effect.path.Some? {
      record.AppendBytes(effect.path.value);
    }
  }

  method IdentifyEffect(hash: Hash, effect: EffectContent) returns (identity: Digest)
    ensures identity == hash(EffectRecord(effect))
  {
    var record := OpenRecord(EFFECT_DOMAIN);
    AppendEffectBody(record, effect);
    return hash(record.bytes);
  }

  method AppendDeclarationBody(hash: Hash, record: RecordBuffer, declaration: DeclarationContent)
    modifies record
    ensures record.bytes == old(record.bytes) + DeclarationBody(hash, declaration)
  {
    var identities := EffectIdentities(hash, declaration.effects);
    record.AppendDigest(declaration.header);
    record.AppendU64(|identities|);
    record.AppendDigests(identities);
    record.AppendU64(|declaration.seed|);
    record.AppendBytes(declaration.seed);
  }

  method IdentifyDeclaration(hash: Hash, declaration: DeclarationContent) returns (identity: Digest)
    ensures identity == hash(DeclarationRecord(hash, declaration))
  {
    var record := OpenRecord(DECLARATION_DOMAIN);
    AppendDeclarationBody(hash, record, declaration);
    return hash(record.bytes);
  }

  /** The fields of a step from its event on. */
  function StepTail(step: StepContent): seq<byte> {
    EventField(step.event) +
    (U64(|step.fact|) +
     (Text(step.fact) +
      (OptionalDigest(step.receipt) + OptionalDigest(step.completed))))
  }

  method AppendStepTail(record: RecordBuffer, step: StepContent)
    modifies record
    ensures record.Extended(StepTail(step))
  {
    record.AppendEvent(step.event);
    record.AppendU64(|step.fact|);
    record.AppendBytes(step.fact);
    record.AppendOptionalDigest(step.receipt);
    record.AppendOptionalDigest(step.completed);
    Regrouped(old(record.bytes), StepTail(step));
  }

  method AppendStepBody(record: RecordBuffer, step: StepContent)
    modifies record
    ensures record.bytes == old(record.bytes) + StepBody(step)
  {
    record.AppendDigest(step.declaration);
    record.AppendU64(step.sequence);
    record.AppendOptionalDigest(step.predecessor);
    record.AppendU8(StateTag(step.state));
    AppendStepTail(record, step);
  }

  method IdentifyStep(hash: Hash, step: StepContent) returns (identity: Digest)
    ensures identity == hash(StepRecord(step))
  {
    var record := OpenRecord(STEP_DOMAIN);
    AppendStepBody(record, step);
    return hash(record.bytes);
  }

  method AppendCursorBody(record: RecordBuffer, cursor: CursorContent)
    modifies record
    ensures record.bytes == old(record.bytes) + CursorBody(cursor)
  {
    record.AppendDigest(cursor.declaration);
    record.AppendU64(cursor.stepCount);
    record.AppendOptionalDigest(cursor.latest);
    record.AppendU8(StateTag(cursor.state));
    record.AppendOptionalDigest(cursor.receipt);
    record.AppendOptionalDigest(cursor.completed);
  }

  method IdentifyCursor(hash: Hash, cursor: CursorContent) returns (identity: Digest)
    ensures identity == hash(CursorRecord(cursor))
  {
    var record := OpenRecord(CURSOR_DOMAIN);
    AppendCursorBody(record, cursor);
    return hash(record.bytes);
  }

  // No field can be mistaken for another value of that field, whatever follows it

  lemma U64Free(a: u64, s: seq<byte>, b: u64, t: seq<byte>)
    requires U64(a) + s == U64(b) + t
    ensures a == b && s == t
  {
    SplitAt(U64(a), s, U64(b), t);
    Powers();
    NumberOfBigEndian(a, 8);
    NumberOfBigEndian(b, 8);
  }

  lemma TextFree(a: Buffer, s: seq<byte>, b: Buffer, t: seq<byte>)
    requires Text(a) + s == Text(b) + t
    ensures a == b && s == t
  {
    Regrouped(U64(|a|), a);
    Regrouped(U64(|b|), b);
    assert U64(|a|) + (a + s) == U64(|b|) + (b + t) by {
      assert U64(|a|) + (a + s) == Text(a) + s;
      assert U64(|b|) + (b + t) == Text(b) + t;
    }
    U64Free(|a|, a + s, |b|, b + t);
    SplitAt(a, s, b, t);
  }

  lemma DigestFree(a: Digest, s: seq<byte>, b: Digest, t: seq<byte>)
    requires DigestField(a) + s == DigestField(b) + t
    ensures a == b && s == t
  {
    SplitAt(DigestField(a), s, DigestField(b), t);
    SplitAt([SHA256], a, [SHA256], b);
  }

  lemma TagFree(a: byte, s: seq<byte>, b: byte, t: seq<byte>)
    requires [a] + s == [b] + t
    ensures a == b && s == t
  {
    SplitAt([a], s, [b], t);
  }

  lemma OptionalDigestFree(a: Option<Digest>, s: seq<byte>, b: Option<Digest>, t: seq<byte>)
    requires OptionalDigest(a) + s == OptionalDigest(b) + t
    ensures a == b && s == t
  {
    assert (OptionalDigest(a) + s)[0] == if a.Some? then 1 else 0;
    assert (OptionalDigest(b) + t)[0] == if b.Some? then 1 else 0;
    if a.None? {
      SplitAt(Flag(false), s, Flag(false), t);
    } else {
      SplitAt(OptionalDigest(a), s, OptionalDigest(b), t);
      SplitAt(Flag(true), DigestField(a.value), Flag(true), DigestField(b.value));
      SplitAt([SHA256], a.value, [SHA256], b.value);
    }
  }

  lemma {:induction false} DigestsFree(a: seq<Digest>, s: seq<byte>, b: seq<Digest>, t: seq<byte>)
    requires |a| == |b|
    requires Digests(a) + s == Digests(b) + t
    ensures a == b && s == t
  {
    if a == [] {
      assert Digests(a) + s == s && Digests(b) + t == t;
    } else {
      var x, y := Digests(a[1..]), Digests(b[1..]);
      Regrouped(DigestField(a[0]), x);
      Regrouped(DigestField(b[0]), y);
      assert DigestField(a[0]) + (x + s) == Digests(a) + s;
      assert DigestField(b[0]) + (y + t) == Digests(b) + t;
      DigestFree(a[0], x + s, b[0], y + t);
      DigestsFree(a[1..], s, b[1..], t);
      assert a == [a[0]] + a[1..] && b == [b[0]] + b[1..];
    }
  }

  lemma EventFieldFree(a: Option<EventContent>, s: seq<byte>, b: Option<EventContent>, t: seq<byte>)
    requires EventField(a) + s == EventField(b) + t
    ensures a == b && s == t
  {
    assert (EventField(a) + s)[0] == if a.Some? then 1 else 0;
    assert (EventField(b) + t)[0] == if b.Some? then 1 else 0;
    if a.None? {
      SplitAt(Flag(false), s, Flag(false), t);
    } else {
      var u, v := a.value, b.value;
      EventFlat(u, s);
      EventFlat(v, t);
      var u4, v4 := Digests(u.evidence) + s, Digests(v.evidence) + t;
      var u3, v3 := U64(|u.evidence|) + u4, U64(|v.evidence|) + v4;
      var u2, v2 := DigestField(u.effect) + u3, DigestField(v.effect) + v3;
      var u1, v1 := [EventTag(u.kind)] + u2, [EventTag(v.kind)] + v2;
      SplitAt(Flag(true), U64(u.sequence) + u1, Flag(true), U64(v.sequence) + v1);
      U64Free(u.sequence, u1, v.sequence, v1);
      TagFree(EventTag(u.kind), u2, EventTag(v.kind), v2);
      DigestFree(u.effect, u3, v.effect, v3);
      U64Free(|u.evidence|, u4, |v.evidence|, v4);
      DigestsFree(u.evidence, s, v.evidence, t);
    }
  }

  /** The fields of an event, each followed by all that comes after it. */
  lemma EventFlat(e: EventContent, s: seq<byte>)
    ensures EventField(Some(e)) + s ==
      Flag(true) +
      (U64(e.sequence) +
       ([EventTag(e.kind)] +
        (DigestField(e.effect) +
         (U64(|e.evidence|) + (Digests(e.evidence) + s)))))
  {
    var fields := U64(e.sequence) + ([EventTag(e.kind)] + (DigestField(e.effect) + (U64(|e.evidence|) + Digests(e.evidence))));
    assert EventField(Some(e)) + s == Flag(true) + (fields + s);
    Flat(U64(e.sequence), [EventTag(e.kind)], DigestField(e.effect), U64(|e.evidence|), Digests(e.evidence), s);
  }

  lemma RecordFree(domain: string, a: seq<byte>, b: seq<byte>)
    requires IsDomain(domain) && Record(domain, a) == Record(domain, b)
    ensures a == b
  {
    var d := Text(Ascii(domain));
    SplitAt(MAGIC, U16(ENCODING_VERSION) + (d + (U16(SCHEMA_VERSION) + a)),
            MAGIC, U16(ENCODING_VERSION) + (d + (U16(SCHEMA_VERSION) + b)));
    SplitAt(U16(ENCODING_VERSION), d + (U16(SCHEMA_VERSION) + a), U16(ENCODING_VERSION), d + (U16(SCHEMA_VERSION) + b));
    SplitAt(d, U16(SCHEMA_VERSION) + a, d, U16(SCHEMA_VERSION) + b);
    SplitAt(U16(SCHEMA_VERSION), a, U16(SCHEMA_VERSION), b);
  }

  /** Records of two kinds never coincide. */
  lemma DomainsSeparate(c: string, a: seq<byte>, d: string, b: seq<byte>)
    requires IsDomain(c) && IsDomain(d) && Record(c, a) == Record(d, b)
    ensures c == d
  {
    var s, t := U16(SCHEMA_VERSION) + a, U16(SCHEMA_VERSION) + b;
    SplitAt(MAGIC, U16(ENCODING_VERSION) + (Text(Ascii(c)) + s), MAGIC, U16(ENCODING_VERSION) + (Text(Ascii(d)) + t));
    SplitAt(U16(ENCODING_VERSION), Text(Ascii(c)) + s, U16(ENCODING_VERSION), Text(Ascii(d)) + t);
    TextFree(Ascii(c), s, Ascii(d), t);
    assert |c| == |d|;
    if |c| == |EFFECT_DOMAIN| {
      assert Ascii(EFFECT_DOMAIN)[30] != Ascii(CURSOR_DOMAIN)[30];
    }
  }

  // Records are injective

  lemma EffectRecordInjective(a: EffectContent, b: EffectContent)
    requires EffectRecord(a) == EffectRecord(b)
    ensures a == b
  {
    RecordFree(EFFECT_DOMAIN, EffectBody(a), EffectBody(b));
    var a1, b1 := [EffectTag(a.kind)] + OptionalText(a.path), [EffectTag(b.kind)] + OptionalText(b.path);
    U64Free(a.ordinal, a1, b.ordinal, b1);
    TagFree(EffectTag(a.kind), OptionalText(a.path), EffectTag(b.kind), OptionalText(b.path));
    assert OptionalText(a.path)[0] == if a.path.Some? then 1 else 0;
    assert OptionalText(b.path)[0] == if b.path.Some? then 1 else 0;
    if a.path.Some? {
      SplitAt(Flag(true), Text(a.path.value), Flag(true), Text(b.path.value));
      assert Text(a.path.value) + [] == Text(b.path.value) + [];
      TextFree(a.path.value, [], b.path.value, []);
    }
  }

  lemma StepRecordInjective(a: StepContent, b: StepContent)
    requires StepRecord(a) == StepRecord(b)
    ensures a == b
  {
    RecordFree(STEP_DOMAIN, StepBody(a), StepBody(b));
    var a8, b8 := OptionalDigest(a.completed), OptionalDigest(b.completed);
    var a7, b7 := OptionalDigest(a.receipt) + a8, OptionalDigest(b.receipt) + b8;
    var a6, b6 := Text(a.fact) + a7, Text(b.fact) + b7;
    var a5, b5 := U64(|a.fact|) + a6, U64(|b.fact|) + b6;
    var a4, b4 := EventField(a.event) + a5, EventField(b.event) + b5;
    var a3, b3 := [StateTag(a.state)] + a4, [StateTag(b.state)] + b4;
    var a2, b2 := OptionalDigest(a.predecessor) + a3, OptionalDigest(b.predecessor) + b3;
    var a1, b1 := U64(a.sequence) + a2, U64(b.sequence) + b2;
    DigestFree(a.declaration, a1, b.declaration, b1);
    U64Free(a.sequence, a2, b.sequence, b2);
    OptionalDigestFree(a.predecessor, a3, b.predecessor, b3);
    TagFree(StateTag(a.state), a4, StateTag(b.state), b4);
    EventFieldFree(a.event, a5, b.event, b5);
    U64Free(|a.fact|, a6, |b.fact|, b6);
    TextFree(a.fact, a7, b.fact, b7);
    OptionalDigestFree(a.receipt, a8, b.receipt, b8);
    assert a8 + [] == b8 + [];
    OptionalDigestFree(a.completed, [], b.completed, []);
  }

  lemma CursorRecordInjective(a: CursorContent, b: CursorContent)
    requires CursorRecord(a) == CursorRecord(b)
    ensures a == b
  {
    RecordFree(CURSOR_DOMAIN, CursorBody(a), CursorBody(b));
    var a5, b5 := OptionalDigest(a.completed), OptionalDigest(b.completed);
    var a4, b4 := OptionalDigest(a.receipt) + a5, OptionalDigest(b.receipt) + b5;
    var a3, b3 := [StateTag(a.state)] + a4, [StateTag(b.state)] + b4;
    var a2, b2 := OptionalDigest(a.latest) + a3, OptionalDigest(b.latest) + b3;
    var a1, b1 := U64(a.stepCount) + a2, U64(b.stepCount) + b2;
    DigestFree(a.declaration, a1, b.declaration, b1);
    U64Free(a.stepCount, a2, b.stepCount, b2);
    OptionalDigestFree(a.latest, a3, b.latest, b3);
    TagFree(StateTag(a.state), a4, StateTag(b.state), b4);
    OptionalDigestFree(a.receipt, a5, b.receipt, b5);
    assert a5 + [] == b5 + [];
    OptionalDigestFree(a.completed, [], b.completed, []);
  }

  /** A declaration record fixes the identities of its effects. */
  lemma DeclarationRecordFixes(hash: Hash, a: DeclarationContent, b: DeclarationContent)
    requires DeclarationRecord(hash, a) == DeclarationRecord(hash, b)
    ensures a.header == b.header && a.seed == b.seed
    ensures EffectIdentities(hash, a.effects) == EffectIdentities(hash, b.effects)
  {
    RecordFree(DECLARATION_DOMAIN, DeclarationBody(hash, a), DeclarationBody(hash, b));
    var x, y := EffectIdentities(hash, a.effects), EffectIdentities(hash, b.effects);
    var a4, b4 := Text(a.seed), Text(b.seed);
    var a3, b3 := U64(|a.seed|) + a4, U64(|b.seed|) + b4;
    var a2, b2 := Digests(x) + a3, Digests(y) + b3;
    var a1, b1 := U64(|a.effects|) + a2, U64(|b.effects|) + b2;
    DigestFree(a.header, a1, b.header, b1);
    U64Free(|a.effects|, a2, |b.effects|, b2);
    DigestsFree(x, a3, y, b3);
    U64Free(|a.seed|, a4, |b.seed|, b4);
    assert a4 + [] == b4 + [];
    TextFree(a.seed, [], b.seed, []);
  }

  // The chain of identities

  /** A journal as the store holds it: contents that name each other by
      identity. */
  datatype Chain = Chain(declaration: DeclarationContent, steps: seq<StepContent>)

  function DeclarationIdentity(hash: Hash, chain: Chain): Digest {
    hash(DeclarationRecord(hash, chain.declaration))
  }

  function StepIdentity(hash: Hash): StepContent -> Digest {
    (step: StepContent) => hash(StepRecord(step))
  }

  /** Each value names its predecessor by identity. */
  ghost predicate NamesPredecessors<S>(identity: S -> Digest, predecessor: S -> Option<Digest>, s: seq<S>) {
    forall i {:trigger predecessor(s[i])} :: 0 <= i < |s| ==> predecessor(s[i]) == Latest(identity, s[..i])
  }

  function Latest<S>(identity: S -> Digest, s: seq<S>): Option<Digest> {
    if s == [] then None else Some(identity(s[|s| - 1]))
  }

  ghost predicate Linked(hash: Hash, chain: Chain) {
    && |chain.steps| < 0x1_0000_0000_0000_0000
    && (forall i :: 0 <= i < |chain.steps| ==>
          chain.steps[i].declaration == DeclarationIdentity(hash, chain) && chain.steps[i].sequence == i)
    && NamesPredecessors(StepIdentity(hash), (step: StepContent) => step.predecessor, chain.steps)
  }

  /** The cursor over all steps of a chain. */
  function Head(hash: Hash, chain: Chain): CursorContent
    requires |chain.steps| < 0x1_0000_0000_0000_0000
  {
    var d := DeclarationIdentity(hash, chain);
    if chain.steps == [] then CursorContent(d, 0, None, Journal.Preparing, None, None)
    else
      var last := chain.steps[|chain.steps| - 1];
      CursorContent(d, |chain.steps|, Latest(StepIdentity(hash), chain.steps), last.state, last.receipt, last.completed)
  }

  function CursorIdentity(hash: Hash, chain: Chain): Digest
    requires |chain.steps| < 0x1_0000_0000_0000_0000
  {
    hash(CursorRecord(Head(hash, chain)))
  }

  /** `records` holds every record hashed on the way to the cursor identity
      of a chain. */
  ghost predicate Covers(hash: Hash, chain: Chain, records: set<seq<byte>>)
    requires |chain.steps| < 0x1_0000_0000_0000_0000
  {
    && CursorRecord(Head(hash, chain)) in records
    && DeclarationRecord(hash, chain.declaration) in records
    && (forall i {:trigger StepRecord(chain.steps[i])} :: 0 <= i < |chain.steps| ==> StepRecord(chain.steps[i]) in records)
    && (forall i {:trigger EffectRecord(chain.declaration.effects[i])} :: 0 <= i < |chain.declaration.effects| ==>
          EffectRecord(chain.declaration.effects[i]) in records)
  }

  ghost predicate CollisionFree(hash: Hash, records: set<seq<byte>>) {
    forall r, s :: r in records && s in records && hash(r) == hash(s) ==> r == s
  }

  /** Two linked chains whose records have no collision among them. */
  ghost predicate Comparable(hash: Hash, records: set<seq<byte>>, a: Chain, b: Chain) {
    && Linked(hash, a) && Linked(hash, b)
    && Covers(hash, a, records) && Covers(hash, b, records) && CollisionFree(hash, records)
  }

  /** Cursors with one identity stand for one journal: the same declaration
      and the same whole step sequence. */
  lemma CursorIdentityFixesJournal(hash: Hash, records: set<seq<byte>>, a: Chain, b: Chain)
    requires Comparable(hash, records, a, b)
    requires CursorIdentity(hash, a) == CursorIdentity(hash, b)
    ensures a == b
  {
    HeadFixed(hash, records, a, b);
    DeclarationFixed(hash, records, a, b);
    var identity := StepIdentity(hash);
    forall i, j | 0 <= i < |a.steps| && 0 <= j < |b.steps| && identity(a.steps[i]) == identity(b.steps[j])
      ensures a.steps[i] == b.steps[j]
    {
      StepFixed(hash, records, a, b, i, j);
    }
    StepsFixed(identity, (step: StepContent) => step.predecessor, a.steps, b.steps);
  }

  lemma HeadFixed(hash: Hash, records: set<seq<byte>>, a: Chain, b: Chain)
    requires Comparable(hash, records, a, b)
    requires CursorIdentity(hash, a) == CursorIdentity(hash, b)
    ensures |a.steps| == |b.steps|
    ensures DeclarationIdentity(hash, a) == DeclarationIdentity(hash, b)
    ensures Latest(StepIdentity(hash), a.steps) == Latest(StepIdentity(hash), b.steps)
  {
    CursorRecordInjective(Head(hash, a), Head(hash, b));
  }

  lemma DeclarationFixed(hash: Hash, records: set<seq<byte>>, a: Chain, b: Chain)
    requires Comparable(hash, records, a, b)
    requires DeclarationIdentity(hash, a) == DeclarationIdentity(hash, b)
    ensures a.declaration == b.declaration
  {
    var x, y := a.declaration, b.declaration;
    DeclarationRecordFixes(hash, x, y);
    assert |x.effects| == |EffectIdentities(hash, x.effects)| == |y.effects|;
    forall i | 0 <= i < |x.effects| ensures x.effects[i] == y.effects[i] {
      assert hash(EffectRecord(x.effects[i])) == EffectIdentities(hash, x.effects)[i];
      assert hash(EffectRecord(y.effects[i])) == EffectIdentities(hash, y.effects)[i];
      EffectRecordInjective(x.effects[i], y.effects[i]);
    }
  }

  lemma StepFixed(hash: Hash, records: set<seq<byte>>, a: Chain, b: Chain, i: nat, j: nat)
    requires Comparable(hash, records, a, b)
    requires i < |a.steps| && j < |b.steps|
    requires StepIdentity(hash)(a.steps[i]) == StepIdentity(hash)(b.steps[j])
    ensures a.steps[i] == b.steps[j]
  {
    var r, s := StepRecord(a.steps[i]), StepRecord(b.steps[j]);
    assert r in records && s in records && hash(r) == hash(s);
    StepRecordInjective(a.steps[i], b.steps[j]);
  }

  /** Walking the predecessors back from the latest value. */
  lemma {:induction false} StepsFixed<S>(identity: S -> Digest, predecessor: S -> Option<Digest>, a: seq<S>, b: seq<S>)
    requires NamesPredecessors(identity, predecessor, a) && NamesPredecessors(identity, predecessor, b)
    requires forall i, j :: 0 <= i < |a| && 0 <= j < |b| && identity(a[i]) == identity(b[j]) ==> a[i] == b[j]
    requires Latest(identity, a) == Latest(identity, b) && |a| == |b|
    ensures a == b
  {
    if a != [] {
      var n := |a| - 1;
      assert predecessor(a[n]) == predecessor(b[n]);
      var x, y := a[..n], b[..n];
      assert forall i :: 0 <= i < n ==> x[..i] == a[..i] && y[..i] == b[..i];
      StepsFixed(identity, predecessor, x, y);
      assert a == x + [a[n]] && b == y + [b[n]];
    }
  }
}
