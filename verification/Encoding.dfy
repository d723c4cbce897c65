/**
  The canonical byte encodings that are hashed, signed or handed out: fixed-width
  fields, numbers in eight bytes, the most significant first.
*/
module Encoding {
  import opened Results
  import opened Protocol
  import opened Mailbox

  type Buffer = seq<Byte>

  // ---------------------------------------------------------------- Numbers

  function Pow256(k: nat): (p: nat)
    ensures p >= 1
  {
    if k == 0 then 1 else 256 * Pow256(k - 1)
  }

  function ToBytes(n: nat, k: nat): (b: Buffer)
    ensures |b| == k
  {
    if k == 0 then [] else ToBytes(n / 256, k - 1) + [n % 256]
  }

  function FromBytes(b: Buffer): nat {
    if |b| == 0 then 0 else FromBytes(b[..|b| - 1]) * 256 + b[|b| - 1]
  }

  lemma {:induction false} BytesRoundTrip(n: nat, k: nat)
    requires n < Pow256(k)
    ensures FromBytes(ToBytes(n, k)) == n
    decreases k
  {
    if k > 0 {
      BytesRoundTrip(n / 256, k - 1);
      assert ToBytes(n, k)[..k - 1] == ToBytes(n / 256, k - 1);
    }
  }

  lemma {:induction false} NumberRoundTrip(b: Buffer)
    ensures ToBytes(FromBytes(b), |b|) == b && FromBytes(b) < Pow256(|b|)
  {
    if |b| > 0 {
      var init, last := b[..|b| - 1], b[|b| - 1];
      NumberRoundTrip(init);
      assert FromBytes(b) / 256 == FromBytes(init) && FromBytes(b) % 256 == last;
      assert b == init + [last];
    }
  }

  lemma EightBytes()
    ensures Pow256(8) == 0x1_0000_0000_0000_0000
  {
    assert Pow256(1) == 256 && Pow256(2) == 0x1_0000 && Pow256(3) == 0x100_0000 && Pow256(4) == 0x1_0000_0000;
    assert Pow256(5) == 0x100_0000_0000 && Pow256(6) == 0x1_0000_0000_0000 && Pow256(7) == 0x100_0000_0000_0000;
  }

  /** Eight bytes tell numbers apart. */
  lemma NumbersDiffer(m: Number, n: Number)
    requires ToBytes(m, 8) == ToBytes(n, 8)
    ensures m == n
  {
    EightBytes();
    BytesRoundTrip(m, 8);
    BytesRoundTrip(n, 8);
  }

  // ---------------------------------------------------------------- Texts and fields

  function Ascii(text: string): (b: Buffer)
    requires forall i :: 0 <= i < |text| ==> text[i] < 128 as char
    ensures |b| == |text|
  {
    seq(|text|, i requires 0 <= i < |text| => text[i] as int)
  }

  const TRANSCRIPT_LABEL := "innernet pq-psk v1 transcript"
  const MESSAGE_LABEL := "innernet pq-psk v1 message"

  function EncodeBundle(b: Bundle): (r: Buffer)
    ensures |r| == 1747
  {
    b.bundleId + (ToBytes(b.bundleRevision, 8) + (b.wgPublicKey + (b.kemPublicKey + (b.x448PublicKey + b.sigPublicKey))))
  }

  function EncodeTranscript(t: Transcript): Buffer {
    Ascii(TRANSCRIPT_LABEL) + ([1] + (t.networkId + (ToBytes(t.initiatorId, 8) + (ToBytes(t.responderId, 8)
    + (EncodeBundle(t.initiator) + (EncodeBundle(t.responder) + (ToBytes(t.sequence, 8) + (t.exchangeId
    + (t.operatorPskId + t.ciphertext)))))))))
  }

  /** The envelope of a message, with the bytes of its transcript hash. */
  function Envelope(h: Header, hash: B32): Buffer {
    Ascii(MESSAGE_LABEL) + ([h.version] + (h.networkId + (ToBytes(h.initiatorId, 8) + (ToBytes(h.responderId, 8)
    + (h.initiatorBundleId + (h.responderBundleId + (ToBytes(h.sequence, 8) + (h.exchangeId
    + (hash + (ToBytes(h.senderId, 8) + [h.messageType]))))))))))
  }

  // ---------------------------------------------------------------- Injectivity

  /** Fields of equal length come off the front one by one. */
  lemma Peel(a: Buffer, rest: Buffer, b: Buffer, other: Buffer)
    requires |a| == |b| && a + rest == b + other
    ensures a == b && rest == other
  {
    assert a == (a + rest)[..|a|] && b == (b + other)[..|b|];
    assert rest == (a + rest)[|a|..] && other == (b + other)[|b|..];
  }

  lemma BundlesDiffer(a: Bundle, b: Bundle)
    requires EncodeBundle(a) == EncodeBundle(b)
    ensures a == b
  {
    hide ToBytes;
    var a5 := a.x448PublicKey + a.sigPublicKey;
    var b5 := b.x448PublicKey + b.sigPublicKey;
    var a4, b4 := a.kemPublicKey + a5, b.kemPublicKey + b5;
    var a3, b3 := a.wgPublicKey + a4, b.wgPublicKey + b4;
    var a2, b2 := ToBytes(a.bundleRevision, 8) + a3, ToBytes(b.bundleRevision, 8) + b3;
    Peel(a.bundleId, a2, b.bundleId, b2);
    Peel(ToBytes(a.bundleRevision, 8), a3, ToBytes(b.bundleRevision, 8), b3);
    Peel(a.wgPublicKey, a4, b.wgPublicKey, b4);
    Peel(a.kemPublicKey, a5, b.kemPublicKey, b5);
    Peel(a.x448PublicKey, a.sigPublicKey, b.x448PublicKey, b.sigPublicKey);
    NumbersDiffer(a.bundleRevision, b.bundleRevision);
  }

  /** The bytes of a transcript determine it, whatever its fields are. */
  lemma TranscriptsDiffer(a: Transcript, b: Transcript)
    requires EncodeTranscript(a) == EncodeTranscript(b)
    ensures a == b
  {
    hide ToBytes, EncodeBundle, Ascii;
    var a9, b9 := a.operatorPskId + a.ciphertext, b.operatorPskId + b.ciphertext;
    var a8, b8 := a.exchangeId + a9, b.exchangeId + b9;
    var a7, b7 := ToBytes(a.sequence, 8) + a8, ToBytes(b.sequence, 8) + b8;
    var a6, b6 := EncodeBundle(a.responder) + a7, EncodeBundle(b.responder) + b7;
    var a5, b5 := EncodeBundle(a.initiator) + a6, EncodeBundle(b.initiator) + b6;
    var a4, b4 := ToBytes(a.responderId, 8) + a5, ToBytes(b.responderId, 8) + b5;
    var a3, b3 := ToBytes(a.initiatorId, 8) + a4, ToBytes(b.initiatorId, 8) + b4;
    var a2, b2 := a.networkId + a3, b.networkId + b3;
    Peel(Ascii(TRANSCRIPT_LABEL), [1] + a2, Ascii(TRANSCRIPT_LABEL), [1] + b2);
    Peel([1], a2, [1], b2);
    Peel(a.networkId, a3, b.networkId, b3);
    Peel(ToBytes(a.initiatorId, 8), a4, ToBytes(b.initiatorId, 8), b4);
    Peel(ToBytes(a.responderId, 8), a5, ToBytes(b.responderId, 8), b5);
    Peel(EncodeBundle(a.initiator), a6, EncodeBundle(b.initiator), b6);
    Peel(EncodeBundle(a.responder), a7, EncodeBundle(b.responder), b7);
    Peel(ToBytes(a.sequence, 8), a8, ToBytes(b.sequence, 8), b8);
    Peel(a.exchangeId, a9, b.exchangeId, b9);
    Peel(a.operatorPskId, a.ciphertext, b.operatorPskId, b.ciphertext);
    NumbersDiffer(a.initiatorId, b.initiatorId);
    NumbersDiffer(a.responderId, b.responderId);
    NumbersDiffer(a.sequence, b.sequence);
    BundlesDiffer(a.initiator, b.initiator);
    BundlesDiffer(a.responder, b.responder);
  }

  /** The bytes of an envelope determine every field of it, and the bytes of its hash. */
  lemma EnvelopesDiffer(a: Header, x: B32, b: Header, y: B32)
    requires Envelope(a, x) == Envelope(b, y)
    ensures x == y && a == b.(transcriptHash := a.transcriptHash)
  {
    hide ToBytes, Ascii;
    var a10, b10 := ToBytes(a.senderId, 8) + [a.messageType], ToBytes(b.senderId, 8) + [b.messageType];
    var a9, b9 := x + a10, y + b10;
    var a8, b8 := a.exchangeId + a9, b.exchangeId + b9;
    var a7, b7 := ToBytes(a.sequence, 8) + a8, ToBytes(b.sequence, 8) + b8;
    var a6, b6 := a.responderBundleId + a7, b.responderBundleId + b7;
    var a5, b5 := a.initiatorBundleId + a6, b.initiatorBundleId + b6;
    var a4, b4 := ToBytes(a.responderId, 8) + a5, ToBytes(b.responderId, 8) + b5;
    var a3, b3 := ToBytes(a.initiatorId, 8) + a4, ToBytes(b.initiatorId, 8) + b4;
    var a2, b2 := a.networkId + a3, b.networkId + b3;
    Peel(Ascii(MESSAGE_LABEL), [a.version] + a2, Ascii(MESSAGE_LABEL), [b.version] + b2);
    Peel([a.version], a2, [b.version], b2);
    Peel(a.networkId, a3, b.networkId, b3);
    Peel(ToBytes(a.initiatorId, 8), a4, ToBytes(b.initiatorId, 8), b4);
    Peel(ToBytes(a.responderId, 8), a5, ToBytes(b.responderId, 8), b5);
    Peel(a.initiatorBundleId, a6, b.initiatorBundleId, b6);
    Peel(a.responderBundleId, a7, b.responderBundleId, b7);
    Peel(ToBytes(a.sequence, 8), a8, ToBytes(b.sequence, 8), b8);
    Peel(a.exchangeId, a9, b.exchangeId, b9);
    Peel(x, a10, y, b10);
    Peel(ToBytes(a.senderId, 8), [a.messageType], ToBytes(b.senderId, 8), [b.messageType]);
    NumbersDiffer(a.initiatorId, b.initiatorId);
    NumbersDiffer(a.responderId, b.responderId);
    NumbersDiffer(a.sequence, b.sequence);
    NumbersDiffer(a.senderId, b.senderId);
    assert [a.messageType][0] == [b.messageType][0] && [a.version][0] == [b.version][0];
  }

  /** What is hashed is never what is signed. */
  lemma EncodingsNeverCollide(t: Transcript, h: Header, hash: B32)
    ensures EncodeTranscript(t) != Envelope(h, hash)
  {
    hide ToBytes, EncodeBundle;
    assert EncodeTranscript(t)[19] == 't' as int;
    assert Envelope(h, hash)[19] == 'm' as int;
  }

  // ---------------------------------------------------------------- The encoders as they run

  method WriteBundle(b: Bundle) returns (out: Buffer)
    ensures out == EncodeBundle(b)
  {
    hide ToBytes;
    out := b.bundleId;
    out := out + ToBytes(b.bundleRevision, 8);
    out := out + b.wgPublicKey;
    out := out + b.kemPublicKey;
    out := out + b.x448PublicKey;
    out := out + b.sigPublicKey;
  }

  method WriteTranscript(t: Transcript) returns (out: Buffer)
    ensures out == EncodeTranscript(t)
  {
    hide ToBytes, EncodeBundle, Ascii;
    out := Ascii(TRANSCRIPT_LABEL);
    out := out + [1];
    out := out + t.networkId;
    out := out + ToBytes(t.initiatorId, 8);
    out := out + ToBytes(t.responderId, 8);
    var first := WriteBundle(t.initiator);
    out := out + first;
    var second := WriteBundle(t.responder);
    out := out + second;
    out := out + ToBytes(t.sequence, 8);
    out := out + t.exchangeId;
    out := out + t.operatorPskId;
    out := out + t.ciphertext;
  }

  method WriteEnvelope(h: Header, hash: B32) returns (out: Buffer)
    ensures out == Envelope(h, hash)
  {
    hide ToBytes, Ascii;
    out := Ascii(MESSAGE_LABEL);
    out := out + [h.version];
    out := out + h.networkId;
    out := out + ToBytes(h.initiatorId, 8);
    out := out + ToBytes(h.responderId, 8);
    out := out + h.initiatorBundleId;
    out := out + h.responderBundleId;
    out := out + ToBytes(h.sequence, 8);
    out := out + h.exchangeId;
    out := out + hash;
    out := out + ToBytes(h.senderId, 8);
    out := out + [h.messageType];
  }

  // ---------------------------------------------------------------- The page cursor

  type Word = n: int | 0 <= n < 0x1_0000_0000_0000_0000

  function CursorBody(caller: Word, revision: Word, stage: Word, after: Word): (b: Buffer)
    ensures |b| == 32
  {
    ToBytes(caller, 8) + (ToBytes(revision, 8) + (ToBytes(stage, 8) + ToBytes(after, 8)))
  }

  /** `tag` is the keyed tag of the service. */
  function EncodeCursor(tag: Buffer -> B32, caller: Word, revision: Word, stage: Word, after: Word): (b: Buffer)
    ensures |b| == 64
  {
    var body := CursorBody(caller, revision, stage, after);
    body + tag(body)
  }

  function DecodeCursor(tag: Buffer -> B32, b: Buffer, caller: Word, revision: Word): Served<(Word, Word)>
    requires |b| == 64
  {
    if tag(b[..32]) != b[32..] then Err(InvalidQuery)
    else
      var fields := (FromBytes(b[..8]), FromBytes(b[8..16]), FromBytes(b[16..24]), FromBytes(b[24..32]));
      FieldIsWord(b[..8]);
      FieldIsWord(b[8..16]);
      FieldIsWord(b[16..24]);
      FieldIsWord(b[24..32]);
      if fields.0 != caller || fields.1 != revision then Err(ServerError.Conflict)
      else if fields.2 > 2 || fields.3 > MAX_NUMBER then Err(InvalidQuery)
      else Ok((fields.2, fields.3))
  }

  lemma FieldIsWord(b: Buffer)
    requires |b| == 8
    ensures 0 <= FromBytes(b) < 0x1_0000_0000_0000_0000
  {
    NumberRoundTrip(b);
    EightBytes();
  }

  lemma BodyFields(caller: Word, revision: Word, stage: Word, after: Word)
    ensures var b := CursorBody(caller, revision, stage, after);
            b[..8] == ToBytes(caller, 8) && b[8..16] == ToBytes(revision, 8) && b[16..24] == ToBytes(stage, 8) && b[24..32] == ToBytes(after, 8)
  {
    hide ToBytes;
    FourFields(ToBytes(caller, 8), ToBytes(revision, 8), ToBytes(stage, 8), ToBytes(after, 8));
  }

  lemma FourFields(p: Buffer, q: Buffer, r: Buffer, s: Buffer)
    requires |p| == |q| == |r| == |s| == 8
    ensures var b := p + (q + (r + s)); b[..8] == p && b[8..16] == q && b[16..24] == r && b[24..32] == s
  {
    var b := p + (q + (r + s));
    assert b[..8] == p;
    assert b[8..] == q + (r + s);
    assert b[16..] == r + s;
    assert b[8..16] == q;
    assert b[16..24] == r;
    assert b[24..32] == s;
  }

  /**
    A cursor is accepted exactly when it is one that this service encoded for this
    caller at this revision; then it gives back the position it was encoded with.
  */
  lemma CursorsRoundTrip(tag: Buffer -> B32, b: Buffer, caller: Word, revision: Word, stage: Word, after: Word)
    requires |b| == 64
    ensures DecodeCursor(tag, b, caller, revision) == Ok((stage, after))
            <==> b == EncodeCursor(tag, caller, revision, stage, after) && stage <= 2 && after <= MAX_NUMBER
  {
    var body := CursorBody(caller, revision, stage, after);
    BodyFields(caller, revision, stage, after);
    EightBytes();
    BytesRoundTrip(caller, 8);
    BytesRoundTrip(revision, 8);
    BytesRoundTrip(stage, 8);
    BytesRoundTrip(after, 8);
    NumberRoundTrip(b[..8]);
    NumberRoundTrip(b[8..16]);
    NumberRoundTrip(b[16..24]);
    NumberRoundTrip(b[24..32]);
    hide ToBytes, FromBytes, CursorBody;
    if b == EncodeCursor(tag, caller, revision, stage, after) {
      assert b[..32] == body && b[32..] == tag(body);
      FieldsOfPrefix(b, body);
    }
    if DecodeCursor(tag, b, caller, revision) == Ok((stage, after)) {
      FieldsDetermine(b[..32], body);
      assert b == b[..32] + b[32..];
    }
  }

  lemma FieldsOfPrefix(b: Buffer, body: Buffer)
    requires |b| == 64 && |body| == 32 && b[..32] == body
    ensures b[..8] == body[..8] && b[8..16] == body[8..16] && b[16..24] == body[16..24] && b[24..32] == body[24..32]
  {
    assert b[..32][..8] == b[..8] && b[..32][8..16] == b[8..16] && b[..32][16..24] == b[16..24] && b[..32][24..32] == b[24..32];
  }

  lemma FieldsDetermine(a: Buffer, b: Buffer)
    requires |a| == 32 && |b| == 32 && a[..8] == b[..8] && a[8..16] == b[8..16] && a[16..24] == b[16..24] && a[24..32] == b[24..32]
    ensures a == b
  {
    assert a == a[..8] + a[8..16] + a[16..24] + a[24..32];
    assert b == b[..8] + b[8..16] + b[16..24] + b[24..32];
  }
}
