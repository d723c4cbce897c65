/**
  The version 1 exchange protocol: identities, transcripts, signed messages and
  the decision machine that both endpoints and the server run.

  Cryptography is a term algebra. A digest, a MAC, a signature or a shared secret
  is the term that names the inputs it was computed from, so equal terms have equal
  inputs; the extra constructors stand for byte strings that no such computation
  produced. Hashing a transcript is a function of the transcript value because its
  byte encoding is injective (module Encoding).
*/
module Protocol {
  import opened Results

  const MAX_NUMBER: int := 0x7fff_ffff_ffff_ffff

  /** Identifiers, sequences and revisions: nonzero and at most i64::MAX. */
  type Number = n: int | 1 <= n <= MAX_NUMBER witness 1

  type Byte = b: int | 0 <= b < 256 witness 0

  type B16 = s: seq<Byte> | |s| == 16 witness seq(16, _ => 0)
  type B32 = s: seq<Byte> | |s| == 32 witness seq(32, _ => 0)
  type B56 = s: seq<Byte> | |s| == 56 witness seq(56, _ => 0)
  type B67 = s: seq<Byte> | |s| == 67 witness seq(67, _ => 0)
  type B1568 = s: seq<Byte> | |s| == 1568 witness seq(1568, _ => 0)
  type B1624 = s: seq<Byte> | |s| == 1624 witness seq(1624, _ => 0)

  /** The errors of the pq crate that its pure checks can return. */
  datatype Error = Invalid | Crypto | Conflict | Installer

  type Checked<+T> = Result<T, Error>

  function NewNumber(value: int): Checked<Number> {
    if 1 <= value <= MAX_NUMBER then Ok(value) else Err(Invalid)
  }

  function NextNumber(n: Number): Checked<Number> {
    NewNumber(n + 1)
  }

  datatype Bundle = Bundle(
    bundleId: B16,
    bundleRevision: Number,
    wgPublicKey: B32,
    kemPublicKey: B1568,
    x448PublicKey: B56,
    sigPublicKey: B67)

  datatype Transcript = Transcript(
    networkId: B16,
    initiatorId: Number,
    responderId: Number,
    initiator: Bundle,
    responder: Bundle,
    sequence: Number,
    exchangeId: B16,
    operatorPskId: B16,
    ciphertext: B1624)

  // ---------------------------------------------------------------- Cryptographic terms

  datatype Digest = Sha3(transcript: Transcript) | OtherDigest(nat)

  datatype HybridPublic = HybridPublic(kem: B1568, x448: B56)

  /** What the combined KEM assigns to a ciphertext under the recipient's key. */
  datatype SharedSecret = SharedSecret(recipient: HybridPublic, ciphertext: B1624)

  /** HKDF output: the keying material, the operator key and the transcript hash used as salt. */
  datatype Candidate = Candidate(shared: SharedSecret, operatorPsk: B32, salt: Digest)

  /** The three expansions of one candidate. */
  datatype Key =
    | Psk(candidate: Candidate)
    | InitiatorConfirmation(candidate: Candidate)
    | ResponderConfirmation(candidate: Candidate)

  datatype Mac = Hmac(key: Key, header: Header) | OtherMac(nat)

  /** Signing is deterministic, so a signature is named by its key and its input. */
  datatype Signature = Ecdsa(signer: B67, header: Header, mac: Mac) | OtherSignature(nat)

  function PublicOf(b: Bundle): HybridPublic {
    HybridPublic(b.kemPublicKey, b.x448PublicKey)
  }

  /** Decapsulation with the private half of `recipient`. */
  function Decapsulate(ciphertext: B1624, recipient: HybridPublic): SharedSecret {
    SharedSecret(recipient, ciphertext)
  }

  function Derive(shared: SharedSecret, operatorPsk: B32, t: Transcript): Candidate {
    Candidate(shared, operatorPsk, Sha3(t))
  }

  // ---------------------------------------------------------------- Messages

  datatype Kind = Propose | Ready | Commit | Installed | Confirmed | Abort {
    function Code(): Byte {
      match this
      case Propose => 1
      case Ready => 2
      case Commit => 3
      case Installed => 4
      case Confirmed => 5
      case Abort => 6
    }
  }

  function KindOf(code: Byte): Checked<Kind> {
    match code
    case 1 => Ok(Kind.Propose)
    case 2 => Ok(Kind.Ready)
    case 3 => Ok(Kind.Commit)
    case 4 => Ok(Kind.Installed)
    case 5 => Ok(Kind.Confirmed)
    case 6 => Ok(Kind.Abort)
    case _ => Err(Invalid)
  }

  /** The signed envelope of a message, in the order in which it is encoded. */
  datatype Header = Header(
    version: Byte,
    networkId: B16,
    initiatorId: Number,
    responderId: Number,
    initiatorBundleId: B16,
    responderBundleId: B16,
    sequence: Number,
    exchangeId: B16,
    transcriptHash: Digest,
    senderId: Number,
    messageType: Byte)

  datatype Message = Message(
    header: Header,
    mac: Mac,
    signature: Signature,
    ciphertext: Option<B1624>,
    operatorPskId: Option<B16>)
  {
    function ValidateShape(): Checked<Kind> {
      var kind :- KindOf(header.messageType);
      if header.version != 1 || header.initiatorId >= header.responderId then
        Err(Invalid)
      else
        var initiator := header.senderId == header.initiatorId;
        var responder := header.senderId == header.responderId;
        if !(initiator || responder)
           || (kind == Kind.Ready && !responder)
           || ((kind == Kind.Propose || kind == Kind.Commit || kind == Kind.Abort) && !initiator) then
          Err(Invalid)
        else
          var proposal := kind == Kind.Propose;
          if ciphertext.Some? != proposal || operatorPskId.Some? != proposal then
            Err(Invalid)
          else
            Ok(kind)
    }

    /** Does the signature cover this envelope and tag under `signer`? */
    predicate VerifiedBy(signer: B67) {
      signature == Ecdsa(signer, header, mac)
    }

    function Authenticate(t: Transcript): Checked<Unit> {
      var _ :- ValidateShape();
      if header.networkId != t.networkId
         || header.initiatorId != t.initiatorId
         || header.responderId != t.responderId
         || header.initiatorBundleId != t.initiator.bundleId
         || header.responderBundleId != t.responder.bundleId
         || header.sequence != t.sequence
         || header.exchangeId != t.exchangeId
         || header.transcriptHash != Sha3(t)
         || (ciphertext.Some? && ciphertext.value != t.ciphertext)
         || (operatorPskId.Some? && operatorPskId.value != t.operatorPskId) then
        Err(Invalid)
      else
        var bundle := if header.senderId == header.initiatorId then t.initiator else t.responder;
        if VerifiedBy(bundle.sigPublicKey) then Ok(Unit) else Err(Crypto)
    }

    function Confirm(candidate: Candidate): Checked<Unit> {
      var _ :- ValidateShape();
      var key := ConfirmationKey(candidate, header.senderId == header.initiatorId);
      if mac == Hmac(key, header) then Ok(Unit) else Err(Crypto)
    }
  }

  function ConfirmationKey(candidate: Candidate, initiator: bool): Key {
    if initiator then InitiatorConfirmation(candidate) else ResponderConfirmation(candidate)
  }

  function HeaderFor(t: Transcript, kind: Kind, sender: Number): Header {
    Header(1, t.networkId, t.initiatorId, t.responderId, t.initiator.bundleId, t.responder.bundleId,
           t.sequence, t.exchangeId, Sha3(t), sender, kind.Code())
  }

  /** The message `signed` builds, before its shape is checked. */
  function Signing(t: Transcript, kind: Kind, sender: Number, candidate: Candidate, signer: B67): Message {
    var header := HeaderFor(t, kind, sender);
    var mac := Hmac(ConfirmationKey(candidate, sender == t.initiatorId), header);
    Message(header, mac, Ecdsa(signer, header, mac),
            if kind == Kind.Propose then Some(t.ciphertext) else None,
            if kind == Kind.Propose then Some(t.operatorPskId) else None)
  }

  function Signed(t: Transcript, kind: Kind, sender: Number, candidate: Candidate, signer: B67): Checked<Message> {
    var message := Signing(t, kind, sender, candidate, signer);
    var _ :- message.ValidateShape();
    Ok(message)
  }

  // ---------------------------------------------------------------- The decision machine

  datatype Phase = Proposed | Ready | Committed | Complete | Aborted

  /** One flag for each role, as the source's two-element arrays. */
  datatype Sides = Sides(initiator: bool, responder: bool) {
    predicate Of(isInitiator: bool) {
      if isInitiator then initiator else responder
    }
    function Mark(isInitiator: bool): Sides {
      if isInitiator then this.(initiator := true) else this.(responder := true)
    }
  }

  const NEITHER := Sides(false, false)
  const BOTH := Sides(true, true)

  datatype Decision = Decision(phase: Phase, installed: Sides, confirmed: Sides) {
    function Advance(kind: Kind, initiator: bool): Checked<Decision> {
      match (phase, kind)
      case (Proposed, Ready) =>
        if !initiator then Ok(this.(phase := Phase.Ready)) else Err(Conflict)
      case (Ready, Commit) =>
        if initiator then Ok(this.(phase := Phase.Committed)) else Err(Conflict)
      case (Proposed, Abort) =>
        if initiator then Ok(this.(phase := Phase.Aborted)) else Err(Conflict)
      case (Ready, Abort) =>
        if initiator then Ok(this.(phase := Phase.Aborted)) else Err(Conflict)
      case (Committed, Installed) =>
        if !initiator || installed.responder then Ok(this.(installed := installed.Mark(initiator)))
        else Err(Conflict)
      case (Committed, Confirmed) =>
        if installed.Of(initiator) then
          var both := confirmed.Mark(initiator);
          Ok(this.(confirmed := both, phase := if both == BOTH then Phase.Complete else phase))
        else Err(Conflict)
      case _ => Err(Conflict)
    }

    function Expire(): Decision {
      if phase == Phase.Proposed || phase == Phase.Ready then this.(phase := Phase.Aborted) else this
    }

    predicate Terminal() {
      phase == Phase.Complete || phase == Phase.Aborted
    }
  }

  const START := Decision(Phase.Proposed, NEITHER, NEITHER)

  // ---------------------------------------------------------------- Facts about messages

  /** A message that both authenticates and confirms is exactly what its sender signs. */
  lemma AuthenticConfirmedIsSigned(m: Message, t: Transcript, candidate: Candidate)
    requires m.Authenticate(t).Ok? && m.Confirm(candidate).Ok?
    ensures var signer := if m.header.senderId == t.initiatorId then t.initiator else t.responder;
            m.ValidateShape().Ok?
            && m == Signing(t, m.ValidateShape().value, m.header.senderId, candidate, signer.sigPublicKey)
  {
    assert m.header == HeaderFor(t, m.ValidateShape().value, m.header.senderId);
  }
}
