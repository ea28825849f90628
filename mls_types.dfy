/**
 * Values that cross the MLS client's boundary (packages/mls-wasm/src/lib.rs):
 * the `JsResult` envelope, the records it carries, base64 text, and the
 * abstract view of OpenMLS (RFC 9420) that the client orchestrates.
 */
module MlsTypes {
  import opened Wrappers
  import Utf8

  type Bytes = Utf8.Bytes

  /** `u32`, the width of the key-package count. */
  type U32 = n: nat | n < 0x1_0000_0000

  // ---------------------------------------------------------------------------
  // The envelope returned to JavaScript

  datatype JsResult<T> = JsResult(ok: bool, value: Option<T>, error: Option<string>) {

    /** `ok` agrees with the absence of an error, and a value only comes with `ok`. */
    predicate Consistent() {
      (ok <==> error.None?) && (value.Some? ==> ok)
    }

    /** A successful envelope that carries a value. */
    predicate HasValue() {
      ok && value.Some?
    }

    function Get(): T
      requires value.Some?
    {
      value.value
    }
  }

  /** `JsResult::ok`. */
  function JsOk<T>(v: T): (r: JsResult<T>)
    ensures r.Consistent() && r.HasValue() && r.Get() == v
    ensures r.ok <==> r.value.Some?
  {
    JsResult(true, Some(v), None)
  }

  /** `JsResult::err`. */
  function JsErr<T>(e: string): (r: JsResult<T>)
    ensures r.Consistent() && !r.ok && r.error == Some(e)
    ensures r.ok <==> r.value.Some?
  {
    JsResult(false, None, Some(e))
  }

  /**
   * What a `#[wasm_bindgen]` method hands back: either it returns the envelope,
   * or it fails with an error message (a thrown JavaScript error).
   */
  type JsReturn<T> = Result<JsResult<T>, string>

  /** The call returned an `ok` envelope carrying a value. */
  predicate Returned<T>(r: JsReturn<T>) {
    r.Success? && r.value.HasValue()
  }

  function ReturnedValue<T>(r: JsReturn<T>): T
    requires Returned(r)
  {
    r.value.Get()
  }

  // ---------------------------------------------------------------------------
  // Base64 text (RFC 4648, standard alphabet)

  /**
   * A string that crosses the JavaScript boundary as base64: the encoding of
   * some bytes, or a text the decoder rejects (with the decoder's reason).
   */
  datatype Base64 = Encoded(bytes: Bytes) | Malformed(reason: string)

  function Base64Decode(t: Base64): (r: Result<Bytes, string>)
    ensures r.Success? <==> t.Encoded?
    ensures t.Encoded? ==> r.value == t.bytes
  {
    match t
    case Encoded(b) => Success(b)
    case Malformed(reason) => Failure(reason)
  }

  // ---------------------------------------------------------------------------
  // Records returned to JavaScript

  datatype KeyPackageData = KeyPackageData(id: Base64, data: Base64)
  datatype GroupCreatedData = GroupCreatedData(groupId: string, mlsGroupId: Base64)
  datatype WelcomeData = WelcomeData(keyPackageRef: string, welcome: Base64)
  datatype AddMembersResult = AddMembersResult(commit: Base64, welcomes: seq<WelcomeData>)
  datatype EncryptedMessage = EncryptedMessage(ciphertext: Base64, epoch: nat)
  datatype DecryptedMessage = DecryptedMessage(plaintext: string, senderIndex: nat)
  datatype ExportedGroup = ExportedGroup(id: string, mlsGroupId: Base64, state: Base64)
  datatype ExportedState = ExportedState(credential: Base64, signatureKey: Base64, groups: seq<ExportedGroup>)

  // ---------------------------------------------------------------------------
  // The abstract view of OpenMLS

  /**
   * An `MlsGroup` as the client sees it: the wire-level group id, the current
   * epoch, and whether a self-issued commit is waiting to be merged.
   */
  datatype Group = Group(mlsGroupId: Bytes, epoch: nat, pendingCommit: bool)

  /** A freshly created group: epoch 0 (section 11 of RFC 9420), nothing pending. */
  function NewGroup(mlsGroupId: Bytes): Group {
    Group(mlsGroupId, 0, false)
  }

  /** Merging a commit moves the group to the next epoch (section 12.4 of RFC 9420). */
  function Merged(g: Group): (m: Group)
    ensures m.mlsGroupId == g.mlsGroupId && m.epoch == g.epoch + 1 && !m.pendingCommit
  {
    g.(epoch := g.epoch + 1, pendingCommit := false)
  }

  /**
   * What the engine reports when asked to merge a commit. A failed merge
   * carries its error and the epoch and pending flag the engine leaves the
   * group with: the client does not decide them, and the group keeps its
   * wire-level id either way.
   */
  datatype MergeOutcome = MergeOk | MergeFailed(error: string, epoch: nat, pendingCommit: bool)

  /** The group after a merge the engine reports as `m`. */
  function AfterMerge(g: Group, m: MergeOutcome): (h: Group)
    ensures h.mlsGroupId == g.mlsGroupId
    ensures m.MergeOk? ==> h == Merged(g)
    ensures m.MergeFailed? ==> h.epoch == m.epoch && h.pendingCommit == m.pendingCommit
  {
    match m
    case MergeOk => Merged(g)
    case MergeFailed(_, epoch, pending) => g.(epoch := epoch, pendingCommit := pending)
  }

  /** The body of an inbound `MlsMessageIn`, by wire format (section 6 of RFC 9420). */
  datatype MessageIn =
    | PublicMessageIn(content: Bytes)
    | PrivateMessageIn(content: Bytes)
    | WelcomeIn(welcome: Bytes)
    | GroupInfoIn(groupInfo: Bytes)
    | KeyPackageIn(keyPackage: Bytes)

  /** A framed handshake or application message addressed to a group. */
  datatype ProtocolMessage = PublicProtocolMessage(content: Bytes) | PrivateProtocolMessage(content: Bytes)

  /** The engine's rendering of its `WrongWireFormat` error. */
  const WrongWireFormat := "WrongWireFormat"

  /** `MlsMessageIn::try_into_protocol_message`: only public and private messages qualify. */
  function AsProtocolMessage(m: MessageIn): (r: Result<ProtocolMessage, string>)
    ensures r.Success? <==> m.PublicMessageIn? || m.PrivateMessageIn?
    ensures m.PublicMessageIn? ==> r == Success(PublicProtocolMessage(m.content))
    ensures m.PrivateMessageIn? ==> r == Success(PrivateProtocolMessage(m.content))
    ensures r.Failure? ==> r.error == WrongWireFormat
  {
    match m
    case PublicMessageIn(c) => Success(PublicProtocolMessage(c))
    case PrivateMessageIn(c) => Success(PrivateProtocolMessage(c))
    case _ => Failure(WrongWireFormat)
  }

  /** `ProcessedMessageContent`: what processing an inbound protocol message produced. */
  datatype ProcessedContent =
    | ApplicationMessage(bytes: Bytes)
    | ProposalMessage
    | StagedCommitMessage
    | ExternalJoinProposalMessage

  /** A deserialised key package before and after validation. */
  datatype UnvalidatedKeyPackage = UnvalidatedKeyPackage(content: Bytes)
  datatype KeyPackage = KeyPackage(content: Bytes)

  /** An outbound message the engine built (a commit, a welcome, a ciphertext). */
  datatype MessageOut = MessageOut(content: Bytes)

  /** The commit and the welcome that adding members yields. */
  datatype Addition = Addition(commit: MessageOut, welcome: MessageOut)

  /** Why joining from a welcome failed: staging it, or turning it into a group. */
  datatype JoinError = StageFailed(reason: string) | IntoGroupFailed(reason: string)

  /**
   * The deterministic part of the engine: the TLS codec, key-package
   * validation and ratchet-tree export, each of which may fail.
   */
  datatype Codec = Codec(
    decodeMessage: Bytes -> Result<MessageIn, string>,
    decodeKeyPackage: Bytes -> Result<UnvalidatedKeyPackage, string>,
    validateKeyPackage: UnvalidatedKeyPackage -> Result<KeyPackage, string>,
    encodeMessage: MessageOut -> Result<Bytes, string>,
    exportRatchetTree: Group -> Result<Bytes, string>)
}
