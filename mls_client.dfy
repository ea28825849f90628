/**
 * `MlsClient` (packages/mls-wasm/src/lib.rs): one identity and a registry of
 * group sessions keyed by a local group id, and the operations that look a
 * group up, decode and validate their inputs, call the engine, update the
 * registry, and wrap the outcome for JavaScript.
 *
 * Engine calls that depend on hidden key material or on randomness are
 * parameters of the operation that makes them: a value, or a function of the
 * inputs the engine is given. The deterministic part of the engine is the
 * client's `codec`.
 */
module MlsWasm {
  import opened Wrappers
  import opened MlsTypes
  import Utf8

  const GroupNotFound := "Group not found"

  /** The credential (the user id's bytes) and the public signature key. */
  datatype Identity = Identity(credential: Bytes, signatureKey: Bytes)

  /**
   * One iteration of key-package generation: the built package's TLS bytes and
   * hash reference, or the step that failed (build, serialise, hash).
   */
  datatype KeyPackageAttempt =
    | Built(serialized: Bytes, hashRef: Bytes)
    | BuildFailed(buildError: string)
    | SerializeFailed(serializeError: string)
    | HashFailed(hashError: string)

  function AttemptError(a: KeyPackageAttempt): string
    requires !a.Built?
  {
    match a
    case BuildFailed(e) => "Failed to create KeyPackage: " + e
    case SerializeFailed(e) => "Failed to serialize KeyPackage: " + e
    case HashFailed(e) => "Failed to get KeyPackage hash: " + e
  }

  /** The record published for a built key package. */
  function PackageData(a: KeyPackageAttempt): KeyPackageData
    requires a.Built?
  {
    KeyPackageData(Encoded(a.hashRef), Encoded(a.serialized))
  }

  /** Decoding and validating one base64 key package, with the error of the first failing step. */
  function ValidatedKeyPackage(codec: Codec, text: Base64): Result<KeyPackage, string> {
    match Base64Decode(text)
    case Failure(reason) => Failure("Invalid base64 KeyPackage: " + reason)
    case Success(bytes) =>
      match codec.decodeKeyPackage(bytes)
      case Failure(e) => Failure("Failed to deserialize KeyPackage: " + e)
      case Success(unvalidated) =>
        match codec.validateKeyPackage(unvalidated)
        case Failure(e) => Failure("Invalid KeyPackage: " + e)
        case Success(kp) => Success(kp)
  }

  /** Decoding and validating a list of key packages: all of them, or the first error. */
  function ValidatedKeyPackages(codec: Codec, texts: seq<Base64>): Result<seq<KeyPackage>, string> {
    if texts == [] then Success([])
    else
      match ValidatedKeyPackage(codec, texts[0])
      case Failure(e) => Failure(e)
      case Success(kp) =>
        match ValidatedKeyPackages(codec, texts[1..])
        case Failure(e) => Failure(e)
        case Success(kps) => Success([kp] + kps)
  }

  /** All-or-nothing: the list validates exactly when every element does, element for element. */
  lemma {:induction false} ValidatedAllOrNothing(codec: Codec, texts: seq<Base64>)
    ensures ValidatedKeyPackages(codec, texts).Success?
        <==> forall i :: 0 <= i < |texts| ==> ValidatedKeyPackage(codec, texts[i]).Success?
    ensures ValidatedKeyPackages(codec, texts).Success? ==>
      var kps := ValidatedKeyPackages(codec, texts).value;
      |kps| == |texts| && forall i :: 0 <= i < |texts| ==> ValidatedKeyPackage(codec, texts[i]) == Success(kps[i])
  {
    if texts != [] {
      ValidatedAllOrNothing(codec, texts[1..]);
      assert forall i :: 1 <= i < |texts| ==> texts[i] == texts[1..][i - 1];
    }
  }

  /** The error reported is that of the first element that fails. */
  lemma {:induction false} ValidatedFirstFailure(codec: Codec, texts: seq<Base64>, k: nat)
    requires k < |texts| && ValidatedKeyPackage(codec, texts[k]).Failure?
    requires forall i :: 0 <= i < k ==> ValidatedKeyPackage(codec, texts[i]).Success?
    ensures ValidatedKeyPackages(codec, texts) == Failure(ValidatedKeyPackage(codec, texts[k]).error)
  {
    if k > 0 {
      assert forall i :: 0 <= i < k - 1 ==> texts[1..][i] == texts[i + 1];
      ValidatedFirstFailure(codec, texts[1..], k - 1);
    }
  }

  /** The payload of a base64 text that must hold a TLS-encoded Welcome. */
  function WelcomeOf(codec: Codec, text: Base64): (r: Result<Bytes, string>)
    ensures r.Success? <==>
      text.Encoded? && codec.decodeMessage(text.bytes).Success? && codec.decodeMessage(text.bytes).value.WelcomeIn?
    ensures r.Success? ==> codec.decodeMessage(text.bytes) == Success(WelcomeIn(r.value))
    // The failing steps, in the order they are tried.
    ensures text.Malformed? ==> r == Failure("Invalid base64 welcome: " + text.reason)
    ensures text.Encoded? && codec.decodeMessage(text.bytes).Failure? ==>
      r == Failure("Failed to deserialize welcome: " + codec.decodeMessage(text.bytes).error)
    ensures text.Encoded? && codec.decodeMessage(text.bytes).Success? && !codec.decodeMessage(text.bytes).value.WelcomeIn? ==>
      r == Failure("Message is not a Welcome")
  {
    match Base64Decode(text)
    case Failure(reason) => Failure("Invalid base64 welcome: " + reason)
    case Success(bytes) =>
      match codec.decodeMessage(bytes)
      case Failure(e) => Failure("Failed to deserialize welcome: " + e)
      case Success(message) =>
        match message
        case WelcomeIn(w) => Success(w)
        case _ => Failure("Message is not a Welcome")
  }

  /** The protocol message inside a base64 text handed to `decrypt`. */
  function InboundMessage(codec: Codec, text: Base64): (r: Result<ProtocolMessage, string>)
    ensures r.Success? <==>
      text.Encoded? && codec.decodeMessage(text.bytes).Success?
      && AsProtocolMessage(codec.decodeMessage(text.bytes).value).Success?
    ensures r.Success? ==> AsProtocolMessage(codec.decodeMessage(text.bytes).value) == Success(r.value)
    // The failing steps, in the order they are tried.
    ensures text.Malformed? ==> r == Failure("Invalid base64 ciphertext: " + text.reason)
    ensures text.Encoded? && codec.decodeMessage(text.bytes).Failure? ==>
      r == Failure("Failed to deserialize message: " + codec.decodeMessage(text.bytes).error)
    ensures (text.Encoded? && codec.decodeMessage(text.bytes).Success?
             && AsProtocolMessage(codec.decodeMessage(text.bytes).value).Failure?) ==>
      r == Failure("Not a protocol message: " + AsProtocolMessage(codec.decodeMessage(text.bytes).value).error)
  {
    match Base64Decode(text)
    case Failure(reason) => Failure("Invalid base64 ciphertext: " + reason)
    case Success(bytes) =>
      match codec.decodeMessage(bytes)
      case Failure(e) => Failure("Failed to deserialize message: " + e)
      case Success(message) =>
        match AsProtocolMessage(message)
        case Failure(e) => Failure("Not a protocol message: " + e)
        case Success(pm) => Success(pm)
  }

  function JoinErrorText(e: JoinError): string {
    match e
    case StageFailed(reason) => "Failed to process welcome: " + reason
    case IntoGroupFailed(reason) => "Failed to join group: " + reason
  }

  /**
   * The reply of a successful addition: one commit and a single welcome for
   * every new member, tagged "all"; serialising either may still fail.
   */
  function AddMembersReply(codec: Codec, a: Addition): (r: JsReturn<AddMembersResult>)
    ensures r.Success? <==> codec.encodeMessage(a.commit).Success? && codec.encodeMessage(a.welcome).Success?
    ensures r.Failure? && codec.encodeMessage(a.commit).Failure? ==>
      r.error == "Failed to serialize commit: " + codec.encodeMessage(a.commit).error
    ensures codec.encodeMessage(a.commit).Success? && codec.encodeMessage(a.welcome).Failure? ==>
      r == Failure("Failed to serialize welcome: " + codec.encodeMessage(a.welcome).error)
    ensures r.Success? ==>
      && Returned(r)
      && Base64Decode(ReturnedValue(r).commit) == codec.encodeMessage(a.commit)
      && |ReturnedValue(r).welcomes| == 1
      && ReturnedValue(r).welcomes[0].keyPackageRef == "all"
      && Base64Decode(ReturnedValue(r).welcomes[0].welcome) == codec.encodeMessage(a.welcome)
  {
    match codec.encodeMessage(a.commit)
    case Failure(e) => Failure("Failed to serialize commit: " + e)
    case Success(commitBytes) =>
      match codec.encodeMessage(a.welcome)
      case Failure(e) => Failure("Failed to serialize welcome: " + e)
      case Success(welcomeBytes) =>
        Success(JsOk(AddMembersResult(Encoded(commitBytes), [WelcomeData("all", Encoded(welcomeBytes))])))
  }

  /** The reply to an application message: its text with sender index 0, or a UTF-8 error. */
  function ApplicationReply(bytes: Bytes): (r: JsReturn<DecryptedMessage>)
    ensures r.Success? <==> Utf8.Decode(bytes).Success?
    ensures r.Success? ==>
      && Returned(r)
      && Utf8.Encode(ReturnedValue(r).plaintext) == bytes
      && ReturnedValue(r).senderIndex == 0
    ensures r.Failure? ==> r.error == "Invalid UTF-8 in message: " + Utf8.ErrorText(Utf8.Decode(bytes).error)
  {
    match Utf8.Decode(bytes)
    case Success(text) =>
      Utf8.EncodeDecode(bytes);
      Success(JsOk(DecryptedMessage(text, 0)))
    case Failure(e) => Failure("Invalid UTF-8 in message: " + Utf8.ErrorText(e))
  }

  /** The envelope for a processed commit: `ok`, with neither value nor error. */
  const CommitProcessed: JsResult<DecryptedMessage> := JsResult(true, None, None)

  /** `MlsClient::new`: make the signature keys, store them, start with no groups. */
  method NewClient(userId: string, codec: Codec, keyGen: Result<Bytes, string>, stored: Outcome<string>)
    returns (r: Result<MlsClient, string>)
    ensures keyGen.Failure? ==> r == Failure("Failed to generate signature keys: " + keyGen.error)
    ensures keyGen.Success? && stored.Fail? ==> r == Failure("Failed to store signature keys: " + stored.error)
    ensures r.Success? <==> keyGen.Success? && stored.Pass?
    ensures r.Success? ==>
      && fresh(r.value) && r.value.Valid() && r.value.groups == map[]
      && r.value.codec == codec && r.value.identity == Identity(Utf8.Encode(userId), keyGen.value)
  {
    if keyGen.Failure? {
      return Failure("Failed to generate signature keys: " + keyGen.error);
    }
    if stored.Fail? {
      return Failure("Failed to store signature keys: " + stored.error);
    }
    var client := new MlsClient(codec, Identity(Utf8.Encode(userId), keyGen.value));
    r := Success(client);
  }

  class MlsClient {
    const codec: Codec
    const identity: Identity
    /** The session registry: local group id to group. */
    var groups: map<string, Group>

    /** Every local id is the lossy UTF-8 reading of its group's wire-level id. */
    ghost predicate Valid()
      reads this
    {
      forall id :: id in groups ==> Utf8.DecodeLossy(groups[id].mlsGroupId) == id
    }

    constructor (codec: Codec, identity: Identity)
      ensures this.codec == codec && this.identity == identity && groups == map[] && Valid()
    {
      this.codec := codec;
      this.identity := identity;
      groups := map[];
    }

    /**
     * `generate_key_packages`: `count` packages, one per iteration, or the
     * error of the first iteration that fails. The registry is not touched.
     */
    method GenerateKeyPackages(count: U32, build: nat -> KeyPackageAttempt) returns (r: JsReturn<seq<KeyPackageData>>)
      ensures r.Success? <==> forall i :: 0 <= i < count ==> build(i).Built?
      ensures r.Success? ==>
        && Returned(r) && |ReturnedValue(r)| == count
        && forall i :: 0 <= i < count ==> ReturnedValue(r)[i] == PackageData(build(i))
      ensures r.Failure? ==>
        exists k :: 0 <= k < count && !build(k).Built? && r.error == AttemptError(build(k))
          && forall i :: 0 <= i < k ==> build(i).Built?
    {
      var packages: seq<KeyPackageData> := [];
      var i: nat := 0;
      while i < count
        invariant i <= count && |packages| == i
        invariant forall j :: 0 <= j < i ==> build(j).Built? && packages[j] == PackageData(build(j))
      {
        var attempt := build(i);
        if !attempt.Built? {
          assert forall j :: 0 <= j < i ==> build(j).Built?;
          return Failure(AttemptError(attempt));
        }
        packages := packages + [KeyPackageData(Encoded(attempt.hashRef), Encoded(attempt.serialized))];
        i := i + 1;
      }
      r := Success(JsOk(packages));
    }

    /**
     * `create_group`: registers a new group at epoch 0 under a fresh local id,
     * whose wire-level id is the local id's UTF-8 bytes.
     */
    method CreateGroup(groupName: string, freshId: string, created: Outcome<string>) returns (r: JsReturn<GroupCreatedData>)
      requires Valid()
      modifies this
      ensures Valid()
      ensures created.Fail? ==> r == Failure("Failed to create group: " + created.error) && groups == old(groups)
      ensures created.Pass? ==>
        && groups == old(groups)[freshId := NewGroup(Utf8.Encode(freshId))]
        && r == Success(JsOk(GroupCreatedData(freshId, Encoded(Utf8.Encode(freshId)))))
      ensures created.Pass? && freshId !in old(groups) ==> |groups| == |old(groups)| + 1
    {
      var mlsGroupId := Utf8.Encode(freshId);
      if created.Fail? {
        return Failure("Failed to create group: " + created.error);
      }
      Utf8.DecodeLossyEncode(freshId);
      groups := groups[freshId := NewGroup(mlsGroupId)];
      r := Success(JsOk(GroupCreatedData(freshId, Encoded(mlsGroupId))));
    }

    /**
     * `join_group`: only a Welcome is accepted; the joined group is registered
     * under the lossy text of its wire-level id, replacing any entry there.
     */
    method JoinGroup(welcome: Base64, join: Bytes -> Result<Group, JoinError>) returns (r: JsReturn<GroupCreatedData>)
      requires Valid()
      modifies this
      ensures Valid()
      ensures WelcomeOf(codec, welcome).Failure? ==>
        r == Failure(WelcomeOf(codec, welcome).error) && groups == old(groups)
      ensures WelcomeOf(codec, welcome).Success? && join(WelcomeOf(codec, welcome).value).Failure? ==>
        r == Failure(JoinErrorText(join(WelcomeOf(codec, welcome).value).error)) && groups == old(groups)
      ensures WelcomeOf(codec, welcome).Success? && join(WelcomeOf(codec, welcome).value).Success? ==>
        var g := join(WelcomeOf(codec, welcome).value).value;
        var id := Utf8.DecodeLossy(g.mlsGroupId);
        && groups == old(groups)[id := g]
        && r == Success(JsOk(GroupCreatedData(id, Encoded(g.mlsGroupId))))
    {
      var payload :- WelcomeOf(codec, welcome);
      var joined := join(payload);
      if joined.Failure? {
        return Failure(JoinErrorText(joined.error));
      }
      var g := joined.value;
      var id := Utf8.DecodeLossy(g.mlsGroupId);
      groups := groups[id := g];
      r := Success(JsOk(GroupCreatedData(id, Encoded(g.mlsGroupId))));
    }

    /** Decodes and validates every key package before any is used: all of them, or the first error. */
    method DecodeKeyPackages(texts: seq<Base64>) returns (r: Result<seq<KeyPackage>, string>)
      ensures r == ValidatedKeyPackages(codec, texts)
      ensures r.Success? ==> |r.value| == |texts|
    {
      var packages: seq<KeyPackage> := [];
      for i := 0 to |texts|
        invariant |packages| == i
        invariant forall j :: 0 <= j < i ==> ValidatedKeyPackage(codec, texts[j]) == Success(packages[j])
      {
        var checked := ValidatedKeyPackage(codec, texts[i]);
        if checked.Failure? {
          ValidatedFirstFailure(codec, texts, i);
          return Failure(checked.error);
        }
        packages := packages + [checked.value];
      }
      ValidatedAllOrNothing(codec, texts);
      assert packages == ValidatedKeyPackages(codec, texts).value;
      r := Success(packages);
    }

    /**
     * `add_members`: look the group up, validate every key package, let the
     * engine build the commit, merge it (the epoch advances), then serialise.
     * A serialisation failure is reported after the merge has happened.
     */
    method AddMembers(groupId: string, keyPackages: seq<Base64>,
                      add: (Group, seq<KeyPackage>) -> Result<Addition, string>, merge: MergeOutcome)
      returns (r: JsReturn<AddMembersResult>)
      requires Valid()
      modifies this
      ensures Valid()
      ensures groupId !in old(groups) ==> r == Failure(GroupNotFound) && groups == old(groups)
      ensures groupId in old(groups) && ValidatedKeyPackages(codec, keyPackages).Failure? ==>
        r == Failure(ValidatedKeyPackages(codec, keyPackages).error) && groups == old(groups)
      ensures groupId in old(groups) && ValidatedKeyPackages(codec, keyPackages).Success? ==>
        var g := old(groups)[groupId];
        var added := add(g, ValidatedKeyPackages(codec, keyPackages).value);
        && (added.Failure? ==> r == Failure("Failed to add members: " + added.error) && groups == old(groups))
        && (added.Success? && merge.MergeFailed? ==>
              r == Failure("Failed to merge commit: " + merge.error)
              && groups == old(groups)[groupId := AfterMerge(g, merge)])
        && (added.Success? && merge.MergeOk? ==>
              groups == old(groups)[groupId := Merged(g)] && r == AddMembersReply(codec, added.value))
      ensures r.Success? ==> groupId in old(groups) && groups == old(groups)[groupId := Merged(old(groups)[groupId])]
    {
      if groupId !in groups {
        return Failure(GroupNotFound);
      }
      var g := groups[groupId];
      var validated := DecodeKeyPackages(keyPackages);
      if validated.Failure? {
        return Failure(validated.error);
      }
      var added := add(g, validated.value);
      if added.Failure? {
        return Failure("Failed to add members: " + added.error);
      }
      groups := groups[groupId := AfterMerge(g, merge)];
      if merge.MergeFailed? {
        return Failure("Failed to merge commit: " + merge.error);
      }
      r := AddMembersReply(codec, added.value);
    }

    /**
     * `encrypt`: the engine frames the plaintext's UTF-8 bytes for the group;
     * the reply carries the serialised frame and the group's epoch.
     */
    method Encrypt(groupId: string, plaintext: string, createMessage: (Group, Bytes) -> Result<MessageOut, string>)
      returns (r: JsReturn<EncryptedMessage>)
      ensures groupId !in groups ==> r == Failure(GroupNotFound)
      ensures groupId in groups ==>
        var created := createMessage(groups[groupId], Utf8.Encode(plaintext));
        && (created.Failure? ==> r == Failure("Failed to encrypt: " + created.error))
        && (created.Success? && codec.encodeMessage(created.value).Failure? ==>
              r == Failure("Failed to serialize ciphertext: " + codec.encodeMessage(created.value).error))
        && (created.Success? && codec.encodeMessage(created.value).Success? ==>
              Returned(r)
              && Base64Decode(ReturnedValue(r).ciphertext) == codec.encodeMessage(created.value)
              && ReturnedValue(r).epoch == groups[groupId].epoch)
    {
      if groupId !in groups {
        return Failure(GroupNotFound);
      }
      var g := groups[groupId];
      var ciphertext := createMessage(g, Utf8.Encode(plaintext));
      if ciphertext.Failure? {
        return Failure("Failed to encrypt: " + ciphertext.error);
      }
      var ciphertextBytes := codec.encodeMessage(ciphertext.value);
      if ciphertextBytes.Failure? {
        return Failure("Failed to serialize ciphertext: " + ciphertextBytes.error);
      }
      var epoch := groups[groupId].epoch;
      r := Success(JsOk(EncryptedMessage(Encoded(ciphertextBytes.value), epoch)));
    }

    /**
     * `decrypt`: look the group up, decode the frame, let the engine process
     * it, and dispatch on what it holds.
     */
    method Decrypt(groupId: string, ciphertext: Base64,
                   process: (Group, ProtocolMessage) -> Result<ProcessedContent, string>, merge: MergeOutcome)
      returns (r: JsReturn<DecryptedMessage>)
      requires Valid()
      modifies this
      ensures Valid()
      ensures groupId !in old(groups) ==> r == Failure(GroupNotFound) && groups == old(groups)
      ensures groupId in old(groups) ==>
        var g := old(groups)[groupId];
        var message := InboundMessage(codec, ciphertext);
        && (message.Failure? ==> r == Failure(message.error) && groups == old(groups))
        && (message.Success? && process(g, message.value).Failure? ==>
              r == Failure("Failed to process message: " + process(g, message.value).error)
              && groups == old(groups))
        && (message.Success? && process(g, message.value).Success? ==>
              match process(g, message.value).value
              case ApplicationMessage(bytes) => r == ApplicationReply(bytes) && groups == old(groups)
              case ProposalMessage =>
                r == Failure("Received proposal, not application message") && groups == old(groups)
              case ExternalJoinProposalMessage =>
                r == Failure("Received external join proposal") && groups == old(groups)
              case StagedCommitMessage =>
                && groups == old(groups)[groupId := AfterMerge(g, merge)]
                && (merge.MergeFailed? ==> r == Failure("Failed to merge commit: " + merge.error))
                && (merge.MergeOk? ==> r == Success(CommitProcessed)))
    {
      if groupId !in groups {
        return Failure(GroupNotFound);
      }
      var g := groups[groupId];
      var message :- InboundMessage(codec, ciphertext);
      var processed := process(g, message);
      if processed.Failure? {
        return Failure("Failed to process message: " + processed.error);
      }
      match processed.value {
        case ApplicationMessage(bytes) =>
          r := ApplicationReply(bytes);
        case ProposalMessage =>
          r := Failure("Received proposal, not application message");
        case StagedCommitMessage =>
          groups := groups[groupId := AfterMerge(g, merge)];
          if merge.MergeFailed? {
            return Failure("Failed to merge commit: " + merge.error);
          }
          r := Success(CommitProcessed);
        case ExternalJoinProposalMessage =>
          r := Failure("Received external join proposal");
      }
    }

    /** `get_epoch`: the group's current epoch, or "Group not found". */
    method GetEpoch(groupId: string) returns (r: Result<nat, string>)
      ensures r.Success? <==> groupId in groups
      ensures r.Success? ==> r.value == groups[groupId].epoch
      ensures r.Failure? ==> r.error == GroupNotFound
    {
      if groupId !in groups {
        return Failure(GroupNotFound);
      }
      r := Success(groups[groupId].epoch);
    }

    /** The exported form of the registry entry `id`. */
    ghost predicate ExportedAs(e: ExportedGroup, id: string)
      reads this
    {
      && id in groups
      && e.id == id
      && e.mlsGroupId == Encoded(groups[id].mlsGroupId)
      && codec.exportRatchetTree(groups[id]).Success?
      && e.state == Encoded(codec.exportRatchetTree(groups[id]).value)
    }

    /**
     * `export_state`: the identity and one exported entry per registry entry,
     * visited in the map's unspecified order; the registry is not touched.
     */
    method ExportState() returns (r: JsReturn<ExportedState>)
      ensures r.Success? <==> forall id :: id in groups ==> codec.exportRatchetTree(groups[id]).Success?
      ensures r.Failure? ==>
        exists id :: id in groups && codec.exportRatchetTree(groups[id]).Failure?
          && r.error == "Failed to export group: " + codec.exportRatchetTree(groups[id]).error
      ensures r.Success? ==>
        && Returned(r)
        && var state := ReturnedValue(r);
        && state.credential == Encoded(identity.credential)
        && state.signatureKey == Encoded(identity.signatureKey)
        && |state.groups| == |groups|
        && (forall i :: 0 <= i < |state.groups| ==> ExportedAs(state.groups[i], state.groups[i].id))
        && (forall i, j :: 0 <= i < j < |state.groups| ==> state.groups[i].id != state.groups[j].id)
        && (forall id :: id in groups ==> exists i :: 0 <= i < |state.groups| && state.groups[i].id == id)
    {
      var exported: seq<ExportedGroup> := [];
      var remaining := groups.Keys;
      while remaining != {}
        invariant remaining <= groups.Keys
        invariant |exported| + |remaining| == |groups|
        invariant forall i :: 0 <= i < |exported| ==> ExportedAs(exported[i], exported[i].id) && exported[i].id !in remaining
        invariant forall i, j :: 0 <= i < j < |exported| ==> exported[i].id != exported[j].id
        invariant forall id :: id in groups && id !in remaining ==> exists i :: 0 <= i < |exported| && exported[i].id == id
        decreases |remaining|
      {
        var id :| id in remaining;
        var g := groups[id];
        var tree := codec.exportRatchetTree(g);
        if tree.Failure? {
          return Failure("Failed to export group: " + tree.error);
        }
        ghost var before := exported;
        exported := exported + [ExportedGroup(id, Encoded(g.mlsGroupId), Encoded(tree.value))];
        assert forall k :: 0 <= k < |before| ==> exported[k] == before[k];
        assert exported[|before|].id == id;
        remaining := remaining - {id};
      }
      r := Success(JsOk(ExportedState(Encoded(identity.credential), Encoded(identity.signatureKey), exported)));
    }
  }
  /**
   * A group created by one client and joined by another gets the same local
   * id on both sides: the joiner reads the creator's id back from its bytes.
   */
  lemma JoinerSeesCreatorId(creatorId: string)
    ensures Utf8.DecodeLossy(NewGroup(Utf8.Encode(creatorId)).mlsGroupId) == creatorId
  {
    Utf8.DecodeLossyEncode(creatorId);
  }

  /** Distinct wire-level group ids that are not UTF-8 can share one local id. */
  lemma LossyLocalIdsCanCollide()
    ensures Utf8.DecodeLossy([0xFE]) == Utf8.DecodeLossy([0xFF]) == [Utf8.Replacement]
  {
    assert Utf8.ScanHead([0xFE]) == Utf8.IllFormed(1, false);
    assert Utf8.ScanHead([0xFF]) == Utf8.IllFormed(1, false);
  }

  /**
   * Create a group, add members to it, and read the epoch around the
   * addition: 0 after creation, 1 after a merged addition even when the reply
   * then fails to serialise, and still 0 when a key package is rejected.
   */
  method CreateThenAddScenario(codec: Codec, identity: Identity, freshId: string, keyPackages: seq<Base64>,
                               add: (Group, seq<KeyPackage>) -> Result<Addition, string>, merge: MergeOutcome)
    returns (epochAfterCreate: Result<nat, string>, added: JsReturn<AddMembersResult>, epochAfterAdd: Result<nat, string>)
    ensures epochAfterCreate == Success(0)
    ensures added.Success? ==> epochAfterAdd == Success(1)
    ensures ValidatedKeyPackages(codec, keyPackages).Failure? ==> added.Failure? && epochAfterAdd == Success(0)
    ensures
      (&& ValidatedKeyPackages(codec, keyPackages).Success?
       && add(NewGroup(Utf8.Encode(freshId)), ValidatedKeyPackages(codec, keyPackages).value).Success?
       && merge.MergeOk?)
      ==> epochAfterAdd == Success(1)
  {
    var client := new MlsClient(codec, identity);
    var created := client.CreateGroup("chat", freshId, Pass);
    epochAfterCreate := client.GetEpoch(freshId);
    added := client.AddMembers(freshId, keyPackages, add, merge);
    epochAfterAdd := client.GetEpoch(freshId);
  }
}
