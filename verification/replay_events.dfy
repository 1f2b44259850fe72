/** Turning the messages of a replayed block into the events that the websocket would have carried
    (catchup.go), and reading those events (parser.go of greenfield-client). */
module ReplayEvents {
  import opened Wrappers
  import opened Text
  import Subscription

  const MSG_CREATE_OBJECT := "/greenfield.storage.MsgCreateObject"
  const MSG_UPDATE_OBJECT_CONTENT := "/greenfield.storage.MsgUpdateObjectContent"
  const MSG_SET_TAG := "/greenfield.storage.MsgSetTag"

  const EVENT_CREATE_OBJECT := "greenfield.storage.EventCreateObject"
  const EVENT_UPDATE_OBJECT_CONTENT := "greenfield.storage.EventUpdateObjectContent"
  const EVENT_SET_TAG := "greenfield.storage.EventSetTag"

  /** A transaction message; `tags` is the tag set in its JSON text. */
  datatype TxMessage = TxMessage(
    typeUrl: string, bucketName: string, objectName: string, creator: string, operator: string,
    contentType: string, payloadSize: string, expectChecksums: seq<string>, createAt: string,
    version: string, resource: string, tags: Option<string>)

  datatype AbciEvent = AbciEvent(typeUrl: string, attributes: map<string, string>)

  datatype TxEvent = TxEvent(height: int, txHash: string, events: seq<AbciEvent>)

  datatype CreateObjectEvent = CreateObjectEvent(
    blockHeight: int, txHash: string, bucketName: string, contentType: string, createAt: int,
    creator: string, objectName: string, payloadSize: int, checksums: seq<string>, version: int)

  datatype UpdateObjectContentEvent = UpdateObjectContentEvent(
    blockHeight: int, txHash: string, operator: string, bucketName: string, objectName: string,
    payloadSize: int, checksums: seq<string>, version: int)

  datatype ParseError = MissingAttribute(name: string) | BadNumber(name: string)

  // ---- checksums ----

  function JoinChecksums(checksums: seq<string>): string {
    Join(checksums, ',')
  }

  function ParseChecksums(raw: string): seq<string> {
    if raw == "" then [] else Split(raw, ',')
  }

  /** Joining what was parsed gives the text back, for every text. */
  lemma JoinOfParsedChecksums(raw: string)
    ensures JoinChecksums(ParseChecksums(raw)) == raw
  {
    JoinOfSplit(raw, ',');
  }

  /** Parsing what was joined gives the list back exactly when no checksum has a comma and the list
      is not one empty checksum. */
  lemma ParseOfJoinedChecksums(checksums: seq<string>)
    ensures ParseChecksums(JoinChecksums(checksums)) == checksums
        <==> AllFree(checksums, ',') && checksums != [""]
  {
    var raw := JoinChecksums(checksums);
    SplitPartsAreFree(raw, ',');
    if checksums != [] && AllFree(checksums, ',') {
      SplitOfJoin(checksums, ',');
      assert Split("", ',') == [""];
    }
  }

  // ---- messages to events ----

  function MessageToAbciEvent(msg: TxMessage): Option<AbciEvent> {
    if msg.typeUrl == MSG_CREATE_OBJECT then
      Some(AbciEvent(EVENT_CREATE_OBJECT, map[
        "bucket_name" := msg.bucketName, "object_name" := msg.objectName, "creator" := msg.creator,
        "content_type" := msg.contentType, "payload_size" := msg.payloadSize,
        "checksums" := JoinChecksums(msg.expectChecksums), "create_at" := msg.createAt,
        "version" := msg.version]))
    else if msg.typeUrl == MSG_UPDATE_OBJECT_CONTENT then
      Some(AbciEvent(EVENT_UPDATE_OBJECT_CONTENT, map[
        "bucket_name" := msg.bucketName, "object_name" := msg.objectName, "operator" := msg.operator,
        "payload_size" := msg.payloadSize, "checksums" := JoinChecksums(msg.expectChecksums),
        "version" := msg.version]))
    else if msg.typeUrl == MSG_SET_TAG then
      var attributes := map["resource" := msg.resource];
      Some(AbciEvent(EVENT_SET_TAG,
        if msg.tags.Some? then attributes["tags" := msg.tags.value] else attributes))
    else None
  }

  /** The number that a text stands for: the empty text stands for zero, and other texts need not be
      canonical. */
  function SignedValue(text: string): Option<int> {
    if text == "" then Some(0) else ParseInt64(text)
  }

  function UnsignedValue(text: string): Option<int> {
    if text == "" then Some(0) else ParseUint64(text)
  }

  function ParseOptionalInt64(attributes: map<string, string>, key: string): Option<int> {
    if key !in attributes then Some(0) else SignedValue(attributes[key])
  }

  function ParseOptionalUint64(attributes: map<string, string>, key: string): Option<int> {
    if key !in attributes then Some(0) else UnsignedValue(attributes[key])
  }

  function AttributeOr(attributes: map<string, string>, key: string): string {
    if key in attributes then attributes[key] else ""
  }

  function ExtractCreateObjectEvent(tx: TxEvent, event: AbciEvent): Result<CreateObjectEvent, ParseError> {
    var attributes := event.attributes;
    if "bucket_name" !in attributes then Failure(MissingAttribute("bucket_name"))
    else if "object_name" !in attributes then Failure(MissingAttribute("object_name"))
    else if ParseOptionalInt64(attributes, "create_at").None? then Failure(BadNumber("create_at"))
    else if ParseOptionalUint64(attributes, "payload_size").None? then Failure(BadNumber("payload_size"))
    else if ParseOptionalInt64(attributes, "version").None? then Failure(BadNumber("version"))
    else Success(CreateObjectEvent(
      tx.height, tx.txHash, attributes["bucket_name"], AttributeOr(attributes, "content_type"),
      ParseOptionalInt64(attributes, "create_at").value, AttributeOr(attributes, "creator"),
      attributes["object_name"], ParseOptionalUint64(attributes, "payload_size").value,
      ParseChecksums(AttributeOr(attributes, "checksums")), ParseOptionalInt64(attributes, "version").value))
  }

  function ExtractUpdateObjectContentEvent(tx: TxEvent, event: AbciEvent): Result<UpdateObjectContentEvent, ParseError> {
    var attributes := event.attributes;
    if "bucket_name" !in attributes then Failure(MissingAttribute("bucket_name"))
    else if "object_name" !in attributes then Failure(MissingAttribute("object_name"))
    else if ParseOptionalUint64(attributes, "payload_size").None? then Failure(BadNumber("payload_size"))
    else if ParseOptionalInt64(attributes, "version").None? then Failure(BadNumber("version"))
    else Success(UpdateObjectContentEvent(
      tx.height, tx.txHash, AttributeOr(attributes, "operator"), attributes["bucket_name"],
      attributes["object_name"], ParseOptionalUint64(attributes, "payload_size").value,
      ParseChecksums(AttributeOr(attributes, "checksums")), ParseOptionalInt64(attributes, "version").value))
  }

  /** A number in canonical form stands for itself exactly if it is in range. */
  lemma CanonicalNumbersParse(value: int)
    ensures SignedValue(Decimal(value)) == if MIN_INT64 <= value <= MAX_INT64 then Some(value) else None
    ensures UnsignedValue(Decimal(value)) == if 0 <= value <= MAX_UINT64 then Some(value) else None
  {
    DecimalRoundTrip(value);
    if value >= 0 {
      DigitsRoundTrip(value);
    }
  }

  /** The attributes that the event of a creation carries. */
  ghost predicate CarriesCreate(a: map<string, string>, msg: TxMessage) {
    && "bucket_name" in a && a["bucket_name"] == msg.bucketName
    && "object_name" in a && a["object_name"] == msg.objectName
    && "creator" in a && a["creator"] == msg.creator
    && "content_type" in a && a["content_type"] == msg.contentType
    && "payload_size" in a && a["payload_size"] == msg.payloadSize
    && "checksums" in a && a["checksums"] == JoinChecksums(msg.expectChecksums)
    && "create_at" in a && a["create_at"] == msg.createAt
    && "version" in a && a["version"] == msg.version
  }

  lemma CreateMessageCarries(msg: TxMessage)
    requires msg.typeUrl == MSG_CREATE_OBJECT
    ensures CarriesCreate(MessageToAbciEvent(msg).value.attributes, msg)
  {
  }

  lemma CarriedCreateDecodes(tx: TxEvent, event: AbciEvent, msg: TxMessage)
    requires CarriesCreate(event.attributes, msg)
    requires SignedValue(msg.createAt).Some? && UnsignedValue(msg.payloadSize).Some? && SignedValue(msg.version).Some?
    ensures ExtractCreateObjectEvent(tx, event) == Success(CreateObjectEvent(
              tx.height, tx.txHash, msg.bucketName, msg.contentType, SignedValue(msg.createAt).value, msg.creator,
              msg.objectName, UnsignedValue(msg.payloadSize).value,
              ParseChecksums(JoinChecksums(msg.expectChecksums)), SignedValue(msg.version).value))
  {
  }

  /** A replayed creation whose numbers parse decodes to what the message said, if and only if joining
      its checksums loses nothing. */
  lemma CreateObjectRoundTrip(tx: TxEvent, msg: TxMessage)
    requires msg.typeUrl == MSG_CREATE_OBJECT
    requires SignedValue(msg.createAt).Some? && UnsignedValue(msg.payloadSize).Some? && SignedValue(msg.version).Some?
    ensures MessageToAbciEvent(msg).Some? && MessageToAbciEvent(msg).value.typeUrl == EVENT_CREATE_OBJECT
    ensures ExtractCreateObjectEvent(tx, MessageToAbciEvent(msg).value) == Success(CreateObjectEvent(
              tx.height, tx.txHash, msg.bucketName, msg.contentType, SignedValue(msg.createAt).value, msg.creator,
              msg.objectName, UnsignedValue(msg.payloadSize).value, msg.expectChecksums, SignedValue(msg.version).value))
        <==> AllFree(msg.expectChecksums, ',') && msg.expectChecksums != [""]
  {
    CreateMessageCarries(msg);
    ParseOfJoinedChecksums(msg.expectChecksums);
    CarriedCreateDecodes(tx, MessageToAbciEvent(msg).value, msg);
  }

  /** So does a replayed update. */
  lemma UpdateObjectContentRoundTrip(tx: TxEvent, msg: TxMessage)
    requires msg.typeUrl == MSG_UPDATE_OBJECT_CONTENT
    requires UnsignedValue(msg.payloadSize).Some? && SignedValue(msg.version).Some?
    ensures MessageToAbciEvent(msg).Some? && MessageToAbciEvent(msg).value.typeUrl == EVENT_UPDATE_OBJECT_CONTENT
    ensures ExtractUpdateObjectContentEvent(tx, MessageToAbciEvent(msg).value) == Success(UpdateObjectContentEvent(
              tx.height, tx.txHash, msg.operator, msg.bucketName, msg.objectName, UnsignedValue(msg.payloadSize).value,
              msg.expectChecksums, SignedValue(msg.version).value))
        <==> AllFree(msg.expectChecksums, ',') && msg.expectChecksums != [""]
  {
    ParseOfJoinedChecksums(msg.expectChecksums);
  }

  /** Whether a replayed creation or update decodes at all depends on its numbers alone. */
  lemma ReplayedEventDecodesIffNumbersParse(tx: TxEvent, msg: TxMessage)
    requires msg.typeUrl == MSG_CREATE_OBJECT || msg.typeUrl == MSG_UPDATE_OBJECT_CONTENT
    ensures var event := MessageToAbciEvent(msg).value;
            var decodes := if msg.typeUrl == MSG_CREATE_OBJECT then ExtractCreateObjectEvent(tx, event).Success?
                           else ExtractUpdateObjectContentEvent(tx, event).Success?;
            decodes <==> (msg.typeUrl == MSG_CREATE_OBJECT ==> SignedValue(msg.createAt).Some?)
                         && UnsignedValue(msg.payloadSize).Some? && SignedValue(msg.version).Some?
  {
  }

  // ---- events as they come ----

  /** `value` is the number under a key: zero if the key is absent or its text empty. */
  predicate ReadsSigned(a: map<string, string>, key: string, value: int) {
    if key !in a || a[key] == "" then value == 0 else ParseInt64(a[key]) == Some(value)
  }

  predicate ReadsUnsigned(a: map<string, string>, key: string, value: int) {
    if key !in a || a[key] == "" then value == 0 else ParseUint64(a[key]) == Some(value)
  }

  predicate ReadsText(a: map<string, string>, key: string, value: string) {
    value == if key in a then a[key] else ""
  }

  /** The attribute that the error names is missing, or is there and is no number. */
  predicate Faulty(a: map<string, string>, error: ParseError) {
    match error
    case MissingAttribute(key) => key in {"bucket_name", "object_name"} && key !in a
    case BadNumber(key) =>
      && key in {"create_at", "payload_size", "version"} && key in a && a[key] != ""
      && (if key == "payload_size" then ParseUint64(a[key]) else ParseInt64(a[key])).None?
  }

  /** A creation of any origin decodes, for whatever it carries besides, to what its attributes say; and
      an error names an attribute that is really at fault. */
  lemma CreationDecodesToItsAttributes(tx: TxEvent, event: AbciEvent)
    ensures var a := event.attributes;
            match ExtractCreateObjectEvent(tx, event)
            case Success(e) =>
              && e.blockHeight == tx.height && e.txHash == tx.txHash
              && "bucket_name" in a && "object_name" in a
              && e.bucketName == a["bucket_name"] && e.objectName == a["object_name"]
              && ReadsText(a, "content_type", e.contentType) && ReadsText(a, "creator", e.creator)
              && ReadsSigned(a, "create_at", e.createAt) && ReadsSigned(a, "version", e.version)
              && ReadsUnsigned(a, "payload_size", e.payloadSize)
              && ReadsText(a, "checksums", Join(e.checksums, ','))
            case Failure(error) => Faulty(a, error)
  {
    JoinOfParsedChecksums(AttributeOr(event.attributes, "checksums"));
  }

  /** So does an update. */
  lemma UpdateDecodesToItsAttributes(tx: TxEvent, event: AbciEvent)
    ensures var a := event.attributes;
            match ExtractUpdateObjectContentEvent(tx, event)
            case Success(e) =>
              && e.blockHeight == tx.height && e.txHash == tx.txHash
              && "bucket_name" in a && "object_name" in a
              && e.bucketName == a["bucket_name"] && e.objectName == a["object_name"]
              && ReadsText(a, "operator", e.operator) && ReadsSigned(a, "version", e.version)
              && ReadsUnsigned(a, "payload_size", e.payloadSize)
              && ReadsText(a, "checksums", Join(e.checksums, ','))
            case Failure(error) => error != BadNumber("create_at") && Faulty(a, error)
  {
    JoinOfParsedChecksums(AttributeOr(event.attributes, "checksums"));
  }

  /** Which messages give an event, under which type, and what a tag message carries. */
  lemma EventTypes(msg: TxMessage)
    ensures MessageToAbciEvent(msg).Some? ==>
              MessageToAbciEvent(msg).value.typeUrl
              == if msg.typeUrl == "/greenfield.storage.MsgCreateObject" then "greenfield.storage.EventCreateObject"
                 else if msg.typeUrl == "/greenfield.storage.MsgUpdateObjectContent"
                 then "greenfield.storage.EventUpdateObjectContent"
                 else "greenfield.storage.EventSetTag"
    ensures MessageToAbciEvent(msg).Some?
        <==> msg.typeUrl in {"/greenfield.storage.MsgCreateObject", "/greenfield.storage.MsgUpdateObjectContent",
                             "/greenfield.storage.MsgSetTag"}
    ensures msg.typeUrl == "/greenfield.storage.MsgSetTag" ==>
              var a := MessageToAbciEvent(msg).value.attributes;
              && a.Keys == {"resource"} + (if msg.tags.Some? then {"tags"} else {})
              && a["resource"] == msg.resource && (msg.tags.Some? ==> a["tags"] == msg.tags.value)
  {
    assert "resource" != "tags";
  }

  // ---- blocks to events ----

  /** The messages of one transaction; None stands for one that is not valid JSON. */
  type Messages = seq<Option<TxMessage>>

  predicate Decodable(messages: Messages) {
    forall i :: 0 <= i < |messages| ==> messages[i].Some?
  }

  function Recognised(messages: Messages): seq<AbciEvent> {
    if messages == [] then []
    else
      var last := messages[|messages| - 1];
      Recognised(messages[..|messages| - 1])
      + if last.Some? && MessageToAbciEvent(last.value).Some? then [MessageToAbciEvent(last.value).value] else []
  }

  method ExtractEventsFromMessages(messages: Messages) returns (events: Option<seq<AbciEvent>>)
    ensures events == if Decodable(messages) then Some(Recognised(messages)) else None
    ensures events == None <==> None in messages
  {
    var found: seq<AbciEvent> := [];
    for i := 0 to |messages|
      invariant Decodable(messages[..i]) && found == Recognised(messages[..i])
    {
      assert messages[..i + 1][..i] == messages[..i];
      if messages[i].None? {
        return None;
      }
      var event := MessageToAbciEvent(messages[i].value);
      if event.None? {
        continue;
      }
      found := found + [event.value];
    }
    assert messages[..|messages|] == messages;
    return Some(found);
  }

  predicate Buildable(txs: seq<Messages>, rawTxs: seq<seq<bv8>>) {
    |txs| <= |rawTxs| && forall i :: 0 <= i < |txs| ==> Decodable(txs[i])
  }

  /** The events of the first `n` transactions, `hash` being the hash of the raw bytes. */
  function BlockEvents(
    height: int, txs: seq<Messages>, rawTxs: seq<seq<bv8>>, hash: seq<bv8> -> string, n: nat): seq<TxEvent>
    requires n <= |txs| <= |rawTxs|
  {
    if n == 0 then []
    else
      BlockEvents(height, txs, rawTxs, hash, n - 1)
      + if Recognised(txs[n - 1]) == [] then []
        else [TxEvent(height, hash(rawTxs[n - 1]), Recognised(txs[n - 1]))]
  }

  /** None when a raw transaction is missing or a message is not valid JSON. */
  method BuildTxEventsFromBlock(height: int, txs: seq<Messages>, rawTxs: seq<seq<bv8>>, hash: seq<bv8> -> string)
    returns (result: Option<seq<TxEvent>>)
    ensures result.Some? <==> Buildable(txs, rawTxs)
    ensures result == None <==> |txs| > |rawTxs| || exists messages :: messages in txs && None in messages
    ensures result.Some? ==> result.value == BlockEvents(height, txs, rawTxs, hash, |txs|)
  {
    var found: seq<TxEvent> := [];
    for i := 0 to |txs|
      invariant i <= |rawTxs|
      invariant forall j :: 0 <= j < i ==> Decodable(txs[j])
      invariant |txs| <= |rawTxs| ==> found == BlockEvents(height, txs, rawTxs, hash, i)
    {
      if i >= |rawTxs| {
        return None;
      }
      var txHash := hash(rawTxs[i]);
      var relevant := ExtractEventsFromMessages(txs[i]);
      if relevant.None? {
        return None;
      }
      if |relevant.value| == 0 {
        continue;
      }
      found := found + [TxEvent(height, txHash, relevant.value)];
    }
    return Some(found);
  }

  /** One event for each reference, with the hash and the recognised messages of its transaction. */
  ghost predicate Follow(
    events: seq<TxEvent>, refs: seq<Subscription.Ref>, height: int, txs: seq<Messages>, rawTxs: seq<seq<bv8>>,
    hash: seq<bv8> -> string, n: nat)
    requires n <= |txs| <= |rawTxs|
  {
    |events| == |refs|
    && forall j :: 0 <= j < |refs| ==>
         && refs[j].height == height && refs[j].index < n
         && events[j] == TxEvent(height, hash(rawTxs[refs[j].index]), Recognised(txs[refs[j].index]))
  }

  lemma RefsOfNext(block: Subscription.Block, height: int, n: nat)
    requires 0 < n <= |block|
    ensures Subscription.RefsOf(block[..n], height, false)
         == Subscription.RefsOf(block[..n - 1], height, false)
            + if Subscription.Wanted(block[n - 1], false) then [Subscription.Ref(height, n - 1)] else []
  {
    assert block[..n][..n - 1] == block[..n - 1];
  }

  /** What the subscription model calls the wanted transactions of a block are exactly the ones that
      get an event, in order, each with its own hash and recognised messages. */
  lemma {:induction false} BlockEventsFollowRefs(
    height: int, txs: seq<Messages>, rawTxs: seq<seq<bv8>>, hash: seq<bv8> -> string, block: Subscription.Block, n: nat)
    requires n <= |txs| == |block| <= |rawTxs|
    requires forall i :: 0 <= i < |txs| ==> (Subscription.Wanted(block[i], false) <==> Recognised(txs[i]) != [])
    ensures Follow(BlockEvents(height, txs, rawTxs, hash, n), Subscription.RefsOf(block[..n], height, false),
                   height, txs, rawTxs, hash, n)
  {
    if n > 0 {
      BlockEventsFollowRefs(height, txs, rawTxs, hash, block, n - 1);
      RefsOfNext(block, height, n);
      FollowNext(BlockEvents(height, txs, rawTxs, hash, n - 1), Subscription.RefsOf(block[..n - 1], height, false),
                 height, txs, rawTxs, hash, n - 1);
    }
  }

  lemma FollowNext(
    events: seq<TxEvent>, refs: seq<Subscription.Ref>, height: int, txs: seq<Messages>, rawTxs: seq<seq<bv8>>,
    hash: seq<bv8> -> string, n: nat)
    requires n < |txs| <= |rawTxs| && Follow(events, refs, height, txs, rawTxs, hash, n)
    ensures Follow(events, refs, height, txs, rawTxs, hash, n + 1)
    ensures Follow(events + [TxEvent(height, hash(rawTxs[n]), Recognised(txs[n]))],
                   refs + [Subscription.Ref(height, n)], height, txs, rawTxs, hash, n + 1)
  {
  }
}
