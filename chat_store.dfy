/**
 * The chat page's records and their persisted form.  The key "chatStorage" of
 * localStorage holds `JSON.stringify` of a ChatStorage record; loading reads it back
 * with `JSON.parse` and `messages.map`, either of which may throw.  The JSON text
 * layer is abstract here: a stored entry is either text that does not parse or the
 * text of a JSON value, given as its tree.
 */
module ChatStore {
  import opened Wrappers

  datatype Role = User | Assistant

  /** One chat bubble.  `isPending` is true only for the "typing" placeholder;
      an absent `isPending` field reads as false. Timestamps are milliseconds. */
  datatype Message = Message(id: string, content: string, role: Role, timestamp: int, isPending: bool)

  /** The persisted unit: the conversation and the two identifiers. */
  datatype ChatStorage = ChatStorage(messages: seq<Message>, sessionId: string, chatId: Option<string>)

  datatype Json =
    | JNull
    | JBool(b: bool)
    | JNumber(n: int)
    | JString(s: string)
    | JArray(items: seq<Json>)
    | JObject(fields: map<string, Json>)

  /** What localStorage holds under "chatStorage", when it holds anything. */
  datatype Stored = Unparseable | Text(value: Json)

  /** The three ways loading can end. */
  datatype LoadOutcome = Absent | ParseError | Restored(snapshot: ChatStorage)

  function RoleName(r: Role): string {
    match r
    case User => "user"
    case Assistant => "assistant"
  }

  /** A message as JSON.stringify writes it: `isPending` appears only when true. */
  function EncodeMessage(m: Message): (j: Json)
    ensures j.JObject? && "isPending" in j.fields <==> m.isPending
    ensures j.JObject? && j.fields.Keys == {"id", "content", "role", "timestamp"} + (if m.isPending then {"isPending"} else {})
  {
    JObject(map[
      "id" := JString(m.id),
      "content" := JString(m.content),
      "role" := JString(RoleName(m.role)),
      "timestamp" := JNumber(m.timestamp)
    ] + (if m.isPending then map["isPending" := JBool(true)] else map[]))
  }

  function EncodeMessages(ms: seq<Message>): (js: seq<Json>)
    ensures |js| == |ms|
    ensures forall i :: 0 <= i < |ms| ==> js[i] == EncodeMessage(ms[i])
  {
    seq(|ms|, i requires 0 <= i < |ms| => EncodeMessage(ms[i]))
  }

  /** The snapshot written by the save effect; a null chatId is written as null. */
  function Encode(s: ChatStorage): (j: Json)
    ensures j.JObject? && j.fields.Keys == {"messages", "sessionId", "chatId"}
    ensures j.fields["messages"].JArray? && |j.fields["messages"].items| == |s.messages|
    ensures j.fields["chatId"] == JNull <==> s.chatId.None?
  {
    JObject(map[
      "messages" := JArray(EncodeMessages(s.messages)),
      "sessionId" := JString(s.sessionId),
      "chatId" := match s.chatId case Some(c) => JString(c) case None => JNull
    ])
  }

  /** Reads one element of the stored `messages` array back as a Message. */
  function DecodeMessage(j: Json): (r: Option<Message>)
    ensures !j.JObject? ==> r.None?
    ensures r.Some? ==>
      && j.JObject? && "id" in j.fields && "content" in j.fields && "role" in j.fields && "timestamp" in j.fields
      && j.fields["id"] == JString(r.value.id) && j.fields["content"] == JString(r.value.content)
      && j.fields["role"] == JString(RoleName(r.value.role)) && j.fields["timestamp"] == JNumber(r.value.timestamp)
      && (r.value.isPending <==> "isPending" in j.fields && j.fields["isPending"] == JBool(true))
  {
    match j
    case JObject(f) =>
      if && "id" in f && f["id"].JString?
         && "content" in f && f["content"].JString?
         && "role" in f && f["role"].JString?
         && (f["role"].s == "user" || f["role"].s == "assistant")
         && "timestamp" in f && f["timestamp"].JNumber?
         && ("isPending" in f ==> f["isPending"].JBool?)
      then
        Some(Message(
          f["id"].s,
          f["content"].s,
          if f["role"].s == "user" then User else Assistant,
          f["timestamp"].n,
          "isPending" in f && f["isPending"].b))
      else None
    case _ => None
  }

  /** Decodes every element, or none when one of them is not a message. */
  function DecodeMessages(js: seq<Json>): (r: Option<seq<Message>>)
    ensures r.Some? <==> forall i :: 0 <= i < |js| ==> DecodeMessage(js[i]).Some?
    ensures r.Some? ==> |r.value| == |js|
    ensures r.Some? ==> forall i :: 0 <= i < |js| ==> DecodeMessage(js[i]) == Some(r.value[i])
  {
    if js == [] then Some([])
    else
      match (DecodeMessage(js[0]), DecodeMessages(js[1..]))
      case (Some(m), Some(rest)) => Some([m] + rest)
      case _ => None
  }

  /** `chatId` as stored: missing or null means no chat thread yet. */
  function DecodeChatId(f: map<string, Json>): Option<Option<string>> {
    if "chatId" !in f || f["chatId"].JNull? then Some(None)
    else if f["chatId"].JString? then Some(Some(f["chatId"].s))
    else None
  }

  /**
   * The parsed value of the stored text.  `parsedStorage.messages.map` throws unless
   * the value is an object whose `messages` field is an array: that is a parse error.
   */
  function Decode(j: Json): (r: LoadOutcome)
    ensures !r.Absent?
    ensures r.Restored? ==> j.JObject? && "messages" in j.fields && j.fields["messages"].JArray?
    ensures r.Restored? ==> |r.snapshot.messages| == |j.fields["messages"].items|
    ensures r.Restored? ==>
      && DecodeMessages(j.fields["messages"].items) == Some(r.snapshot.messages)
      && "sessionId" in j.fields && j.fields["sessionId"] == JString(r.snapshot.sessionId)
      && DecodeChatId(j.fields) == Some(r.snapshot.chatId)
  {
    if j.JObject? && "messages" in j.fields && j.fields["messages"].JArray? then
      var f := j.fields;
      match (DecodeMessages(f["messages"].items), DecodeChatId(f))
      case (Some(ms), Some(cid)) =>
        if "sessionId" in f && f["sessionId"].JString? then Restored(ChatStorage(ms, f["sessionId"].s, cid))
        else ParseError
      case _ => ParseError
    else ParseError
  }

  /** `localStorage.getItem("chatStorage")` followed by parsing. */
  function Load(stored: Option<Stored>): (r: LoadOutcome)
    ensures r.Absent? <==> stored.None?
    ensures stored == Some(Unparseable) ==> r == ParseError
    ensures r.Restored? ==> stored.Some? && stored.value.Text?
  {
    match stored
    case None => Absent
    case Some(Unparseable) => ParseError
    case Some(Text(j)) => Decode(j)
  }

  lemma DecodeEncodeMessage(m: Message)
    ensures DecodeMessage(EncodeMessage(m)) == Some(m)
  {
  }

  lemma {:induction false} DecodeEncodeMessages(ms: seq<Message>)
    ensures DecodeMessages(EncodeMessages(ms)) == Some(ms)
  {
    if ms != [] {
      var js := EncodeMessages(ms);
      assert js[1..] == EncodeMessages(ms[1..]);
      DecodeEncodeMessage(ms[0]);
      DecodeEncodeMessages(ms[1..]);
      assert [ms[0]] + ms[1..] == ms;
    }
  }

  /** Saving then loading gives back the same messages, sessionId and chatId. */
  lemma SaveLoadRoundTrip(s: ChatStorage)
    ensures Load(Some(Text(Encode(s)))) == Restored(s)
  {
    DecodeEncodeMessages(s.messages);
    var f := Encode(s).fields;
    assert DecodeChatId(f) == Some(s.chatId);
  }
}
