/**
 * The chatbot page's session manager: the message list, the server-issued chatId, the
 * sessionId, the compose box and the loading flag, together with the localStorage
 * entry they are saved to.  Sending is split into BeginSend (everything up to the
 * network call) and CompleteSend (everything after it), so that the state while the
 * reply is awaited can be observed.  Clock readings and fresh identifiers are
 * parameters; the network call is an Outcome handed to CompleteSend.
 */
module Chat {
  import opened Wrappers
  import opened Decimal
  import opened ChatStore

  const WelcomeText: string :=
    " Hello! I'm Ariana, your AI business coach \U{2014} here to support you in growing your startup with clarity and confidence.\n"
    + "Whether you're working on sales, marketing, finance, or overall strategy, I've got you covered."

  const Apology: string := "Sorry, I encountered an error. Please try again later."

  /** The single message of a fresh conversation. */
  function Welcome(now: int): Message {
    Message("welcome", WelcomeText, Assistant, now, false)
  }

  /** The characters `String.prototype.trim` removes. */
  predicate IsWhitespace(c: char) {
    c in {'\t', '\n', '\U{000B}', '\U{000C}', '\r', ' ', '\U{00A0}', '\U{1680}',
          '\U{2000}', '\U{2001}', '\U{2002}', '\U{2003}', '\U{2004}', '\U{2005}',
          '\U{2006}', '\U{2007}', '\U{2008}', '\U{2009}', '\U{200A}',
          '\U{2028}', '\U{2029}', '\U{202F}', '\U{205F}', '\U{3000}', '\U{FEFF}'}
  }

  /** Every character of s is whitespace. */
  predicate IsBlank(s: string) {
    forall i :: 0 <= i < |s| ==> IsWhitespace(s[i])
  }

  /** `s.trimStart()`: the suffix left after dropping leading whitespace. */
  function TrimStart(s: string): (r: string)
    ensures |r| <= |s| && r == s[|s| - |r|..]
    ensures r == [] || !IsWhitespace(r[0])
    ensures IsBlank(s[..|s| - |r|])
  {
    if s == [] || !IsWhitespace(s[0]) then s
    else
      var r := TrimStart(s[1..]);
      assert s[..|s| - |r|] == [s[0]] + s[1..][..|s| - 1 - |r|];
      r
  }

  /** `s.trimEnd()`: the prefix left after dropping trailing whitespace. */
  function TrimEnd(s: string): (r: string)
    ensures |r| <= |s| && r == s[..|r|]
    ensures r == [] || !IsWhitespace(r[|r| - 1])
    ensures IsBlank(s[|r|..])
  {
    if s == [] || !IsWhitespace(s[|s| - 1]) then s
    else
      var r := TrimEnd(s[..|s| - 1]);
      assert s[|r|..] == s[..|s| - 1][|r|..] + [s[|s| - 1]];
      r
  }

  /** `s.trim()`: the part between the leading and the trailing whitespace. */
  function Trim(s: string): (r: string)
    ensures |r| <= |s|
    ensures r == [] || (!IsWhitespace(r[0]) && !IsWhitespace(r[|r| - 1]))
  {
    TrimEnd(TrimStart(s))
  }

  /**
   * `s.trim()` is the slice of s starting at offset `|s| - |TrimStart(s)|`, and
   * what lies before and after that slice is whitespace.
   */
  lemma TrimIsMiddle(s: string)
    ensures var k := |s| - |TrimStart(s)|; var r := Trim(s);
      && k + |r| <= |s| && r == s[k..k + |r|]
      && IsBlank(s[..k]) && IsBlank(s[k + |r|..])
  {
    var t := TrimStart(s);
    SliceOfSuffix(s, |s| - |t|, t, TrimEnd(t));
  }

  /** A prefix r of the suffix t == s[k..] is the slice s[k..k + |r|], and what follows r in t follows it in s. */
  lemma SliceOfSuffix(s: string, k: nat, t: string, r: string)
    requires k <= |s| && t == s[k..] && |r| <= |t| && r == t[..|r|] && IsBlank(t[|r|..])
    ensures k + |r| <= |s| && r == s[k..k + |r|] && IsBlank(s[k + |r|..])
  {
    assert s[k + |r|..] == t[|r|..];
  }

  /** `!s.trim()` holds exactly when s is blank: trimming leaves nothing iff every character is whitespace. */
  lemma BlankIffAllWhitespace(s: string)
    ensures Trim(s) == [] <==> IsBlank(s)
  {
    var t := TrimStart(s);
    var k := |s| - |t|;
    if TrimEnd(t) == [] {
      assert t == t[0..] && t == s[k..];
      forall i | 0 <= i < |s|
        ensures IsWhitespace(s[i])
      {
        if i < k {
          assert s[i] == s[..k][i];
        } else {
          assert s[i] == t[i - k];
        }
      }
    } else {
      assert !IsWhitespace(s[k]) by {
        assert s[k] == t[0] == TrimEnd(t)[0];
      }
    }
  }

  /**
   * The user message text: the input, followed by a note naming the attached file
   * when there is one.
   */
  function Compose(input: string, file: Option<string>): (r: string)
    ensures |r| >= |input| && r[..|input|] == input
    ensures file.None? <==> |r| == |input|
    ensures file.Some? ==> r[|input|..] == "\n[Attached file: " + file.value + "]"
  {
    match file
    case None => input
    case Some(name) => input + "\n[Attached file: " + name + "]"
  }

  /** The reply body of the prediction endpoint. */
  datatype ApiResponse = ApiResponse(
    text: string, question: string, chatId: string, chatMessageId: string,
    isStreamValid: bool, sessionId: string, memoryType: string)

  /** The request body: `question`, `chatId` (omitted when undefined), `overrideConfig.sessionId`. */
  datatype Request = Request(question: string, chatId: Option<string>, sessionId: string)

  /** What the network call ends with: a parsed reply, or a thrown error. */
  datatype Outcome = Replied(response: ApiResponse) | Failed

  /** A send in flight: the placeholder's id and the request that was issued. */
  datatype Turn = Turn(pendingId: string, request: Request)

  /** The request for a question; `chatId || undefined` drops a null or empty chatId. */
  function RequestFor(question: string, chatId: Option<string>, sessionId: string): (r: Request)
    ensures r.question == question && r.sessionId == sessionId
    ensures r.chatId.Some? <==> chatId.Some? && chatId.value != ""
    ensures r.chatId.Some? ==> r.chatId == chatId
  {
    Request(question, if chatId.Some? && chatId.value != "" then chatId else None, sessionId)
  }

  /** What `query` returns: the reply itself, or on failure a synthesized apology. */
  function QueryResult(req: Request, outcome: Outcome): (r: ApiResponse)
    ensures outcome.Replied? ==> r == outcome.response
    ensures outcome.Failed? ==>
      && r.text == Apology && r.question == req.question
      && r.chatId == req.chatId.GetOr("") && r.chatMessageId == ""
      && r.sessionId == req.sessionId && !r.isStreamValid
  {
    match outcome
    case Replied(response) => response
    case Failed => ApiResponse(Apology, req.question, req.chatId.GetOr(""), "", false, req.sessionId, "")
  }

  /** `result.chatMessageId || Date.now().toString()`. */
  function ReplyId(chatMessageId: string, now: nat): (id: string)
    ensures chatMessageId != "" ==> id == chatMessageId
    ensures chatMessageId == "" ==> AllDigits(id) && id != "" && DigitsValue(id) == now
  {
    if chatMessageId != "" then chatMessageId else NatToStringValue(now); NatToString(now)
  }

  /** The placeholder id `Date.now().toString() + "-pending"`: the clock's digits, then the suffix. */
  function PendingId(now: nat): (id: string)
    ensures |id| > 8 && id[|id| - 8..] == "-pending"
    ensures AllDigits(id[..|id| - 8]) && DigitsValue(id[..|id| - 8]) == now
  {
    var digits := NatToString(now);
    NatToStringValue(now);
    assert (digits + "-pending")[..|digits|] == digits;
    digits + "-pending"
  }

  /** `ms.filter(msg => msg.id !== id)`. */
  function Without(ms: seq<Message>, id: string): (r: seq<Message>)
    ensures |r| <= |ms|
    ensures forall m :: m in r ==> m in ms && m.id != id
  {
    if ms == [] then []
    else (if ms[0].id == id then [] else [ms[0]]) + Without(ms[1..], id)
  }

  function PendingCount(ms: seq<Message>): nat {
    if ms == [] then 0 else (if ms[0].isPending then 1 else 0) + PendingCount(ms[1..])
  }

  predicate HasId(ms: seq<Message>, id: string) {
    exists m :: m in ms && m.id == id
  }

  lemma WelcomeNotPending(now: int)
    ensures PendingCount([Welcome(now)]) == 0
  {
  }

  /** A message id made of digits never equals a placeholder id. */
  lemma PendingIdIsNotADateId(t: nat, u: nat)
    ensures PendingId(u) != NatToString(t)
  {
    var p := PendingId(u);
    var k := |NatToString(u)|;
    assert p[k] == '-' && !IsDigit(p[k]);
  }

  lemma {:induction false} WithoutAbsent(ms: seq<Message>, id: string)
    requires !HasId(ms, id)
    ensures Without(ms, id) == ms
  {
    if ms != [] {
      assert ms[0] in ms;
      assert forall m :: m in ms[1..] ==> m in ms;
      WithoutAbsent(ms[1..], id);
      assert [ms[0]] + ms[1..] == ms;
    }
  }

  lemma {:induction false} WithoutAppend(a: seq<Message>, b: seq<Message>, id: string)
    ensures Without(a + b, id) == Without(a, id) + Without(b, id)
  {
    if a != [] {
      assert (a + b)[1..] == a[1..] + b;
      WithoutAppend(a[1..], b, id);
    } else {
      assert a + b == b;
    }
  }

  lemma {:induction false} PendingCountAppend(a: seq<Message>, b: seq<Message>)
    ensures PendingCount(a + b) == PendingCount(a) + PendingCount(b)
  {
    if a != [] {
      assert (a + b)[1..] == a[1..] + b;
      PendingCountAppend(a[1..], b);
    } else {
      assert a + b == b;
    }
  }

  /** Removing an id that every pending message carries leaves no pending message. */
  lemma {:induction false} WithoutClearsPending(ms: seq<Message>, id: string)
    requires forall m :: m in ms && m.isPending ==> m.id == id
    ensures PendingCount(Without(ms, id)) == 0
  {
    if ms != [] {
      assert forall m :: m in ms[1..] ==> m in ms;
      WithoutClearsPending(ms[1..], id);
      assert ms[0] in ms;
      PendingCountAppend(if ms[0].id == id then [] else [ms[0]], Without(ms[1..], id));
    }
  }

  /**
   * One turn on the message list: appending the user message and the placeholder,
   * then filtering the placeholder's id out and appending the reply, leaves the
   * earlier messages in place followed by the user message and the reply.
   */
  lemma TurnReplacesPlaceholder(prev: seq<Message>, user: Message, placeholder: Message, reply: Message)
    requires !HasId(prev, placeholder.id) && user.id != placeholder.id
    ensures Without(prev + [user, placeholder], placeholder.id) + [reply] == prev + [user, reply]
  {
    WithoutAppend(prev, [user, placeholder], placeholder.id);
    WithoutAbsent(prev, placeholder.id);
    assert Without([user, placeholder], placeholder.id) == [user];
  }

  /** If no message was pending before a turn, exactly one is pending while it awaits. */
  lemma TurnPendingCount(prev: seq<Message>, user: Message, placeholder: Message)
    requires !user.isPending && placeholder.isPending
    ensures PendingCount(prev + [user, placeholder]) == PendingCount(prev) + 1
  {
    PendingCountAppend(prev, [user, placeholder]);
    assert [user, placeholder][1..] == [placeholder] && [placeholder][1..] == [];
    assert PendingCount([placeholder]) == 1;
    assert PendingCount([user, placeholder]) == PendingCount([placeholder]);
  }

  class ChatSession {
    var messages: seq<Message>
    var input: string
    var selectedFile: Option<string>   // the attached file's name
    var isLoading: bool
    var chatId: Option<string>
    var sessionId: string
    var storage: Option<Stored>        // localStorage["chatStorage"]

    /** The state at mount, over whatever localStorage already holds. */
    constructor (stored: Option<Stored>)
      ensures messages == [] && input == "" && selectedFile == None && !isLoading
      ensures chatId == None && sessionId == "" && storage == stored
    {
      messages, input, selectedFile, isLoading := [], "", None, false;
      chatId, sessionId, storage := None, "", stored;
    }

    /** The record the save effect writes. */
    function Snapshot(): ChatStorage
      reads this
    {
      ChatStorage(messages, sessionId, chatId)
    }

    /** At most one placeholder, and only while a query is in flight. */
    ghost predicate AtMostOnePending()
      reads this
    {
      PendingCount(messages) <= 1 && (PendingCount(messages) == 1 ==> isLoading)
    }

    /** The submit button is enabled. */
    predicate CanSubmit()
      reads this
    {
      !isLoading && !(IsBlank(input) && selectedFile.None?)
    }

    /** The fresh conversation of `initializeChat`: one welcome message and a new sessionId. */
    method InitializeChat(freshSessionId: string, now: int)
      modifies this`messages, this`sessionId
      ensures messages == [Welcome(now)] && sessionId == freshSessionId
    {
      sessionId := freshSessionId;
      messages := [Welcome(now)];
    }

    /**
     * The load effect: restore a well-formed snapshot verbatim; when the entry is
     * absent or cannot be parsed, start a fresh conversation instead.
     */
    method Initialize(freshSessionId: string, now: int)
      modifies this`messages, this`sessionId, this`chatId
      ensures Load(storage).Restored? ==> Snapshot() == Load(storage).snapshot
      ensures !Load(storage).Restored? ==>
        messages == [Welcome(now)] && sessionId == freshSessionId && chatId == old(chatId)
      ensures (Load(storage).Restored? ==> PendingCount(Load(storage).snapshot.messages) == 0) ==> AtMostOnePending()
    {
      match Load(storage)
      case Restored(s) =>
        messages, chatId, sessionId := s.messages, s.chatId, s.sessionId;
      case _ =>
        InitializeChat(freshSessionId, now);
        WelcomeNotPending(now);
    }

    /** The save effect, run after each change to messages, chatId or sessionId. */
    method Persist()
      modifies this`storage
      ensures |messages| > 0 ==> storage == Some(Text(Encode(Snapshot())))
      ensures |messages| > 0 ==> Load(storage) == Restored(Snapshot())
      ensures |messages| == 0 ==> storage == old(storage)
    {
      if |messages| > 0 {
        storage := Some(Text(Encode(Snapshot())));
        SaveLoadRoundTrip(Snapshot());
      }
    }

    method EditInput(text: string)
      modifies this`input
      ensures input == text
    {
      input := text;
    }

    /** `handleFileChange` with a chosen file: only its name is kept. */
    method AttachFile(name: string)
      modifies this`selectedFile
      ensures selectedFile == Some(name)
    {
      selectedFile := Some(name);
    }

    /**
     * `handleSendMessage` up to the network call: reject a blank message without a
     * file; otherwise append the user message and a pending placeholder, clear the
     * compose box, raise the loading flag and issue the request.  `now` and `later`
     * are the two `Date.now()` readings.
     */
    method BeginSend(now: nat, later: nat) returns (turn: Option<Turn>)
      modifies this`messages, this`input, this`selectedFile, this`isLoading
      ensures old(IsBlank(input) && selectedFile.None?) ==>
        && turn == None
        && messages == old(messages) && input == old(input)
        && selectedFile == old(selectedFile) && isLoading == old(isLoading)
      ensures !old(IsBlank(input) && selectedFile.None?) ==>
        var question := Compose(old(input), old(selectedFile));
        && turn == Some(Turn(PendingId(later), RequestFor(question, chatId, sessionId)))
        && messages == old(messages) + [
             Message(NatToString(now), question, User, now, false),
             Message(PendingId(later), "", Assistant, later, true)]
        && input == "" && selectedFile == None && isLoading
      ensures turn.Some? ==> PendingCount(messages) == old(PendingCount(messages)) + 1
      ensures old(AtMostOnePending() && CanSubmit()) ==> AtMostOnePending()
    {
      if IsBlank(input) && selectedFile.None? {
        return None;
      }
      var question := Compose(input, selectedFile);
      var userMessage := Message(NatToString(now), question, User, now, false);
      messages := messages + [userMessage];
      var pendingId := PendingId(later);
      var placeholder := Message(pendingId, "", Assistant, later, true);
      messages := messages + [placeholder];
      input, selectedFile := "", None;
      isLoading := true;
      turn := Some(Turn(pendingId, RequestFor(question, chatId, sessionId)));
      TurnPendingCount(old(messages), userMessage, placeholder);
      assert old(messages) + [userMessage] + [placeholder] == old(messages) + [userMessage, placeholder];
    }

    /**
     * `handleSendMessage` after the network call: adopt a non-empty chatId and
     * sessionId from a reply (a failure adopts neither), lower the loading flag,
     * drop every message with the placeholder's id and append the reply.
     */
    method CompleteSend(turn: Turn, outcome: Outcome, now: nat)
      modifies this`messages, this`chatId, this`sessionId, this`isLoading
      ensures var result := QueryResult(turn.request, outcome);
        messages == Without(old(messages), turn.pendingId)
                    + [Message(ReplyId(result.chatMessageId, now), result.text, Assistant, now, false)]
      ensures chatId == if outcome.Replied? && outcome.response.chatId != "" then Some(outcome.response.chatId) else old(chatId)
      ensures sessionId == if outcome.Replied? && outcome.response.sessionId != "" then outcome.response.sessionId else old(sessionId)
      ensures !isLoading
      ensures (forall m :: m in old(messages) && m.isPending ==> m.id == turn.pendingId) ==> PendingCount(messages) == 0
    {
      if outcome.Replied? {
        if outcome.response.chatId != "" {
          chatId := Some(outcome.response.chatId);
        }
        if outcome.response.sessionId != "" {
          sessionId := outcome.response.sessionId;
        }
      }
      var result := QueryResult(turn.request, outcome);
      isLoading := false;
      var reply := Message(ReplyId(result.chatMessageId, now), result.text, Assistant, now, false);
      var kept := Without(messages, turn.pendingId);
      messages := kept + [reply];
      if forall m :: m in old(messages) && m.isPending ==> m.id == turn.pendingId {
        WithoutClearsPending(old(messages), turn.pendingId);
        PendingCountAppend(kept, [reply]);
      }
    }

    /**
     * The whole of `handleSendMessage`.  A blank message without a file changes
     * nothing.  Otherwise the compose box is cleared, the loading flag ends lowered and
     * the reply's identifiers are adopted; when no earlier message carries the
     * placeholder's id, the list ends up as before plus the user message and the
     * reply, and the number of pending messages is what it was.
     */
    method HandleSendMessage(now: nat, later: nat, outcome: Outcome, replyTime: nat)
      modifies this`messages, this`input, this`selectedFile, this`isLoading, this`chatId, this`sessionId
      ensures old(IsBlank(input) && selectedFile.None?) ==>
        && messages == old(messages) && chatId == old(chatId) && sessionId == old(sessionId)
        && input == old(input) && selectedFile == old(selectedFile) && isLoading == old(isLoading)
      ensures !old(IsBlank(input) && selectedFile.None?) ==>
        && input == "" && selectedFile == None && !isLoading
        && chatId == (if outcome.Replied? && outcome.response.chatId != "" then Some(outcome.response.chatId) else old(chatId))
        && sessionId == (if outcome.Replied? && outcome.response.sessionId != "" then outcome.response.sessionId else old(sessionId))
      ensures !old(IsBlank(input) && selectedFile.None?) && !HasId(old(messages), PendingId(later)) ==>
        var question := Compose(old(input), old(selectedFile));
        var result := QueryResult(RequestFor(question, old(chatId), old(sessionId)), outcome);
        && messages == old(messages) + [
             Message(NatToString(now), question, User, now, false),
             Message(ReplyId(result.chatMessageId, replyTime), result.text, Assistant, replyTime, false)]
        && PendingCount(messages) == old(PendingCount(messages))
        && !isLoading
    {
      var turn := BeginSend(now, later);
      if turn.None? {
        return;
      }
      CompleteSend(turn.value, outcome, replyTime);
      if !HasId(old(messages), PendingId(later)) {
        var question := Compose(old(input), old(selectedFile));
        var result := QueryResult(turn.value.request, outcome);
        var user := Message(NatToString(now), question, User, now, false);
        var placeholder := Message(PendingId(later), "", Assistant, later, true);
        var reply := Message(ReplyId(result.chatMessageId, replyTime), result.text, Assistant, replyTime, false);
        PendingIdIsNotADateId(now, later);
        TurnReplacesPlaceholder(old(messages), user, placeholder, reply);
        PendingCountAppend(old(messages), [user, reply]);
        assert PendingCount([user, reply]) == 0 by {
          assert [user, reply][1..] == [reply] && [reply][1..] == [];
          assert PendingCount([reply]) == 0;
          assert PendingCount([user, reply]) == PendingCount([reply]);
        }
      }
    }

    /** `clearChat`: remove the stored entry, start a fresh conversation and forget the chatId. */
    method Clear(freshSessionId: string, now: int)
      modifies this`storage, this`messages, this`sessionId, this`chatId
      ensures storage == None
      ensures messages == [Welcome(now)] && sessionId == freshSessionId && chatId == None
      ensures AtMostOnePending()
    {
      storage := None;
      InitializeChat(freshSessionId, now);
      chatId := None;
      WelcomeNotPending(now);
    }
  }

  /**
   * Saving a conversation and loading it in a new page gives back its messages,
   * sessionId and chatId; an empty conversation is not saved, so loading finds
   * whatever was stored before.
   */
  method SaveThenReload(before: Option<Stored>, snapshot: ChatStorage, freshSessionId: string, now: int)
    returns (restored: ChatStorage)
    ensures |snapshot.messages| > 0 ==> restored == snapshot
    ensures |snapshot.messages| == 0 && before.None? ==>
      restored == ChatStorage([Welcome(now)], freshSessionId, None)
  {
    var page := new ChatSession(before);
    page.messages, page.sessionId, page.chatId := snapshot.messages, snapshot.sessionId, snapshot.chatId;
    page.Persist();
    var next := new ChatSession(page.storage);
    next.Initialize(freshSessionId, now);
    restored := next.Snapshot();
  }

  /**
   * The save effect runs while the reply is awaited, so the placeholder is stored;
   * a reload at that moment restores it as a pending message with nothing in flight.
   */
  method ReloadWhileAwaiting(text: string, now: nat, later: nat, reloadTime: int)
    returns (pending: nat, loading: bool)
    requires !IsBlank(text)
    ensures pending == 1 && !loading
  {
    var page := new ChatSession(None);
    page.Initialize("s0", now);
    page.EditInput(text);
    var turn := page.BeginSend(now, later);
    page.Persist();
    var next := new ChatSession(page.storage);
    next.Initialize("s1", reloadTime);
    PendingCountAppend([Welcome(now)], [
      Message(NatToString(now), text, User, now, false),
      Message(PendingId(later), "", Assistant, later, true)]);
    WelcomeNotPending(now);
    TurnPendingCount([Welcome(now)],
      Message(NatToString(now), text, User, now, false),
      Message(PendingId(later), "", Assistant, later, true));
    pending, loading := PendingCount(next.messages), next.isLoading;
  }

  /**
   * A first question with no chatId yet; the service answers with chatId "c1" and
   * sessionId "s1".  The reply ends the list, no placeholder remains, both
   * identifiers are adopted.
   */
  method FirstReplyExample() returns (last: Message, pending: nat, chat: Option<string>, session: string)
    ensures last.content == "Sure, happy to help." && last.role == Assistant && !last.isPending
    ensures last.id == "m1" && pending == 0
    ensures chat == Some("c1") && session == "s1"
  {
    var page := new ChatSession(None);
    page.Initialize("s0", 0);
    page.EditInput("Can you help me with my account settings?");
    assert !IsWhitespace(page.input[0]);
    var turn := page.BeginSend(1, 1);
    assert forall m :: m in page.messages && m.isPending ==> m.id == turn.value.pendingId;
    var reply := ApiResponse("Sure, happy to help.", page.messages[1].content, "c1", "m1", true, "s1", "");
    PendingIdIsNotADateId(1, 1);
    page.CompleteSend(turn.value, Replied(reply), 2);
    last := page.messages[|page.messages| - 1];
    pending, chat, session := PendingCount(page.messages), page.chatId, page.sessionId;
  }

  /**
   * Thread continuity: once a reply has carried a chatId (or sessionId), the next
   * question is sent with that value, not the one the reply answered.
   */
  method ReplyThenAsk(page: ChatSession, turn: Turn, reply: ApiResponse, replyTime: nat, text: string, now: nat, later: nat)
    returns (next: Option<Turn>)
    requires !IsBlank(text)
    modifies page
    ensures next.Some?
    ensures reply.chatId != "" ==> next.value.request.chatId == Some(reply.chatId)
    ensures reply.sessionId != "" ==> next.value.request.sessionId == reply.sessionId
  {
    page.CompleteSend(turn, Replied(reply), replyTime);
    page.EditInput(text);
    next := page.BeginSend(now, later);
  }
}
