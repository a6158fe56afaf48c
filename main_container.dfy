/**
 * The main chat component: a conversation store of message records, the
 * user/session identity kept in browser storage, the streamed send of one
 * chat turn and the handler that turns `.csv` links into downloads.
 *
 * The network is a given `Response`, chunks are already-decoded strings,
 * fresh identity tokens are parameters, and every step runs to completion
 * in order (no interleaving of React state updates).
 */
module MainContainer {
  import opened Wrappers
  import opened Text

  // ---------------------------------------------------------------------
  // Message records
  // ---------------------------------------------------------------------

  datatype Sender = User | Bot

  /** A message record; `isLoading` is absent (false) on user and error messages. */
  datatype Message = Message(id: int, text: string, sender: Sender, isLoading: bool)

  const ErrorText: string := "Sorry, there was an error processing your request. Please try again."

  /** What the network does with one chat request. */
  datatype Response =
    | FetchRejected                                // `fetch` itself rejects
    | NoBody                                       // the response has no body
    | Body(chunks: seq<string>, readRejects: bool) // the decoded chunks read, then completion or a rejected read

  // ---------------------------------------------------------------------
  // The state updaters passed to setMessages
  // ---------------------------------------------------------------------

  /** Concatenation of the chunks in arrival order: the cumulative reply. */
  function Concat(chunks: seq<string>): (r: string)
    ensures chunks == [] ==> r == ""
    ensures chunks != [] ==> chunks[0] <= r
    ensures chunks != [] ==> EndsWith(r, chunks[|chunks| - 1])
  {
    if chunks == [] then "" else Concat(chunks[..|chunks| - 1]) + chunks[|chunks| - 1]
  }

  /**
   * The chunk updater: every message whose id is `botId` gets the whole
   * cumulative reply as its text (replace, not append) and stops loading.
   */
  function WithReply(ms: seq<Message>, botId: int, reply: string): (r: seq<Message>)
    ensures |r| == |ms|
    ensures forall i :: 0 <= i < |ms| && ms[i].id == botId ==>
      r[i] == Message(botId, reply, ms[i].sender, false)
    ensures forall i :: 0 <= i < |ms| && ms[i].id != botId ==> r[i] == ms[i]
  {
    if ms == [] then []
    else
      var m := ms[0];
      [if m.id == botId then m.(text := reply, isLoading := false) else m] + WithReply(ms[1..], botId, reply)
  }

  /** The `finally` updater: clears the loading flag of every bot message. */
  function ClearBotLoading(ms: seq<Message>): (r: seq<Message>)
    ensures |r| == |ms|
    ensures forall i :: 0 <= i < |ms| ==>
      r[i].id == ms[i].id && r[i].text == ms[i].text && r[i].sender == ms[i].sender
    ensures forall i :: 0 <= i < |ms| ==> (r[i].isLoading <==> ms[i].isLoading && ms[i].sender == User)
  {
    if ms == [] then []
    else
      var m := ms[0];
      [if m.sender == Bot && m.isLoading then m.(isLoading := false) else m] + ClearBotLoading(ms[1..])
  }

  /** The store `ms` after the catch step of a send from `prev`, before `finally` runs. */
  ghost predicate Unsettled(prev: seq<Message>, ms: seq<Message>, text: string, response: Response) {
    var user := Message(|prev| + 1, text, User, false);
    var error := Message(|prev| + 2, ErrorText, Bot, false);
    match response
    case Body(chunks, readRejects) =>
      ms == prev + [user, Message(|prev| + 2, Concat(chunks), Bot, chunks == [])] + (if readRejects then [error] else [])
    case _ => ms == prev + [user, error]
  }

  /** The store just before the `finally` step settles, once cleared, into the old store plus `Appended`. */
  lemma SendSettles(prev: seq<Message>, ms: seq<Message>, text: string, response: Response)
    requires forall i :: 0 <= i < |prev| ==> !prev[i].isLoading
    requires Unsettled(prev, ms, text, response)
    ensures ClearBotLoading(ms) == prev + Appended(|prev|, text, response)
  {
  }

  /** A store at rest: nothing is loading and every id lies in 1..|ms|, so the next ids are fresh. */
  ghost predicate Settled(ms: seq<Message>) {
    forall i :: 0 <= i < |ms| ==> 1 <= ms[i].id <= |ms| && !ms[i].isLoading
  }

  /** In a settled store plus the new user message, no message shares the placeholder's id or is loading. */
  lemma PlaceholderIsFresh(prev: seq<Message>, user: Message, bot: Message)
    requires Settled(prev) && user.id == |prev| + 1 && !user.isLoading && bot.id == |prev| + 2
    ensures var ms := prev + [user];
      forall i :: 0 <= i < |ms| ==> ms[i].id != bot.id && !ms[i].isLoading
  {
  }

  /** Appending a settled send keeps ids within 1..|store| and leaves nothing loading. */
  lemma AppendedSettled(prev: seq<Message>, text: string, response: Response)
    requires Settled(prev)
    ensures Settled(prev + Appended(|prev|, text, response))
  {
  }

  /** At most one message is loading, and only the most recent one, a bot message. */
  ghost predicate LoadingOnlyLast(ms: seq<Message>) {
    forall i :: 0 <= i < |ms| && ms[i].isLoading ==> i == |ms| - 1 && ms[i].sender == Bot
  }

  /**
   * The messages one non-blank send adds to a store of `n` messages, once
   * the `finally` step has run: the user message, then the bot reply or
   * the error message, or both when a read fails after the placeholder.
   */
  function Appended(n: nat, text: string, response: Response): (r: seq<Message>)
    ensures |r| == if response.Body? && response.readRejects then 3 else 2
    ensures r[0] == Message(n + 1, text, User, false)
    ensures forall i :: 1 <= i < |r| ==> r[i].id == n + 2 && r[i].sender == Bot && !r[i].isLoading
    ensures response.Body? ==> r[1].text == Concat(response.chunks)
    ensures !response.Body? || response.readRejects ==> r[|r| - 1].text == ErrorText
  {
    var user := Message(n + 1, text, User, false);
    var error := Message(n + 2, ErrorText, Bot, false);
    match response
    case FetchRejected => [user, error]
    case NoBody => [user, error]
    case Body(chunks, readRejects) =>
      [user, Message(n + 2, Concat(chunks), Bot, false)] + (if readRejects then [error] else [])
  }

  /** Each chunk's cumulative reply extends the one before: the bot text only grows. */
  lemma {:induction false} ReplyGrows(chunks: seq<string>, i: nat, j: nat)
    requires i <= j <= |chunks|
    ensures Concat(chunks[..i]) <= Concat(chunks[..j])
  {
    if i < j {
      ReplyGrows(chunks, i, j - 1);
      assert chunks[..j][..j - 1] == chunks[..j - 1];
    }
  }

  /** A chunk update only touches the placeholder when no older message shares its id. */
  lemma WithReplyOnPlaceholder(prefix: seq<Message>, botId: int, before: string, loading: bool, reply: string)
    requires forall i :: 0 <= i < |prefix| ==> prefix[i].id != botId
    ensures WithReply(prefix + [Message(botId, before, Bot, loading)], botId, reply)
         == prefix + [Message(botId, reply, Bot, false)]
  {
  }

  /** After a send whose read fails past the placeholder, two bot messages share one id. */
  lemma ErrorAfterPlaceholderDuplicatesId(n: nat, text: string, chunks: seq<string>)
    ensures var ms := Appended(n, text, Body(chunks, true));
      |ms| == 3 && ms[1].id == ms[2].id == n + 2 && ms[2].text == ErrorText
  {
  }

  /** The streamed scenario: "Hi" then " there" leaves "Hi there", no longer loading. */
  lemma StreamScenario()
    ensures Appended(0, "Hello", Body(["Hi", " there"], false))
         == [Message(1, "Hello", User, false), Message(2, "Hi there", Bot, false)]
  {
    assert ["Hi", " there"][..1] == ["Hi"];
    assert ["Hi"][..0] == [];
    assert Concat(["Hi"]) == "Hi";
    assert Concat(["Hi", " there"]) == "Hi" + " there" == "Hi there";
  }

  // ---------------------------------------------------------------------
  // Identity
  // ---------------------------------------------------------------------

  const UserIdKey: string := "user_id"
  const SessionIdKey: string := "session_id"

  datatype Identity = Identity(userId: string, sessionId: string)
  datatype IdentityInit = IdentityInit(identity: Identity, storage: map<string, string>)

  function Lookup(items: map<string, string>, key: string): Option<string> {
    if key in items then Some(items[key]) else None
  }

  /** `!stored`: a missing item (null) and the empty string are both falsy. */
  predicate Missing(item: Option<string>) {
    item.None? || item.value == ""
  }

  /**
   * The identity effect on a storage with contents `items`: reuse both ids
   * when both are present, otherwise take the two fresh tokens and write both.
   */
  function IdentityEffect(items: map<string, string>, freshUser: string, freshSession: string): (r: IdentityInit)
    ensures r.storage.Keys == items.Keys + {UserIdKey, SessionIdKey}
    ensures r.storage[UserIdKey] == r.identity.userId && r.storage[SessionIdKey] == r.identity.sessionId
    ensures forall k :: k in items && k != UserIdKey && k != SessionIdKey ==> r.storage[k] == items[k]
    ensures Missing(Lookup(items, UserIdKey)) || Missing(Lookup(items, SessionIdKey))
      ==> r.identity == Identity(freshUser, freshSession)
    ensures !Missing(Lookup(items, UserIdKey)) && !Missing(Lookup(items, SessionIdKey))
      ==> r.storage == items
  {
    var user := Lookup(items, UserIdKey);
    var session := Lookup(items, SessionIdKey);
    if Missing(user) || Missing(session) then
      IdentityInit(Identity(freshUser, freshSession), items[UserIdKey := freshUser][SessionIdKey := freshSession])
    else
      IdentityInit(Identity(user.value, session.value), items)
  }

  /** A second initialisation, whatever tokens it is offered, keeps the first one's identity and storage. */
  lemma IdentityIdempotent(items: map<string, string>, u1: string, s1: string, u2: string, s2: string)
    requires u1 != "" && s1 != ""
    ensures var first := IdentityEffect(items, u1, s1);
      IdentityEffect(first.storage, u2, s2) == first
  {
  }

  // ---------------------------------------------------------------------
  // Links and the send control
  // ---------------------------------------------------------------------

  /** `href.split('/').pop()`: the text after the last '/', or all of `href` when it has none. */
  function LastSegment(href: string): (r: string)
    ensures |r| <= |href| && r == href[|href| - |r|..]
    ensures '/' !in r
    ensures |r| < |href| ==> href[|href| - |r| - 1] == '/'
  {
    if href == [] then ""
    else if href[|href| - 1] == '/' then ""
    else LastSegment(href[..|href| - 1]) + [href[|href| - 1]]
  }

  datatype LinkAction = Navigate | Download(filename: string)

  /** A link click: `.csv` targets are downloaded under their last path segment, others navigate. */
  function LinkClick(href: string): (r: LinkAction)
    ensures r.Download? <==> EndsWith(href, ".csv")
  {
    if EndsWith(href, ".csv") then
      var segment := LastSegment(href);
      Download(if segment != "" then segment else "file.csv")
    else Navigate
  }

  /** In the download branch the segment ends in ".csv", so the "file.csv" fallback is never used. */
  lemma CsvFilenameIsLastSegment(href: string)
    requires EndsWith(href, ".csv")
    ensures LastSegment(href) != "" && EndsWith(LastSegment(href), ".csv")
    ensures LinkClick(href) == Download(LastSegment(href))
  {
  }

  lemma LinkScenarios()
    ensures LinkClick("/files/report.csv") == Download("report.csv")
    ensures LinkClick("/page.html") == Navigate
  {
  }

  /** The send button is disabled while a reply is pending or the input trims to nothing. */
  function SendDisabled(isLoading: bool, inputText: string): (r: bool)
    ensures r <==> isLoading || Blank(inputText)
  {
    TrimEmptyIffBlank(inputText);
    isLoading || Trim(inputText) == ""
  }

  // ---------------------------------------------------------------------
  // The component
  // ---------------------------------------------------------------------

  /** The browser's key/value storage. */
  class LocalStorage {
    var items: map<string, string>

    constructor (items: map<string, string>)
      ensures this.items == items
    {
      this.items := items;
    }

    method GetItem(key: string) returns (v: Option<string>)
      ensures v == Lookup(items, key)
    {
      v := if key in items then Some(items[key]) else None;
    }

    method SetItem(key: string, value: string)
      modifies this
      ensures items == old(items)[key := value]
    {
      items := items[key := value];
    }
  }

  /** The state of the main chat component. */
  class Component {
    var messages: seq<Message>
    var inputText: string
    var userId: string
    var sessionId: string
    var isLoading: bool

    /** At rest no reply is pending and every id lies in 1..|messages|. */
    ghost predicate Valid()
      reads this
    {
      && !isLoading
      && Settled(messages)
    }

    constructor ()
      ensures Valid()
      ensures messages == [] && inputText == "" && userId == "" && sessionId == "" && !isLoading
    {
      messages, inputText, userId, sessionId, isLoading := [], "", "", "", false;
    }

    /** The input's change handler (enabled only while no reply is pending). */
    method SetInputText(text: string)
      modifies this`inputText
      ensures inputText == text
    {
      inputText := text;
    }

    /** The mount effect: read both ids, regenerate both when either is missing, then store them in the state. */
    method InitIdentity(storage: LocalStorage, freshUser: string, freshSession: string)
      modifies this`userId, this`sessionId, storage
      ensures IdentityInit(Identity(userId, sessionId), storage.items)
           == IdentityEffect(old(storage.items), freshUser, freshSession)
    {
      var storedUserId := storage.GetItem(UserIdKey);
      var storedSessionId := storage.GetItem(SessionIdKey);
      if Missing(storedUserId) || Missing(storedSessionId) {
        storedUserId, storedSessionId := Some(freshUser), Some(freshSession);
        storage.SetItem(UserIdKey, freshUser);
        storage.SetItem(SessionIdKey, freshSession);
      }
      userId := storedUserId.value;
      sessionId := storedSessionId.value;
    }

    /**
     * The read loop of one streamed reply: each chunk extends the cumulative
     * reply, which replaces the placeholder's text; the loop ends when the
     * stream completes or a read rejects (reported as `failed`).
     */
    method ReadStream(chunks: seq<string>, readRejects: bool, botId: int) returns (failed: bool)
      requires |messages| > 0 && messages[|messages| - 1] == Message(botId, "", Bot, true)
      requires forall i :: 0 <= i < |messages| - 1 ==> messages[i].id != botId && !messages[i].isLoading
      modifies this`messages
      ensures failed == readRejects
      ensures messages == old(messages)[..|old(messages)| - 1] + [Message(botId, Concat(chunks), Bot, chunks == [])]
    {
      var prefix := messages[..|messages| - 1];
      assert messages == prefix + [Message(botId, "", Bot, true)];
      failed := false;
      var done := false;
      var botReply := "";
      var i := 0;
      while !done
        invariant 0 <= i <= |chunks|
        invariant done ==> i == |chunks| && !readRejects
        invariant !failed
        invariant botReply == Concat(chunks[..i])
        invariant messages == prefix + [Message(botId, botReply, Bot, i == 0)]
        invariant LoadingOnlyLast(messages)
        decreases |chunks| - i, !done
      {
        if i < |chunks| {
          assert chunks[..i + 1][..i] == chunks[..i];
          WithReplyOnPlaceholder(prefix, botId, botReply, i == 0, botReply + chunks[i]);
          botReply := botReply + chunks[i];
          messages := WithReply(messages, botId, botReply);
          i := i + 1;
        } else if readRejects {
          failed := true;
          break;
        } else {
          done := true;
        }
      }
      assert chunks[..i] == chunks;
    }

    /** The start of `handleSendMessage`: append the user message, clear the input, mark a reply pending. */
    method AddUserMessage() returns (user: Message)
      modifies this`messages, this`inputText, this`isLoading
      ensures user == Message(|old(messages)| + 1, old(inputText), User, false)
      ensures messages == old(messages) + [user] && inputText == "" && isLoading
    {
      user := Message(|messages| + 1, inputText, User, false);
      messages := messages + [user];
      inputText := "";
      isLoading := true;
    }

    /**
     * The `try` block of `handleSendMessage`: a response with a body gets a
     * placeholder bot message that the read loop then fills; `failed` says
     * whether the catch step runs.
     */
    method Request(response: Response, ghost prev: seq<Message>, user: Message) returns (failed: bool)
      requires Settled(prev) && user == Message(|prev| + 1, user.text, User, false)
      requires messages == prev + [user]
      modifies this`messages
      ensures failed <==> !response.Body? || response.readRejects
      ensures Unsettled(prev, messages + if failed then [Message(user.id + 1, ErrorText, Bot, false)] else [], user.text, response)
    {
      failed := true;
      if response.Body? {
        var botMessage := Message(user.id + 1, "", Bot, true);
        PlaceholderIsFresh(prev, user, botMessage);
        messages := messages + [botMessage];
        failed := ReadStream(response.chunks, response.readRejects, botMessage.id);
        assert messages == prev + [user, Message(user.id + 1, Concat(response.chunks), Bot, response.chunks == [])];
      }
    }

    /**
     * The `catch` and `finally` steps of `handleSendMessage`: the catch step
     * appends the error message, then `finally` clears every loading flag,
     * which settles the store into `prev` plus what the send appends.
     */
    method Settle(failed: bool, errorId: int, ghost prev: seq<Message>, ghost text: string, ghost response: Response)
      requires errorId == |prev| + 2
      requires Settled(prev)
      requires Unsettled(prev, messages + if failed then [Message(errorId, ErrorText, Bot, false)] else [], text, response)
      modifies this`messages, this`isLoading
      ensures !isLoading
      ensures messages == prev + Appended(|prev|, text, response)
      ensures Settled(messages)
    {
      if failed {
        messages := messages + [Message(errorId, ErrorText, Bot, false)];
      }
      isLoading := false;
      SendSettles(prev, messages, text, response);
      messages := ClearBotLoading(messages);
      AppendedSettled(prev, text, response);
    }

    /**
     * One chat turn: append the user message, append a placeholder once a
     * body exists, stream the reply into it, append the error message on any
     * failure, and finally clear every loading flag.
     */
    method HandleSendMessage(response: Response)
      requires Valid()
      modifies this`messages, this`inputText, this`isLoading
      ensures Valid()
      ensures Blank(old(inputText)) ==>
        messages == old(messages) && inputText == old(inputText) && isLoading == old(isLoading)
      ensures !Blank(old(inputText)) ==>
        && messages == old(messages) + Appended(|old(messages)|, old(inputText), response)
        && inputText == ""
        && !isLoading
    {
      TrimEmptyIffBlank(inputText);
      if Trim(inputText) != "" {
        ghost var prev := messages;
        var newMessage := AddUserMessage();
        var failed := Request(response, prev, newMessage);
        Settle(failed, newMessage.id + 1, prev, newMessage.text, response);
      }
    }
  }
}
