/** The chat screen of app/chat/page.tsx: the conversation is an
    append-only list of message records and the draft is a string. The
    page owns the mock socket (hooks/useSocket.ts), registers its two
    callbacks when it mounts and removes them when it unmounts; timer
    firings of the socket are explicit methods that call back into the
    page. */
module Chat {
  import opened Records
  import opened Socket

  // ---------------------------------------------------------------------
  // String.prototype.trim

  /** The characters `trim` removes: ECMAScript WhiteSpace and
      LineTerminator code points. */
  predicate IsWhitespace(c: char)
  {
    var n := c as int;
    || n == 0x09 || n == 0x0A || n == 0x0B || n == 0x0C || n == 0x0D
    || n == 0x20 || n == 0xA0 || n == 0x1680
    || (0x2000 <= n <= 0x200A)
    || n == 0x2028 || n == 0x2029 || n == 0x202F || n == 0x205F
    || n == 0x3000 || n == 0xFEFF
  }

  predicate AllWhitespace(s: string)
  {
    forall i :: 0 <= i < |s| ==> IsWhitespace(s[i])
  }

  /** `s` without its leading whitespace: a suffix of `s`, all that was
      dropped is whitespace, and it does not start with whitespace. */
  function TrimStart(s: string): (r: string)
    ensures |r| <= |s| && r == s[|s| - |r|..]
    ensures AllWhitespace(s[..|s| - |r|])
    ensures r == [] || !IsWhitespace(r[0])
  {
    if s != [] && IsWhitespace(s[0]) then
      var r := TrimStart(s[1..]);
      assert s[..|s| - |r|] == [s[0]] + s[1..][..|s| - 1 - |r|];
      r
    else
      s
  }

  /** `s` without its trailing whitespace: a prefix of `s`, all that was
      dropped is whitespace, and it does not end with whitespace. */
  function TrimEnd(s: string): (r: string)
    ensures |r| <= |s| && r == s[..|r|]
    ensures AllWhitespace(s[|r|..])
    ensures r == [] || !IsWhitespace(r[|r| - 1])
  {
    if s != [] && IsWhitespace(s[|s| - 1]) then
      var r := TrimEnd(s[..|s| - 1]);
      assert s[|r|..] == s[..|s| - 1][|r|..] + [s[|s| - 1]];
      r
    else
      s
  }

  /** `s.trim()`: `s` with a whitespace prefix and a whitespace suffix
      removed; empty exactly when `s` is all whitespace, and otherwise
      neither starting nor ending with whitespace. */
  function Trim(s: string): (r: string)
    ensures |r| <= |s|
    ensures exists k :: StripsAt(s, r, k)
    ensures r == [] <==> AllWhitespace(s)
    ensures r == [] || (!IsWhitespace(r[0]) && !IsWhitespace(r[|r| - 1]))
  {
    var u := TrimStart(s);
    TrimsEmptyIff(s, u);
    var r := TrimEnd(u);
    assert r == [] || r[0] == u[0];
    TrimWitness(s, u, r);
    r
  }

  /** `r` is `s` with its first `k` characters and the characters after
      `k + |r|` removed, and all that was removed is whitespace. */
  predicate StripsAt(s: string, r: string, k: int)
  {
    0 <= k <= |s| - |r| && r == s[k..k + |r|]
    && AllWhitespace(s[..k]) && AllWhitespace(s[k + |r|..])
  }

  /** The middle of `s` that `Trim` keeps sits between the whitespace
      `TrimStart` dropped and the whitespace `TrimEnd` dropped. */
  lemma TrimWitness(s: string, u: string, r: string)
    requires |u| <= |s| && u == s[|s| - |u|..] && AllWhitespace(s[..|s| - |u|])
    requires |r| <= |u| && r == u[..|r|] && AllWhitespace(u[|r|..])
    ensures exists k :: StripsAt(s, r, k)
  {
    var k := |s| - |u|;
    assert r == s[k..k + |r|];
    assert s[k + |r|..] == u[|r|..];
    assert StripsAt(s, r, k);
  }

  /** `!s.trim()`: the draft is blank exactly when every character of it
      is whitespace. */
  predicate IsBlank(s: string)
    ensures IsBlank(s) <==> AllWhitespace(s)
  {
    Trim(s) == ""
  }

  lemma TrimsEmptyIff(s: string, u: string)
    requires u == TrimStart(s)
    ensures TrimEnd(u) == [] <==> AllWhitespace(s)
  {
    var k := |s| - |u|;
    if AllWhitespace(s) {
      WhitespaceSuffix(s, k);
    }
    if TrimEnd(u) == [] {
      assert u[|TrimEnd(u)|..] == u;
      WhitespaceJoin(s[..k], u);
      assert s[..k] + u == s;
    }
  }

  lemma WhitespaceSuffix(s: string, k: nat)
    requires AllWhitespace(s) && k <= |s|
    ensures AllWhitespace(s[k..])
  {
    forall i | 0 <= i < |s| - k
      ensures IsWhitespace(s[k..][i])
    {
      assert s[k..][i] == s[k + i];
    }
  }

  lemma WhitespaceJoin(a: string, b: string)
    requires AllWhitespace(a) && AllWhitespace(b)
    ensures AllWhitespace(a + b)
  {
    forall i | 0 <= i < |a + b|
      ensures IsWhitespace((a + b)[i])
    {
      if i < |a| {
        assert (a + b)[i] == a[i];
      } else {
        assert (a + b)[i] == b[i - |a|];
      }
    }
  }

  /** Trimming twice changes nothing more. */
  lemma TrimIdempotent(s: string)
    ensures Trim(Trim(s)) == Trim(s)
  {
    var t := Trim(s);
    var u := TrimStart(s);
    if t != [] {
      assert t[0] == u[0];
      assert TrimStart(t) == t;
      assert TrimEnd(t) == t;
    }
  }

  // ---------------------------------------------------------------------
  // Pure rules of the screen

  /** `e.key === "Enter" && !e.shiftKey`: the key press that sends. */
  predicate IsSendKey(key: string, shiftKey: bool)
  {
    key == "Enter" && !shiftKey
  }

  /** Message `i` opens a group: it is the first, or its predecessor has a
      different sender. */
  predicate ShowAvatar(ms: seq<Message>, i: nat)
    requires i < |ms|
  {
    i == 0 || ms[i - 1].sender != ms[i].sender
  }

  /** An avatar is drawn beside message `i`: it opens a group and is not
      from the local user. */
  predicate DrawsAvatar(ms: seq<Message>, i: nat)
    requires i < |ms|
  {
    ms[i].sender != LocalUser && ShowAvatar(ms, i)
  }

  /** The first message of the run of same-sender messages that ends at
      `i`: it opens a group, and no message after it up to `i` does. */
  function GroupStart(ms: seq<Message>, i: nat): (g: nat)
    requires i < |ms|
    ensures g <= i && ShowAvatar(ms, g)
    ensures forall j :: g <= j <= i ==> ms[j].sender == ms[i].sender
    ensures forall j :: g < j <= i ==> !ShowAvatar(ms, j)
  {
    if ShowAvatar(ms, i) then i else GroupStart(ms, i - 1)
  }

  /** Each run of messages from one sender shows exactly one avatar
      position, at its first message. */
  lemma ShowAvatarIffGroupStart(ms: seq<Message>, i: nat)
    requires i < |ms|
    ensures ShowAvatar(ms, i) <==> GroupStart(ms, i) == i
  {
  }

  /** Appending a message never changes the grouping of the messages
      already shown, and the new one opens a group exactly when its sender
      differs from the previous last message's. */
  lemma AvatarsStableUnderAppend(ms: seq<Message>, m: Message)
    ensures forall i :: 0 <= i < |ms| ==> (ShowAvatar(ms + [m], i) <==> ShowAvatar(ms, i))
    ensures ShowAvatar(ms + [m], |ms|) <==> ms == [] || ms[|ms| - 1].sender != m.sender
  {
  }

  /** Within a run of messages from one remote sender exactly one avatar
      is drawn, beside the run's first message; no avatar is ever drawn
      beside the local user's messages. */
  lemma OneAvatarPerRun(ms: seq<Message>, i: nat)
    requires i < |ms|
    ensures ms[i].sender != LocalUser ==>
      forall j :: GroupStart(ms, i) <= j <= i ==> (DrawsAvatar(ms, j) <==> j == GroupStart(ms, i))
    ensures ms[i].sender == LocalUser ==> !DrawsAvatar(ms, i)
  {
  }

  // ---------------------------------------------------------------------
  // The page's state

  const PlaceholderAvatar := "/placeholder-avatar.svg"
  /** The room the page joins when it mounts. */
  const RoomId := "room1"

  /** The callback the page registers for `receiveMessage` (append). */
  const AppendCallback := Callback(0)
  /** The callback the page registers for `userTyping` (set the flag). */
  const TypingCallback := Callback(1)

  /** `stored || fallback` for a `localStorage` read: a missing or empty
      entry gives the fallback. */
  function StoredOr(stored: Option<string>, fallback: string): string
  {
    if stored.Some? && stored.value != "" then stored.value else fallback
  }

  /** The four text messages the conversation starts with, stamped with the
      given times. */
  function SeedConversation(stamps: seq<string>): (ms: seq<Message>)
    requires |stamps| == 4
    ensures |ms| == 4
    ensures forall i :: 0 <= i < 4 ==> ms[i].kind == Some(Text) && ms[i].text.None? && ms[i].timestamp == stamps[i]
  {
    [ PageMessage(Text, Str("Hello there!"), stamps[0]).(sender := RemoteUser),
      PageMessage(Text, Str("Hi! How are you?"), stamps[1]),
      PageMessage(Text, Str("I'm doing great, thanks for asking!"), stamps[2]).(sender := RemoteUser),
      PageMessage(Text, Str("What are you up to today?"), stamps[3]) ]
  }

  /** The seeded conversation alternates senders, so every message opens a
      group, and avatars are drawn beside exactly the remote user's two
      messages. */
  lemma SeedAvatars(stamps: seq<string>)
    requires |stamps| == 4
    ensures forall i :: 0 <= i < 4 ==> ShowAvatar(SeedConversation(stamps), i)
    ensures forall i :: 0 <= i < 4 ==> (DrawsAvatar(SeedConversation(stamps), i) <==> i == 0 || i == 2)
  {
    var ms := SeedConversation(stamps);
    assert ms[0].sender == RemoteUser && ms[1].sender == LocalUser;
    assert ms[2].sender == RemoteUser && ms[3].sender == LocalUser;
  }

  /** The document descriptor the page builds from a selected file. */
  datatype FileMeta = FileMeta(name: string, size: nat, mimeType: string)

  class ChatPage {
    const socket: MockSocket
    var messages: seq<Message>
    /** The text area's content (`msg`). */
    var draft: string
    var isTyping: bool
    var username: string
    var profilePicture: string

    /** The first render: the seeded conversation, an empty draft, the
        identity read from storage, and a fresh socket with no handlers. */
    constructor (storedName: Option<string>, storedPicture: Option<string>, stamps: seq<string>)
      requires |stamps| == 4
      ensures fresh(socket)
      ensures messages == SeedConversation(stamps) && draft == "" && !isTyping
      ensures username == StoredOr(storedName, "")
      ensures profilePicture == StoredOr(storedPicture, PlaceholderAvatar)
      ensures socket.onReceiveMessage == None && socket.onUserTyping == None && socket.pending == []
    {
      socket := new MockSocket();
      messages := SeedConversation(stamps);
      draft := "";
      isTyping := false;
      username := StoredOr(storedName, "");
      profilePicture := StoredOr(storedPicture, PlaceholderAvatar);
    }

    /** The mount effect: join the room (which the socket only logs) and
        register both callbacks. */
    method Mount()
      modifies socket
      ensures socket.onReceiveMessage == Some(AppendCallback)
      ensures socket.onUserTyping == Some(TypingCallback)
      ensures socket.pending == old(socket.pending)
    {
      socket.Emit("joinRoom", Room(RoomId));
      socket.On(ReceiveMessageEvent, AppendCallback);
      socket.On(UserTypingEvent, TypingCallback);
    }

    /** The mount effect's cleanup: remove both callbacks. Reply timers
        already scheduled stay scheduled. */
    method Unmount()
      modifies socket
      ensures socket.onReceiveMessage == None && socket.onUserTyping == None
      ensures socket.pending == old(socket.pending)
    {
      socket.Off(ReceiveMessageEvent);
      socket.Off(UserTypingEvent);
    }

    /** The text area's change handler: the draft becomes its value. */
    method HandleChange(value: string)
      modifies this
      ensures draft == value
      ensures messages == old(messages) && isTyping == old(isTyping)
      ensures username == old(username) && profilePicture == old(profilePicture)
    {
      draft := value;
    }

    /** `sendMessage`: a blank draft changes nothing; otherwise one text
        message from the local user, holding the untrimmed draft, is
        emitted and appended, and the draft is cleared. */
    method SendMessage(now: string)
      modifies this, socket
      ensures IsBlank(old(draft)) ==>
        messages == old(messages) && draft == old(draft) && socket.pending == old(socket.pending)
      ensures !IsBlank(old(draft)) ==>
        var sent := PageMessage(Text, Str(old(draft)), now);
        messages == old(messages) + [sent] && draft == "" &&
        socket.pending == old(socket.pending) + [Msg(sent)]
      ensures socket.onReceiveMessage == old(socket.onReceiveMessage)
      ensures socket.onUserTyping == old(socket.onUserTyping)
      ensures isTyping == old(isTyping)
      ensures username == old(username) && profilePicture == old(profilePicture)
    {
      if IsBlank(draft) {
        return;
      }
      var sent := PageMessage(Text, Str(draft), now);
      socket.Emit(SendMessageEvent, Msg(sent));
      messages := messages + [sent];
      draft := "";
    }

    /** `handleKeyDown`: Enter without Shift sends; any other key leaves
        the state as it is. `preventDefault` and the text area's own key
        action are not part of this handler's effect. */
    method HandleKeyDown(key: string, shiftKey: bool, now: string)
      modifies this, socket
      ensures !IsSendKey(key, shiftKey) || IsBlank(old(draft)) ==>
        messages == old(messages) && draft == old(draft) && socket.pending == old(socket.pending)
      ensures IsSendKey(key, shiftKey) && !IsBlank(old(draft)) ==>
        var sent := PageMessage(Text, Str(old(draft)), now);
        messages == old(messages) + [sent] && draft == "" &&
        socket.pending == old(socket.pending) + [Msg(sent)]
      ensures socket.onReceiveMessage == old(socket.onReceiveMessage)
      ensures socket.onUserTyping == old(socket.onUserTyping)
      ensures isTyping == old(isTyping)
      ensures username == old(username) && profilePicture == old(profilePicture)
    {
      if IsSendKey(key, shiftKey) {
        SendMessage(now);
      }
    }

    /** `handleEmojiSelect`: the emoji is added at the end of the draft. */
    method HandleEmojiSelect(emoji: string)
      modifies this
      ensures draft == old(draft) + emoji
      ensures messages == old(messages) && isTyping == old(isTyping)
      ensures username == old(username) && profilePicture == old(profilePicture)
    {
      draft := draft + emoji;
    }

    /** `handleLogout`: the identity is reset to no name and the
        placeholder picture. */
    method HandleLogout()
      modifies this
      ensures username == "" && profilePicture == PlaceholderAvatar
      ensures messages == old(messages) && draft == old(draft) && isTyping == old(isTyping)
    {
      username := "";
      profilePicture := PlaceholderAvatar;
    }

    /** The `receiveMessage` callback: the message is appended as it came. */
    method ReceiveMessage(m: Message)
      modifies this
      ensures messages == old(messages) + [m]
      ensures draft == old(draft) && isTyping == old(isTyping)
      ensures username == old(username) && profilePicture == old(profilePicture)
    {
      messages := messages + [m];
    }

    /** The `userTyping` callback: the typing flag takes the given value. */
    method SetTyping(b: bool)
      modifies this
      ensures isTyping == b
      ensures messages == old(messages) && draft == old(draft)
      ensures username == old(username) && profilePicture == old(profilePicture)
    {
      isTyping := b;
    }

    /** The oldest reply timer of the socket fires: when the page's append
        callback is registered, the reply is appended; otherwise the list
        is unchanged. */
    method ReplyTimerFires(now: string)
      requires socket.pending != []
      modifies this, socket
      ensures socket.pending == old(socket.pending)[1..]
      ensures socket.onReceiveMessage == old(socket.onReceiveMessage)
      ensures socket.onUserTyping == old(socket.onUserTyping)
      ensures messages == old(messages) +
        (if socket.onReceiveMessage == Some(AppendCallback)
         then [Reply(old(socket.pending)[0], now)] else [])
      ensures draft == old(draft) && isTyping == old(isTyping)
      ensures username == old(username) && profilePicture == old(profilePicture)
    {
      var d := socket.FireReply(now);
      if d.Some? && d.value.to == AppendCallback {
        ReceiveMessage(d.value.arg);
      }
    }

    /** The socket's typing interval fires with `coin` as its random
        outcome: when the page's typing callback is registered the flag
        takes `coin`; otherwise it is unchanged. */
    method TypingTimerFires(coin: bool)
      modifies this
      ensures isTyping == if socket.onUserTyping == Some(TypingCallback) then coin else old(isTyping)
      ensures messages == old(messages) && draft == old(draft)
      ensures username == old(username) && profilePicture == old(profilePicture)
    {
      var d := socket.TypingTick(coin);
      if d.Some? && d.value.to == TypingCallback {
        SetTyping(d.value.arg);
      }
    }

    /** The document branch of `handleFileSelect`: a document message with
        the file's name, size, type and object URL is emitted and
        appended. */
    method AttachDocument(file: FileMeta, objectUrl: string, now: string)
      modifies this, socket
      ensures var sent := PageMessage(Document, FileDescriptor(file.name, file.size, file.mimeType, objectUrl), now);
        messages == old(messages) + [sent] && socket.pending == old(socket.pending) + [Msg(sent)]
      ensures socket.onReceiveMessage == old(socket.onReceiveMessage)
      ensures socket.onUserTyping == old(socket.onUserTyping)
      ensures draft == old(draft) && isTyping == old(isTyping)
      ensures username == old(username) && profilePicture == old(profilePicture)
    {
      var sent := PageMessage(Document, FileDescriptor(file.name, file.size, file.mimeType, objectUrl), now);
      socket.Emit(SendMessageEvent, Msg(sent));
      messages := messages + [sent];
    }

    /** The location branch of `handleFileSelect`, once the file has been
        read: `parsed` is what `JSON.parse` returned, `None` when it threw.
        A parsed value is emitted and appended as a location message; a
        parse failure appends and emits nothing. */
    method LocationFileLoaded(parsed: Option<JsonValue>, now: string)
      modifies this, socket
      ensures parsed.None? ==> messages == old(messages) && socket.pending == old(socket.pending)
      ensures parsed.Some? ==>
        var sent := PageMessage(Location, Parsed(parsed.value), now);
        messages == old(messages) + [sent] && socket.pending == old(socket.pending) + [Msg(sent)]
      ensures socket.onReceiveMessage == old(socket.onReceiveMessage)
      ensures socket.onUserTyping == old(socket.onUserTyping)
      ensures draft == old(draft) && isTyping == old(isTyping)
      ensures username == old(username) && profilePicture == old(profilePicture)
    {
      if parsed.Some? {
        var sent := PageMessage(Location, Parsed(parsed.value), now);
        socket.Emit(SendMessageEvent, Msg(sent));
        messages := messages + [sent];
      }
    }

    /** The image and audio branches of `handleFileSelect`, once the file
        has been read as a data URL: a message of that kind holding the
        data URL is emitted and appended. */
    method MediaFileLoaded(kind: Kind, dataUrl: string, now: string)
      requires kind == Image || kind == Audio
      modifies this, socket
      ensures var sent := PageMessage(kind, Str(dataUrl), now);
        messages == old(messages) + [sent] && socket.pending == old(socket.pending) + [Msg(sent)]
      ensures socket.onReceiveMessage == old(socket.onReceiveMessage)
      ensures socket.onUserTyping == old(socket.onUserTyping)
      ensures draft == old(draft) && isTyping == old(isTyping)
      ensures username == old(username) && profilePicture == old(profilePicture)
    {
      var sent := PageMessage(kind, Str(dataUrl), now);
      socket.Emit(SendMessageEvent, Msg(sent));
      messages := messages + [sent];
    }
  }

  // ---------------------------------------------------------------------
  // Whole-page scenarios

  /** Typing a non-blank text and pressing Enter on a mounted page appends
      the text as the fifth message; one second later the socket's reply
      is the sixth, from the remote user, and it reads
      "Reply to: undefined" because the page's messages have no `text`
      field. */
  method SendAndReply(text: string, stamps: seq<string>, sentAt: string, repliedAt: string)
    returns (ms: seq<Message>, draft: string)
    requires |stamps| == 4 && !IsBlank(text)
    ensures |ms| == 6 && draft == ""
    ensures ms[4].kind == Some(Text) && ms[4].content == Some(Str(text)) && ms[4].sender == LocalUser
    ensures ms[5].sender == RemoteUser && ms[5].text == Some("Reply to: undefined")
    ensures ms[5].kind.None? && ms[5].content.None?
  {
    var page := new ChatPage(Some("alice"), None, stamps);
    page.Mount();
    page.HandleChange(text);
    page.HandleKeyDown("Enter", false, sentAt);
    ReplyToPageMessage(PageMessage(Text, Str(text), sentAt), repliedAt);
    page.ReplyTimerFires(repliedAt);
    ms, draft := page.messages, page.draft;
  }

  /** A page that unmounts before the reply timer fires never sees the
      reply, though the timer still fires. */
  method ReplyAfterUnmountIsDropped(text: string, stamps: seq<string>, sentAt: string, repliedAt: string)
    returns (count: nat, pendingLeft: nat)
    requires |stamps| == 4 && !IsBlank(text)
    ensures count == 5 && pendingLeft == 0
  {
    var page := new ChatPage(None, None, stamps);
    page.Mount();
    page.HandleChange(text);
    page.SendMessage(sentAt);
    page.Unmount();
    page.ReplyTimerFires(repliedAt);
    count, pendingLeft := |page.messages|, |page.socket.pending|;
  }

  /** For Enter with Shift held, or Enter on a whitespace-only draft, the
      key handler sends nothing, schedules no reply and does not itself
      change the draft (a newline the text area inserts for Shift+Enter
      reaches the draft only through a later `HandleChange`). */
  method NothingSent(text: string, stamps: seq<string>, now: string)
    returns (count: nat, pendingCount: nat, draft: string)
    requires |stamps| == 4 && AllWhitespace(text)
    ensures count == 4 && pendingCount == 0 && draft == text
  {
    var page := new ChatPage(None, None, stamps);
    page.Mount();
    page.HandleChange(text);
    page.HandleKeyDown("Enter", true, now);
    page.HandleKeyDown("Enter", false, now);
    count, pendingCount, draft := |page.messages|, |page.socket.pending|, page.draft;
  }
}
