/** The mock socket of hooks/useSocket.ts: a subscriber table with one slot
    for the `receiveMessage` handler and one for the `userTyping` handler,
    a one-second reply timer per `sendMessage` emit, and a three-second
    typing interval.

    Timers are explicit events. Every reply timer has the same delay, so
    they fire in the order they were scheduled: `pending` lists the data of
    each scheduled reply in that order and `FireReply` fires the oldest.
    `TypingTick` is one firing of the typing interval, with the outcome of
    `Math.random() > 0.7` passed in as a boolean. A handler is a token
    naming the closure that was registered; a firing returns the handler
    it called and the argument it passed. */
module Socket {
  import opened Records

  const SendMessageEvent := "sendMessage"
  const ReceiveMessageEvent := "receiveMessage"
  const UserTypingEvent := "userTyping"

  /** The prefix of every synthesised reply. */
  const ReplyPrefix := "Reply to: "

  /** Identifies a registered callback. */
  datatype Callback = Callback(id: nat)

  /** One call of a registered callback `to` with argument `arg`. */
  datatype Delivery<T> = Delivery(to: Callback, arg: T)

  /** The text of the reply to `data`: the prefix followed by `data.text`
      as a template literal prints it. */
  function ReplyText(data: Payload): (t: string)
  {
    ReplyPrefix + Interpolate(TextField(data))
  }

  /** The reply object built when the timer for `data` fires at time `now`:
      only `text`, `sender` and `timestamp` are set. */
  function Reply(data: Payload, now: string): Message
  {
    Message(None, None, Some(ReplyText(data)), RemoteUser, now)
  }

  /** The reply text quotes the sent `text` field and nothing else: two
      replies read the same exactly when the quoted fields render the same.
      A missing field and a field holding "undefined" are therefore
      indistinguishable in the reply. */
  lemma ReplyTextQuotes(a: Payload, b: Payload)
    ensures ReplyText(a) == ReplyText(b) <==> Interpolate(TextField(a)) == Interpolate(TextField(b))
  {
    if ReplyText(a) == ReplyText(b) {
      assert ReplyText(a)[|ReplyPrefix|..] == Interpolate(TextField(a));
      assert ReplyText(b)[|ReplyPrefix|..] == Interpolate(TextField(b));
    }
  }

  /** A message built by the chat page has no `text` field, so the reply to
      it always reads "Reply to: undefined", whatever the message says. */
  lemma ReplyToPageMessage(m: Message, now: string)
    requires m.text.None?
    ensures Reply(Msg(m), now).text == Some("Reply to: undefined")
    ensures Reply(Msg(m), now).sender == RemoteUser
    ensures Reply(Msg(m), now).kind.None? && Reply(Msg(m), now).content.None?
  {
    assert ReplyPrefix + "undefined" == "Reply to: undefined";
  }

  class MockSocket {
    /** The `onReceiveMessage` slot; `None` is `null`. */
    var onReceiveMessage: Option<Callback>
    /** The `onUserTyping` slot; `None` is `null`. */
    var onUserTyping: Option<Callback>
    /** The data of every `sendMessage` emit whose reply timer has not yet
        fired, oldest first. */
    var pending: seq<Payload>

    constructor ()
      ensures onReceiveMessage == None && onUserTyping == None
      ensures pending == []
    {
      onReceiveMessage := None;
      onUserTyping := None;
      pending := [];
    }

    /** `emit(event, data)`: only `sendMessage` schedules a reply timer;
        every other event only logs. */
    method Emit(event: string, data: Payload)
      modifies this
      ensures onReceiveMessage == old(onReceiveMessage) && onUserTyping == old(onUserTyping)
      ensures event == SendMessageEvent ==> pending == old(pending) + [data]
      ensures event != SendMessageEvent ==> pending == old(pending)
    {
      if event == SendMessageEvent {
        pending := pending + [data];
      }
    }

    /** `on(event, callback)`: the slot named by `event` now holds `cb`,
        replacing what it held; an unknown event changes nothing. */
    method On(event: string, cb: Callback)
      modifies this
      ensures pending == old(pending)
      ensures onReceiveMessage == if event == ReceiveMessageEvent then Some(cb) else old(onReceiveMessage)
      ensures onUserTyping == if event == UserTypingEvent then Some(cb) else old(onUserTyping)
    {
      if event == ReceiveMessageEvent {
        onReceiveMessage := Some(cb);
      } else if event == UserTypingEvent {
        onUserTyping := Some(cb);
      }
    }

    /** `off(event)`: the slot named by `event` is emptied; the other slot,
        and everything for an unknown event, is unchanged. */
    method Off(event: string)
      modifies this
      ensures pending == old(pending)
      ensures onReceiveMessage == if event == ReceiveMessageEvent then None else old(onReceiveMessage)
      ensures onUserTyping == if event == UserTypingEvent then None else old(onUserTyping)
    {
      if event == ReceiveMessageEvent {
        onReceiveMessage := None;
      } else if event == UserTypingEvent {
        onUserTyping := None;
      }
    }

    /** The oldest reply timer fires at time `now`: its reply goes to the
        receive handler registered at this moment, and is dropped when
        there is none. */
    method FireReply(now: string) returns (d: Option<Delivery<Message>>)
      requires pending != []
      modifies this
      ensures pending == old(pending)[1..]
      ensures onReceiveMessage == old(onReceiveMessage) && onUserTyping == old(onUserTyping)
      ensures d.None? <==> onReceiveMessage.None?
      ensures d.Some? ==> d.value == Delivery(onReceiveMessage.value, Reply(old(pending)[0], now))
    {
      var data := pending[0];
      pending := pending[1..];
      if onReceiveMessage.Some? {
        d := Some(Delivery(onReceiveMessage.value, Reply(data, now)));
      } else {
        d := None;
      }
    }

    /** One firing of the typing interval, where `coin` is the outcome of
        `Math.random() > 0.7`: the typing handler, if registered, receives
        `{isTyping: coin}`. Nothing in the socket changes. */
    method TypingTick(coin: bool) returns (d: Option<Delivery<bool>>)
      ensures d.None? <==> onUserTyping.None?
      ensures d.Some? ==> d.value == Delivery(onUserTyping.value, coin)
    {
      if onUserTyping.Some? {
        d := Some(Delivery(onUserTyping.value, coin));
      } else {
        d := None;
      }
    }
  }

  /** Registering twice for `receiveMessage` keeps only the second handler:
      the reply to a send goes to it. */
  method LastRegistrationWins(first: Callback, second: Callback, data: Payload, now: string)
    returns (d: Option<Delivery<Message>>)
    ensures d == Some(Delivery(second, Reply(data, now)))
  {
    var s := new MockSocket();
    s.On(ReceiveMessageEvent, first);
    s.On(ReceiveMessageEvent, second);
    s.Emit(SendMessageEvent, data);
    d := s.FireReply(now);
  }

  /** Removing the receive handler after a send but before its timer fires
      means the reply is never delivered. */
  method OffBeforeFireDropsReply(cb: Callback, data: Payload, now: string)
    returns (d: Option<Delivery<Message>>, left: nat)
    ensures d == None
    ensures left == 0
  {
    var s := new MockSocket();
    s.On(ReceiveMessageEvent, cb);
    s.Emit(SendMessageEvent, data);
    s.Off(ReceiveMessageEvent);
    d := s.FireReply(now);
    left := |s.pending|;
  }
}
