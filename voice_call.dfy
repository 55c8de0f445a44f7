/** The voice-call overlay of components/voice-call.tsx: a status that
    moves once from connecting to connected when the two-second timer
    fires, a duration counter that a one-second interval advances only
    while connected, and two independent toggles. Each timer firing is an
    explicit method call. */
module VoiceCall {
  import opened Records
  import opened CallTimer

  class VoiceCall {
    var isMuted: bool
    var isSpeakerOff: bool
    var callDuration: nat
    var callStatus: CallStatus
    /** The two-second connection timer is scheduled and has not fired. */
    var connectPending: bool

    /** The connection timer is pending exactly while connecting, and no
        second is counted before the call connects. */
    ghost predicate Valid()
      reads this
    {
      && (connectPending <==> callStatus == Connecting)
      && (callStatus == Connecting ==> callDuration == 0)
    }

    /** Mounting the overlay: unmuted, speaker on, zero seconds,
        connecting, with the connection timer scheduled. */
    constructor ()
      ensures Valid()
      ensures !isMuted && !isSpeakerOff
      ensures callDuration == 0 && callStatus == Connecting && connectPending
    {
      isMuted := false;
      isSpeakerOff := false;
      callDuration := 0;
      callStatus := Connecting;
      connectPending := true;
    }

    /** The connection timer fires: the call is connected from now on. */
    method ConnectTimerFires()
      requires Valid() && connectPending
      modifies this
      ensures Valid()
      ensures callStatus == Connected && !connectPending
      ensures callDuration == old(callDuration) == 0
      ensures isMuted == old(isMuted) && isSpeakerOff == old(isSpeakerOff)
    {
      callStatus := Connected;
      connectPending := false;
    }

    /** One second passes: the duration interval exists, and adds one,
        only while connected. */
    method Tick()
      requires Valid()
      modifies this
      ensures Valid()
      ensures callDuration == if old(callStatus) == Connected then old(callDuration) + 1 else old(callDuration)
      ensures callStatus == old(callStatus) && connectPending == old(connectPending)
      ensures isMuted == old(isMuted) && isSpeakerOff == old(isSpeakerOff)
    {
      if callStatus == Connected {
        callDuration := callDuration + 1;
      }
    }

    /** The microphone button flips `isMuted` and nothing else. */
    method ToggleMute()
      requires Valid()
      modifies this
      ensures Valid()
      ensures isMuted == !old(isMuted) && isSpeakerOff == old(isSpeakerOff)
      ensures callDuration == old(callDuration) && callStatus == old(callStatus)
      ensures connectPending == old(connectPending)
    {
      isMuted := !isMuted;
    }

    /** The speaker button flips `isSpeakerOff` and nothing else. */
    method ToggleSpeaker()
      requires Valid()
      modifies this
      ensures Valid()
      ensures isSpeakerOff == !old(isSpeakerOff) && isMuted == old(isMuted)
      ensures callDuration == old(callDuration) && callStatus == old(callStatus)
      ensures connectPending == old(connectPending)
    {
      isSpeakerOff := !isSpeakerOff;
    }

    /** The status line under the caller's name. */
    function StatusText(): (t: string)
      reads this
      ensures t == ConnectingText <==> callStatus == Connecting
      ensures callStatus == Connected ==> t == FormatDuration(callDuration) && ParseDuration(t) == Some(callDuration)
    {
      StatusLine(callStatus, callDuration)
    }
  }

  /** A call that waits `waiting` seconds to connect, then has the
      buttons in `presses` pressed (`true` the microphone, `false` the
      speaker) and runs for `talking` seconds, shows exactly `talking`
      seconds: nothing is counted while connecting, one per second
      afterwards, and the toggles change nothing of it. */
  method TalkTimeShown(waiting: nat, presses: seq<bool>, talking: nat) returns (shown: string)
    ensures shown == FormatDuration(talking)
    ensures ParseDuration(shown) == Some(talking)
  {
    var call := new VoiceCall();
    var i := 0;
    while i < waiting
      invariant 0 <= i <= waiting
      invariant call.Valid() && call.callStatus == Connecting
    {
      call.Tick();
      i := i + 1;
    }
    call.ConnectTimerFires();
    for j := 0 to |presses|
      invariant call.Valid() && call.callStatus == Connected && call.callDuration == 0
    {
      if presses[j] {
        call.ToggleMute();
      } else {
        call.ToggleSpeaker();
      }
    }
    i := 0;
    while i < talking
      invariant 0 <= i <= talking
      invariant call.Valid() && call.callStatus == Connected && call.callDuration == i
    {
      call.Tick();
      i := i + 1;
    }
    shown := call.StatusText();
  }
}
