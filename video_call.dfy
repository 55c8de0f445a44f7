/** The video-call overlay of components/video-call.tsx.

    The call asks for camera and microphone, then, whether that succeeded
    or failed, schedules a two-second timer after which it is connected;
    a one-second interval advances the duration only while connected. The
    camera and microphone buttons flip `isVideoOff` and `isMuted` and set
    `enabled` on the local stream's video or audio tracks.

    The source reaches the stream through the local `<video>` element
    (`localVideoRef.current?.srcObject`). That element is rendered only
    while the camera is on: turning the camera off unmounts it, and
    turning it back on mounts a new element whose `srcObject` is never
    set. `elementCarriesStream` records whether the mounted element holds
    the stream. The `...AsWritten` toggles model the source as written and
    reach the tracks only through that element; `ToggleVideo` and
    `ToggleMute` act on the acquired stream itself, which is the behaviour
    the source's comments ("Toggle to opposite of current state") intend. */
module VideoCall {
  import opened Records
  import opened CallTimer

  datatype TrackKind = VideoTrack | AudioTrack

  /** A `MediaStreamTrack`: its kind never changes, `enabled` is set in
      place. */
  class MediaTrack {
    const kind: TrackKind
    var enabled: bool

    /** A track as the browser hands it out: enabled. */
    constructor (k: TrackKind)
      ensures kind == k && enabled
    {
      kind := k;
      enabled := true;
    }
  }

  /** `stream.getVideoTracks()` / `getAudioTracks()` followed by
      `forEach((track) => { track.enabled = on })`: every track of `kind`
      ends with `enabled == on`, every other track is untouched. */
  method SetTracksEnabled(tracks: seq<MediaTrack>, kind: TrackKind, on: bool)
    modifies tracks
    ensures forall t :: t in tracks && t.kind == kind ==> t.enabled == on
    ensures forall t :: t in tracks && t.kind != kind ==> t.enabled == old(t.enabled)
  {
    for i := 0 to |tracks|
      invariant forall t :: t in tracks[..i] && t.kind == kind ==> t.enabled == on
      invariant forall t :: t in tracks && t.kind != kind ==> t.enabled == old(t.enabled)
    {
      if tracks[i].kind == kind {
        tracks[i].enabled := on;
      }
    }
    assert tracks[..|tracks|] == tracks;
  }

  /** What the full-screen area shows. */
  datatype RemoteArea = AvatarPlaceholder | RemoteVideo

  class VideoCall {
    var isMuted: bool
    var isVideoOff: bool
    var callDuration: nat
    var callStatus: CallStatus
    /** `getUserMedia` has not yet settled. */
    var mediaPending: bool
    /** The two-second connection timer is scheduled and has not fired. */
    var connectPending: bool
    /** The tracks of the acquired local stream; empty when acquisition
        failed or has not settled. */
    var stream: seq<MediaTrack>
    /** The mounted local `<video>` element holds the stream as its
        `srcObject`. */
    var elementCarriesStream: bool

    /** Connecting lasts until media has settled and the timer that this
        schedules has fired; no second is counted before that. Only a
        mounted local `<video>`, rendered while the camera is on, can hold
        the stream. */
    ghost predicate Valid()
      reads this
    {
      && (callStatus == Connecting <==> mediaPending || connectPending)
      && !(mediaPending && connectPending)
      && (callStatus == Connecting ==> callDuration == 0)
      && (mediaPending ==> stream == [] && !elementCarriesStream)
      && (elementCarriesStream ==> !isVideoOff)
    }

    /** Mounting the overlay: unmuted, camera on, connecting, waiting for
        media. */
    constructor ()
      ensures Valid()
      ensures !isMuted && !isVideoOff
      ensures callDuration == 0 && callStatus == Connecting
      ensures mediaPending && !connectPending
      ensures stream == [] && !elementCarriesStream
    {
      isMuted := false;
      isVideoOff := false;
      callDuration := 0;
      callStatus := Connecting;
      mediaPending := true;
      connectPending := false;
      stream := [];
      elementCarriesStream := false;
    }

    /** `getUserMedia` settles: `Some(tracks)` on success, `None` when it
        throws. Either way the connection timer is scheduled. On success the
        stream is attached to the local element if one is mounted, that is,
        if the camera is on. */
    method MediaSettled(result: Option<seq<MediaTrack>>)
      requires Valid() && mediaPending
      modifies this
      ensures Valid()
      ensures !mediaPending && connectPending && callStatus == Connecting
      ensures stream == (if result.Some? then result.value else [])
      ensures elementCarriesStream == (result.Some? && !isVideoOff)
      ensures isMuted == old(isMuted) && isVideoOff == old(isVideoOff)
      ensures callDuration == old(callDuration)
    {
      mediaPending := false;
      connectPending := true;
      if result.Some? {
        stream := result.value;
        elementCarriesStream := !isVideoOff;
      }
    }

    /** The connection timer fires: the call is connected from now on. */
    method ConnectTimerFires()
      requires Valid() && connectPending
      modifies this
      ensures Valid()
      ensures callStatus == Connected && !connectPending && !mediaPending
      ensures callDuration == old(callDuration) == 0
      ensures isMuted == old(isMuted) && isVideoOff == old(isVideoOff)
      ensures stream == old(stream) && elementCarriesStream == old(elementCarriesStream)
    {
      callStatus := Connected;
      connectPending := false;
    }

    /** One second passes: the duration interval exists, and adds one,
        only while connected. */
    method Tick()
      requires Valid()
      modifies this
      ensures Valid()
      ensures callDuration == if old(callStatus) == Connected then old(callDuration) + 1 else old(callDuration)
      ensures callStatus == old(callStatus)
      ensures mediaPending == old(mediaPending) && connectPending == old(connectPending)
      ensures isMuted == old(isMuted) && isVideoOff == old(isVideoOff)
      ensures stream == old(stream) && elementCarriesStream == old(elementCarriesStream)
    {
      if callStatus == Connected {
        callDuration := callDuration + 1;
      }
    }

    /** The camera button: flips `isVideoOff` and sets every video track of
        the stream to the new "camera on" state; audio tracks keep theirs.
        The local element is unmounted, or remounted without a source. */
    method ToggleVideo()
      requires Valid()
      modifies this, stream
      ensures Valid()
      ensures isVideoOff == !old(isVideoOff) && isMuted == old(isMuted)
      ensures forall t :: t in old(stream) && t.kind == VideoTrack ==> t.enabled == !isVideoOff
      ensures forall t :: t in old(stream) && t.kind == AudioTrack ==> t.enabled == old(t.enabled)
      ensures !elementCarriesStream && stream == old(stream)
      ensures callStatus == old(callStatus) && callDuration == old(callDuration)
      ensures mediaPending == old(mediaPending) && connectPending == old(connectPending)
    {
      isVideoOff := !isVideoOff;
      SetTracksEnabled(stream, VideoTrack, !isVideoOff);
      elementCarriesStream := false;
    }

    /** The microphone button: flips `isMuted` and sets every audio track
        of the stream to the new "microphone on" state; video tracks keep
        theirs. */
    method ToggleMute()
      requires Valid()
      modifies this, stream
      ensures Valid()
      ensures isMuted == !old(isMuted) && isVideoOff == old(isVideoOff)
      ensures forall t :: t in old(stream) && t.kind == AudioTrack ==> t.enabled == !isMuted
      ensures forall t :: t in old(stream) && t.kind == VideoTrack ==> t.enabled == old(t.enabled)
      ensures elementCarriesStream == old(elementCarriesStream) && stream == old(stream)
      ensures callStatus == old(callStatus) && callDuration == old(callDuration)
      ensures mediaPending == old(mediaPending) && connectPending == old(connectPending)
    {
      isMuted := !isMuted;
      SetTracksEnabled(stream, AudioTrack, !isMuted);
    }

    /** `toggleVideo` as written: the tracks are reached only when the
        mounted element holds the stream, and they are set to the old
        `isVideoOff`. Afterwards no mounted element holds the stream. */
    method ToggleVideoAsWritten()
      requires Valid()
      modifies this, stream
      ensures Valid()
      ensures isVideoOff == !old(isVideoOff) && isMuted == old(isMuted)
      ensures forall t :: t in old(stream) && t.kind == VideoTrack ==>
        t.enabled == if old(elementCarriesStream) then !isVideoOff else old(t.enabled)
      ensures forall t :: t in old(stream) && t.kind == AudioTrack ==> t.enabled == old(t.enabled)
      ensures !elementCarriesStream && stream == old(stream)
      ensures callStatus == old(callStatus) && callDuration == old(callDuration)
      ensures mediaPending == old(mediaPending) && connectPending == old(connectPending)
    {
      var wasOff := isVideoOff;
      isVideoOff := !isVideoOff;
      if elementCarriesStream {
        SetTracksEnabled(stream, VideoTrack, wasOff);
      }
      elementCarriesStream := false;
    }

    /** `toggleMute` as written: the audio tracks are reached only when the
        mounted element holds the stream. */
    method ToggleMuteAsWritten()
      requires Valid()
      modifies this, stream
      ensures Valid()
      ensures isMuted == !old(isMuted) && isVideoOff == old(isVideoOff)
      ensures forall t :: t in old(stream) && t.kind == AudioTrack ==>
        t.enabled == if elementCarriesStream then !isMuted else old(t.enabled)
      ensures forall t :: t in old(stream) && t.kind == VideoTrack ==> t.enabled == old(t.enabled)
      ensures elementCarriesStream == old(elementCarriesStream) && stream == old(stream)
      ensures callStatus == old(callStatus) && callDuration == old(callDuration)
      ensures mediaPending == old(mediaPending) && connectPending == old(connectPending)
    {
      var wasMuted := isMuted;
      isMuted := !isMuted;
      if elementCarriesStream {
        SetTracksEnabled(stream, AudioTrack, wasMuted);
      }
    }

    /** The full-screen area: the caller's avatar while the camera is off
        or the call is connecting, the remote video otherwise. */
    function Remote(): RemoteArea
      reads this
    {
      if isVideoOff || callStatus == Connecting then AvatarPlaceholder else RemoteVideo
    }

    /** The status line under the caller's name. */
    function StatusText(): (t: string)
      reads this
      ensures t == ConnectingText <==> callStatus == Connecting
      ensures callStatus == Connected ==> t == FormatDuration(callDuration) && ParseDuration(t) == Some(callDuration)
    {
      StatusLine(callStatus, callDuration)
    }
  }

  /** The call connects after the delay whether the camera and microphone
      were obtained or not, and then counts `talking` seconds. */
  method ConnectsEitherWay(obtained: bool, talking: nat) returns (shown: string, remote: RemoteArea)
    ensures shown == FormatDuration(talking)
    ensures ParseDuration(shown) == Some(talking)
    ensures remote == RemoteVideo
  {
    var call := new VideoCall();
    call.Tick();
    var cam := new MediaTrack(VideoTrack);
    call.MediaSettled(if obtained then Some([cam]) else None);
    call.Tick();
    call.ConnectTimerFires();
    var i := 0;
    while i < talking
      invariant 0 <= i <= talking
      invariant call.Valid() && call.callStatus == Connected && call.callDuration == i
      invariant !call.isVideoOff
    {
      call.Tick();
      i := i + 1;
    }
    shown := call.StatusText();
    remote := call.Remote();
  }

  /** The camera button pressed `before` times while connecting and
      `after` times once connected (the corrected toggle): while connecting
      the full-screen area shows the avatar whatever is pressed; once
      connected it alternates with each press, starting from the remote
      video exactly when `before` is odd. */
  method RemoteAreaFollowsCamera(before: nat, after: nat)
    returns (connecting: seq<RemoteArea>, connected: seq<RemoteArea>)
    ensures |connecting| == before && |connected| == after
    ensures forall k :: 0 <= k < before ==> connecting[k] == AvatarPlaceholder
    ensures after > 0 ==> (connected[0] == RemoteVideo <==> before % 2 == 1)
    ensures forall k :: 0 < k < after ==> (connected[k] == RemoteVideo <==> connected[k - 1] == AvatarPlaceholder)
  {
    var cam := new MediaTrack(VideoTrack);
    var call := new VideoCall();
    call.MediaSettled(Some([cam]));
    connecting := [];
    var i := 0;
    while i < before
      invariant i <= before && |connecting| == i
      invariant call.Valid() && call.callStatus == Connecting && call.connectPending
      invariant call.stream == [cam]
      invariant call.isVideoOff == (i % 2 == 1)
      invariant forall k :: 0 <= k < i ==> connecting[k] == AvatarPlaceholder
    {
      call.ToggleVideo();
      connecting := connecting + [call.Remote()];
      i := i + 1;
    }
    call.ConnectTimerFires();
    connected := [];
    var j := 0;
    while j < after
      invariant j <= after && |connected| == j
      invariant call.Valid() && call.callStatus == Connected && call.stream == [cam]
      invariant j == 0 ==> (call.isVideoOff <==> before % 2 == 1)
      invariant j > 0 ==> (connected[j - 1] == RemoteVideo <==> !call.isVideoOff)
      invariant j > 0 ==> (connected[0] == RemoteVideo <==> before % 2 == 1)
      invariant forall k :: 0 < k < j ==> (connected[k] == RemoteVideo <==> connected[k - 1] == AvatarPlaceholder)
    {
      call.ToggleVideo();
      connected := connected + [call.Remote()];
      j := j + 1;
    }
  }

  /** As written, turning the camera off and on again leaves the camera
      track disabled while the button shows the camera as on. */
  method CameraStaysOffAsWritten() returns (videoOff: bool, cameraEnabled: bool)
    ensures !videoOff && !cameraEnabled
  {
    var cam := new MediaTrack(VideoTrack);
    var call := new VideoCall();
    call.MediaSettled(Some([cam]));
    call.ToggleVideoAsWritten();
    call.ToggleVideoAsWritten();
    videoOff, cameraEnabled := call.isVideoOff, cam.enabled;
  }

  /** Acting on the stream itself, turning the camera off and on again
      re-enables the camera track. */
  method CameraBackOn() returns (videoOff: bool, cameraEnabled: bool)
    ensures !videoOff && cameraEnabled
  {
    var cam := new MediaTrack(VideoTrack);
    var call := new VideoCall();
    call.MediaSettled(Some([cam]));
    call.ToggleVideo();
    call.ToggleVideo();
    videoOff, cameraEnabled := call.isVideoOff, cam.enabled;
  }

  /** As written, muting after the camera was turned off leaves the
      microphone track enabled while the button shows it as muted. */
  method MuteLostAsWritten() returns (muted: bool, micEnabled: bool)
    ensures muted && micEnabled
  {
    var mic := new MediaTrack(AudioTrack);
    var call := new VideoCall();
    call.MediaSettled(Some([mic]));
    call.ToggleVideoAsWritten();
    call.ToggleMuteAsWritten();
    muted, micEnabled := call.isMuted, mic.enabled;
  }

  /** Acting on the stream itself, muting after the camera was turned off
      disables the microphone track. */
  method MuteReachesMicrophone() returns (muted: bool, micEnabled: bool)
    ensures muted && !micEnabled
  {
    var mic := new MediaTrack(AudioTrack);
    var call := new VideoCall();
    call.MediaSettled(Some([mic]));
    call.ToggleVideo();
    call.ToggleMute();
    muted, micEnabled := call.isMuted, mic.enabled;
  }
}
