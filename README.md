# Chat screen with a mock socket and call overlays, in Dafny

This project models the logic under a demonstration chat screen written
in React:

- **Mock socket** (`hooks/useSocket.ts`): an object with two handler
  slots, `onReceiveMessage` and `onUserTyping`.
  - `on` and `off` fill and clear the slots.
  - `emit("sendMessage", data)` schedules a one-second timer. When it
    fires, the timer hands a canned reply to whatever receive handler is
    registered at that moment.
  - A three-second interval passes `{isTyping: Math.random() > 0.7}` to
    the typing handler.
- **Chat page** (`app/chat/page.tsx`):
  - It keeps an append-only list of messages, a draft and a typing flag,
    plus a user name and picture read from storage.
  - It sends a non-blank draft as a text message. Enter without Shift
    also sends.
  - It appends emoji to the draft, appends received messages, resets the
    identity on logout, and sends document, image, audio and location
    attachments.
  - It draws an avatar beside the first message of each run of messages
    from one remote sender.
- **Voice call and video call** (`components/voice-call.tsx`,
  `components/video-call.tsx`):
  - Each has a one-way status, "connecting" then "connected", set by a
    two-second timer.
  - A duration counter advances once per second, but only while
    connected. The status line shows it as `mm:ss`.
  - Each has independent toggles. In the video call, the camera and
    microphone buttons are meant to set `enabled` on the local tracks. As
    written they reach the tracks only through the local `<video>`
    element, and so stop working once the camera has been turned off (see
    "## Findings"). `VideoCall.VideoCall.ToggleVideoAsWritten` and
    `ToggleMuteAsWritten` model the code as written. `ToggleVideo` and
    `ToggleMute` are the corrected toggles, which act on the acquired
    stream.

Stateful code is modelled as classes:

| class | source | fields |
|---|---|---|
| `Socket.MockSocket` | the socket object | the two handler slots, plus a queue of pending replies |
| `Chat.ChatPage` | the page component's state | page state |
| `VoiceCall.VoiceCall` | the voice overlay's state | overlay state |
| `VideoCall.VideoCall` | the video overlay's state | overlay state |
| `VideoCall.MediaTrack` | a media track | one `enabled` flag |

Timers are explicit methods, one call per firing:

- `FireReply` and `ReplyTimerFires` fire the reply timer.
- `TypingTick` and `TypingTimerFires` fire the typing interval.
- `ConnectTimerFires` and `MediaSettled` handle the call's connection.
- `Tick` is one second of the duration interval.

All reply timers have the same delay, so they fire in the order they were
scheduled. That makes a FIFO queue of their data enough. `Math.random`,
the clock, `FileReader` results, `URL.createObjectURL` and `JSON.parse`
become parameters. A registered handler is a token (`Callback`) naming
the closure the page registered.

`formatDuration` is the same in both call components, so it is defined
once, in `CallTimer`. `ParseDuration` is its reference inverse: reading a
text back gives the duration, which yields the round trip, the field
ranges and injectivity.

The socket's reply is `{text: "Reply to: " + data.text, sender: "user2",
timestamp}`. The page's messages have `type` and `content` but no `text`,
so every reply to a page message reads "Reply to: undefined". It also has
no `type` or `content`.

`Records.Message` therefore has an optional field for each of
`type`, `content` and `text`, and `Socket.ReplyToPageMessage` states the
outcome.

## Model

| member | source | states |
|---|---|---|
| Socket.MockSocket.constructor | hooks/useSocket.ts:39-40 | Both handler slots start empty and no reply is scheduled. |
| Socket.MockSocket.Emit | hooks/useSocket.ts:8-22 | `sendMessage` schedules exactly one reply for `data`, queued after the earlier ones. Any other event schedules nothing. Neither slot changes. |
| Socket.MockSocket.On | hooks/useSocket.ts:23-30 | The slot named by the event now holds the new callback, replacing the old one. The other slot is unchanged. An unknown event changes nothing. |
| Socket.MockSocket.Off | hooks/useSocket.ts:31-38 | The slot named by the event becomes empty. The other slot is unchanged. An unknown event changes nothing. Nothing scheduled is cancelled. |
| Socket.MockSocket.FireReply | hooks/useSocket.ts:11-20 | The oldest scheduled reply fires and leaves the queue. It is delivered exactly when a receive handler is registered now, and then to that handler, carrying the reply to its data. |
| Socket.MockSocket.TypingTick | hooks/useSocket.ts:44-49 | The typing handler is called exactly when one is registered, with the random outcome. The socket does not change. |
| Records.PageMessage | app/chat/page.tsx:84-89 | Definition, no contract: a message from user1 with `type`, `content` and `timestamp` set and no `text` field. `Socket.ReplyToPageMessage` states what this means for the reply. |
| Records.Interpolate | hooks/useSocket.ts:15 | Definition, no contract: a value in a template literal, where a missing field renders as "undefined". `Socket.ReplyTextQuotes` states what the reply reveals. |
| Socket.ReplyText | hooks/useSocket.ts:15 | Definition, no contract: "Reply to: " followed by the interpolated `text` field. `Socket.ReplyTextQuotes` states its meaning. |
| Socket.Reply | hooks/useSocket.ts:14-18 | Definition, no contract: the reply object, with only `text`, `sender` user2 and `timestamp`. `Socket.ReplyToPageMessage` and `Chat.SendAndReply` state its effect. |
| Socket.ReplyTextQuotes | hooks/useSocket.ts:15 | Two replies read the same exactly when the quoted `text` fields render the same, in both directions. A missing field and the string "undefined" therefore give the same reply. |
| Socket.ReplyToPageMessage | hooks/useSocket.ts:14-18 | The reply to any message without a `text` field reads "Reply to: undefined". It comes from user2 and has no `type` and no `content`. |
| Socket.LastRegistrationWins | hooks/useSocket.ts:11-30 | After two registrations for `receiveMessage`, a sent message's reply goes to the second handler only. |
| Socket.OffBeforeFireDropsReply | hooks/useSocket.ts:11-38 | Removing the receive handler between a send and its timer means the reply is never delivered, though the timer still fires. |
| CallTimer.Digits | components/voice-call.tsx:46 | `toString` of a non-negative integer is a non-empty digit string with no leading zero. It has one digit exactly below 10, and at most two below 100. |
| CallTimer.DigitsValue | components/voice-call.tsx:46 | The digits of `n` denote `n`. |
| CallTimer.PadStart | components/voice-call.tsx:46 | `padStart` gives length max(length, width). The original string is the suffix and every added character is the fill. |
| CallTimer.Pad2 | components/voice-call.tsx:46 | A padded field has at least two digits, and exactly two below 100. |
| CallTimer.Pad2Value | components/voice-call.tsx:46 | Zero-padding does not change the number a field denotes. |
| CallTimer.FormatDuration | components/voice-call.tsx:43-47 | The text has at least five characters, with the colon third from the end. |
| CallTimer.ParseDuration | components/video-call.tsx:77-81 | Reading a duration text back is defined only for text with a colon third from the end. |
| CallTimer.ParseFormatDuration | components/voice-call.tsx:43-47 | Reading the formatted text back gives the original number of seconds. |
| CallTimer.FormatDurationFields | components/voice-call.tsx:44-45 | Both fields are digit strings, the seconds field denotes 0..59, and 60 times the minutes plus the seconds equals the duration. |
| CallTimer.FormatDurationShort | components/voice-call.tsx:46 | Below 6000 seconds the text is exactly five characters, with the colon at index 2. |
| CallTimer.FormatDurationInjective | components/video-call.tsx:77-81 | Different durations give different texts. |
| CallTimer.ConnectingIsNoDuration | components/voice-call.tsx:66 | No duration text equals "Connecting...". |
| CallTimer.StatusLine | components/video-call.tsx:133 | The status line is "Connecting..." exactly while connecting. Once connected, it is `formatDuration(duration)` and reads back as the duration. |
| VoiceCall.VoiceCall.constructor | components/voice-call.tsx:15-18 | A new call is unmuted, has the speaker on, shows zero seconds and is connecting, with its connection timer pending. |
| VoiceCall.VoiceCall.ConnectTimerFires | components/voice-call.tsx:21-27 | The call becomes connected with zero seconds counted. It keeps the invariant that the status never returns to connecting. |
| VoiceCall.VoiceCall.Tick | components/voice-call.tsx:30-40 | A second adds exactly one while connected and nothing while connecting. The status and the toggles are unchanged. |
| VoiceCall.VoiceCall.ToggleMute | components/voice-call.tsx:73 | It flips `isMuted` and changes nothing else. |
| VoiceCall.VoiceCall.ToggleSpeaker | components/voice-call.tsx:82 | It flips `isSpeakerOff` and changes nothing else. |
| VoiceCall.VoiceCall.StatusText | components/voice-call.tsx:66 | It shows "Connecting..." exactly while connecting. Otherwise it shows `formatDuration(callDuration)`, which reads back as the counted seconds. |
| VoiceCall.TalkTimeShown | components/voice-call.tsx:17-40 | However long connecting takes, and for any sequence of microphone and speaker presses made once connected, the status line is exactly `formatDuration` of the seconds counted after connecting, and reads back as that number. |
| VideoCall.SetTracksEnabled | components/video-call.tsx:89-91 | Every track of the given kind ends with the given `enabled` value. Tracks of the other kind keep theirs. |
| VideoCall.VideoCall.constructor | components/video-call.tsx:15-18 | A new call is unmuted, has the camera on, shows zero seconds and is connecting while it waits for the camera and microphone. |
| VideoCall.VideoCall.MediaSettled | components/video-call.tsx:23-53 | Success and failure both schedule the connection timer. On success the stream is kept, and it is attached to the local element only if that element is mounted (camera on). |
| VideoCall.VideoCall.ConnectTimerFires | components/video-call.tsx:38-49 | The call becomes connected with zero seconds counted. |
| VideoCall.VideoCall.Tick | components/video-call.tsx:64-74 | A second adds exactly one while connected and nothing while connecting. Everything else is unchanged. |
| VideoCall.VideoCall.ToggleVideo | components/video-call.tsx:84-93 | The corrected toggle; `ToggleVideoAsWritten` models the code as written. It flips `isVideoOff`. Every video track ends enabled exactly when the camera is now on. Audio tracks are unchanged. |
| VideoCall.VideoCall.ToggleMute | components/video-call.tsx:96-105 | The corrected toggle; `ToggleMuteAsWritten` models the code as written. It flips `isMuted`. Every audio track ends enabled exactly when the microphone is now on. Video tracks are unchanged. |
| VideoCall.VideoCall.ToggleVideoAsWritten | components/video-call.tsx:84-93 | It flips `isVideoOff`. Video tracks change only if the mounted element holds the stream. Afterwards no mounted element holds it. |
| VideoCall.VideoCall.ToggleMuteAsWritten | components/video-call.tsx:96-105 | It flips `isMuted`. Audio tracks change only if the mounted element holds the stream. |
| VideoCall.VideoCall.Remote | components/video-call.tsx:118 | Definition, no contract: the avatar when the camera is off or the call is connecting, the remote video otherwise. `VideoCall.RemoteAreaFollowsCamera` and `VideoCall.ConnectsEitherWay` state its behaviour. |
| VideoCall.VideoCall.StatusText | components/video-call.tsx:133 | It shows "Connecting..." exactly while connecting. Otherwise it shows `formatDuration(callDuration)`, which reads back as the counted seconds. |
| VideoCall.ConnectsEitherWay | components/video-call.tsx:38-49 | Whether media is obtained or not, the call connects and then shows exactly `formatDuration` of the seconds counted, with the remote video area (`Remote`) visible. |
| VideoCall.RemoteAreaFollowsCamera | components/video-call.tsx:118 | The avatar shows throughout connecting, however often the camera button is pressed. Once connected, the area alternates between avatar and remote video with each press, starting from the remote video exactly when the earlier presses were odd in number. |
| VideoCall.CameraStaysOffAsWritten | components/video-call.tsx:84-93 | As written, turning the camera off and on leaves the camera track disabled while the button shows it on. |
| VideoCall.CameraBackOn | components/video-call.tsx:84-93 | With the corrected toggle, turning the camera off and on re-enables the camera track. |
| VideoCall.MuteLostAsWritten | components/video-call.tsx:96-105 | As written, muting after the camera was turned off leaves the microphone track enabled. |
| VideoCall.MuteReachesMicrophone | components/video-call.tsx:96-105 | With the corrected toggles, muting after the camera was turned off disables the microphone track. |
| Chat.TrimStart | app/chat/page.tsx:82 | The result is a suffix of the input. Everything removed is whitespace, and it does not start with whitespace. |
| Chat.TrimEnd | app/chat/page.tsx:82 | The result is a prefix of the input. Everything removed is whitespace, and it does not end with whitespace. |
| Chat.Trim | app/chat/page.tsx:82 | `trim()` is the input with a whitespace prefix and a whitespace suffix removed. It is empty exactly when the input is all whitespace, and otherwise it neither starts nor ends with whitespace. |
| Chat.IsBlank | app/chat/page.tsx:82 | `!msg.trim()` holds exactly when every character of the draft is whitespace. |
| Chat.IsSendKey | app/chat/page.tsx:97 | Definition, no contract: Enter without Shift. `Chat.ChatPage.HandleKeyDown` and `Chat.NothingSent` state its effect. |
| Chat.TrimIdempotent | app/chat/page.tsx:82 | Trimming a trimmed draft changes nothing. |
| Chat.ShowAvatar | app/chat/page.tsx:283 | Definition, no contract: the first message, or one whose predecessor has another sender. `Chat.ShowAvatarIffGroupStart` and `Chat.AvatarsStableUnderAppend` state its meaning. |
| Chat.DrawsAvatar | app/chat/page.tsx:282-288 | Definition, no contract: `ShowAvatar` for a message not from user1. `Chat.OneAvatarPerRun` states its meaning. |
| Chat.OneAvatarPerRun | app/chat/page.tsx:282-288 | Within a run of messages from one remote sender, exactly one avatar is drawn, beside the run's first message. No avatar is drawn beside a message from user1. |
| Chat.GroupStart | app/chat/page.tsx:283 | The run of one sender's messages that ends at `i` starts at a message that shows an avatar, and no later message of the run shows one. |
| Chat.ShowAvatarIffGroupStart | app/chat/page.tsx:283 | A message shows an avatar exactly when it starts its run of same-sender messages. |
| Chat.AvatarsStableUnderAppend | app/chat/page.tsx:283 | Appending a message never changes the avatar decision for earlier messages. The new one shows an avatar exactly when the list was empty or the sender changed. |
| Chat.SeedAvatars | app/chat/page.tsx:281-293 | In the seeded conversation every message opens a group. Avatars are drawn beside exactly the two messages not from user1. |
| Chat.SeedConversation | app/chat/page.tsx:30-50 | The conversation starts with four text messages, none with a `text` field, stamped with the given times in order. |
| Chat.ChatPage.constructor | app/chat/page.tsx:28-66 | It holds the four seeded messages, an empty draft, not typing, the stored name or "", the stored picture or the placeholder, and a socket with no handlers. `StoredOr` is the `||` of a storage read: a missing or empty entry gives the default. |
| Chat.ChatPage.Mount | app/chat/page.tsx:111-121 | Joining the room schedules nothing. Both page callbacks are registered. |
| Chat.ChatPage.Unmount | app/chat/page.tsx:122-125 | Both slots are emptied and scheduled replies stay scheduled. |
| Chat.ChatPage.HandleChange | app/chat/page.tsx:329 | The draft becomes the text area's value and nothing else changes. |
| Chat.ChatPage.SendMessage | app/chat/page.tsx:81-94 | A blank draft changes nothing and emits nothing. Otherwise exactly one text message from user1, holding the untrimmed draft, is emitted and appended after the unchanged earlier messages, and the draft becomes "". |
| Chat.ChatPage.HandleKeyDown | app/chat/page.tsx:96-101 | Enter without Shift behaves as a send. Any other key leaves the list, the draft and the socket unchanged. |
| Chat.ChatPage.HandleEmojiSelect | app/chat/page.tsx:144-146 | The draft becomes the old draft followed by the emoji, and nothing else changes. |
| Chat.ChatPage.HandleLogout | app/chat/page.tsx:133-137 | The name becomes "" and the picture becomes the placeholder. Messages and draft are unchanged. |
| Chat.ChatPage.ReceiveMessage | app/chat/page.tsx:114-116 | The received message is appended at the end and nothing else changes. |
| Chat.ChatPage.SetTyping | app/chat/page.tsx:118-120 | The typing flag takes the received value and nothing else changes. |
| Chat.ChatPage.ReplyTimerFires | hooks/useSocket.ts:11-20 | A firing reply is appended exactly when the page's append callback is registered. Otherwise the list is unchanged. |
| Chat.ChatPage.TypingTimerFires | hooks/useSocket.ts:44-49 | The typing flag takes the random outcome exactly when the page's typing callback is registered. |
| Chat.ChatPage.AttachDocument | app/chat/page.tsx:182-198 | One document message, with the file's name, size, type and object URL, is emitted and appended. |
| Chat.ChatPage.LocationFileLoaded | app/chat/page.tsx:200-216 | A location file that fails to parse appends and emits nothing. A parsed one is emitted and appended as one location message. |
| Chat.ChatPage.MediaFileLoaded | app/chat/page.tsx:166-180 | One image or audio message holding the data URL is emitted and appended. |
| Chat.SendAndReply | app/chat/page.tsx:81-94 | On a mounted page, a non-blank send is the fifth message. The reply a second later is the sixth, from user2, reading "Reply to: undefined". |
| Chat.ReplyAfterUnmountIsDropped | app/chat/page.tsx:122-125 | A page that unmounts before the reply timer fires keeps five messages, and no reply stays scheduled. |
| Chat.NothingSent | app/chat/page.tsx:96-101 | For Shift+Enter, and for Enter on a whitespace-only draft, the key handler sends nothing, schedules no reply and does not itself change the draft. |

## Left out

- Rendering and styling:
  - JSX, styling, scrolling and toasts are not modelled.
  - The page's landing components and layout are not modelled.
  - Which component is shown is not modelled: the login form when there is no name, the call overlays when their flags are set.
  - `startVoiceCall` and `startVideoCall` only set those flags and raise a toast, so they are left out.
- Real timer delays and React's effect scheduling. Each firing is an explicit method call. Clearing the socket's typing interval when the hook unmounts is not modelled.
- `localStorage`:
  - The stored name and picture are constructor parameters.
  - Writing them back (app/chat/page.tsx:72-79) and removing them on logout are not modelled.
- Chat.ChatPage.HandleKeyDown: `e.preventDefault()` (app/chat/page.tsx:98) and the text area's default key action are not modelled. A newline from Shift+Enter, or a typed character, reaches the draft only as a separate `HandleChange` (app/chat/page.tsx:329).
- Chat.ChatPage.MediaFileLoaded: a failed `FileReader` read is not modelled. `onloadend` also fires on a read error, with `reader.result` null, and app/chat/page.tsx:168-177 then still emits and appends an image or audio message whose `content` is null. The model's data URL is always a string.
- `FileReader`, `URL.createObjectURL` and `JSON.parse` are parameters: the data URL, the object URL, and the parse result, with `None` when parsing throws. A location value is kept abstract (`JsonValue`).
- `console.log`, `console.error` and `alert` (the camera-switch button) are not modelled.
- Media acquisition:
  - `getUserMedia` is the `result` parameter of `MediaSettled`.
  - Stopping the tracks when the overlay unmounts is not modelled.
  - Attaching the stream to the remote video element is not modelled.
- `formatTime` uses locale date formatting, and `formatFileSize` uses floating point. Neither is modelled.
- components/message-content.tsx, components/attachment-menu.tsx, components/login-form.tsx, components/profile-settings.tsx and app/services/api.js are not part of this model.
- CallTimer.Digits: `Number.prototype.toString` switches to exponent notation from 10^21. The model always gives plain decimal digits, because a call never reaches 10^21 seconds.
- Chat.SeedConversation: the seed timestamps, computed from `Date.now()`, are parameters.

## Findings

| source | as written | input that shows it | evidently intended | confidence | as-written member | corrected member |
|---|---|---|---|---|---|---|
| components/video-call.tsx:84-93 | `toggleVideo` reaches the tracks through `localVideoRef.current?.srcObject`. The local `<video>` is rendered only while the camera is on (lines 139-145), and a remounted element never gets `srcObject`. | Media obtained. Press the camera button twice: `isVideoOff` is false again but the camera track stays disabled. | Turning the camera back on re-enables the video tracks. | not executed | VideoCall.CameraStaysOffAsWritten | VideoCall.CameraBackOn |
| components/video-call.tsx:96-105 | `toggleMute` reaches the tracks through the same element. Once the camera has been turned off, no mounted element holds the stream. | Media obtained. Press the camera button, then the microphone button: `isMuted` is true but the microphone track stays enabled. | Muting disables the audio tracks whatever the camera state. | not executed | VideoCall.MuteLostAsWritten | VideoCall.MuteReachesMicrophone |
