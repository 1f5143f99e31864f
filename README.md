# Realtime chat view with an assistant-driven slide deck

This project models the core of the chat view `TempChat`. The view keeps one
voice session with a realtime speech backend. It talks to the backend over a
data channel and lets the backend's assistant edit a slide deck by function
calls. The model has three parts.

- **The slide deck** (`slides.dfy`, `dispatch.dfy`). A deck is a sequence of
  slide records whose fields may all be absent. The dispatcher `CallFunction`
  maps a function name and its arguments to a new deck:
  - `generateOutline` empties the deck.
  - `addSlide` validates the layout and appends.
  - `modifySlide` patches every slide with the slug.
  - `removeSlide` filters out every slide with the slug.
  - `navigateSlide` returns the index to navigate to.
  - Any other name is ignored.

  `AddSlide` returns a `Result` whose error names the check that failed.
  The dispatcher records the text the component throws for it (`Message`).
  A slug that is left out and a slug given as `null` are kept apart,
  because the component compares slugs with `===`.
- **Interrupting the assistant** (`interrupt.dfy`). `CancelEvents` gives the
  events that truncate and cancel the assistant's most recent message. "Most
  recent" is the search of the reversed transcript, as the component does it,
  and is proved equal to the last assistant item by position.
- **The session** (`session.dfy`, with `events.dfy` and `text.dfy`). The class
  `RealtimeSession` holds the component's mutable state:
  - the connection status;
  - the peer connection and data channel references, and whether the channel
    is open;
  - the push-to-talk flags and the text box;
  - the agent set and the selected agent name;
  - the log of every event written to the channel, and the types of the sends
    dropped because the channel was not open.

  Each handler is a method. Its `ensures` gives the exact events it appends
  and its effect on the other fields. Those events are given by functions in
  `Events` and `Interrupt`, and lemmas there describe what the functions
  produce.

`Valid()` states how the four channel flags relate:
- an open channel implies a peer connection;
- a peer connection implies a channel reference;
- the `dataChannel` state is set exactly when there is a peer connection.

Under `Valid()`, passing the push-to-talk gate implies passing the send gate.
So the push-to-talk handlers never drop an event.

Some behaviours of the component, each stated by the model:
- With an agent name selected, every return to DISCONNECTED is followed at
  once by a new connection attempt. This covers a missing credential, a
  transport error, `disconnectFromRealtime` and the toggle. A credential
  that is never usable is therefore asked for again without end
  (`AutoConnect`, `FailedAttemptIsRetried`, `ToggleOffReconnects`).
- A connection attempt whose answers arrive after a disconnect is not
  discarded. `CompleteConnect` does not re-read the status and still installs
  the transport.
- Sending a typed message clears the text box. It does not clear the audio
  buffer.
- Releasing the talk button needs a CONNECTED status and an open channel, as
  well as the user speaking.
- A change of push-to-talk mode calls `updateSession` only while the status
  is CONNECTED.
- `removeSlide` removes every slide with the slug, not just one.
- `addSlide` accepts a slug that is already in the deck.
- An index given to navigation stays valid after a removal only if no removed
  slide came before it (`RemoveShiftsIndex`).

## Model

| member | source | states |
|---|---|---|
| Slides.AddSlide | apps/web/src/components/views/TempChat.tsx:76-99 | `addSlide` accepts exactly the arguments that satisfy the layout invariant, and then returns the old deck with the arguments appended; otherwise it returns an error |
| Slides.AddSlideRejects | apps/web/src/components/views/TempChat.tsx:77-86 | each of the three rejections in the order of the checks: both paragraph and items, a paragraph without the paragraph layout, items without the bullet layout |
| Slides.ParagraphWhitelistIsOneTemplate | apps/web/src/components/views/TempChat.tsx:80-82 | the two-entry template list accepts a paragraph exactly on the paragraph layout |
| Slides.AddSlideAppends | apps/web/src/components/views/TempChat.tsx:88-98 | an accepted slide: the old slides unchanged in front, the new slide last and equal to the arguments, the slug count one higher, and a lookup of a duplicate slug still finding the older slide |
| Slides.AddSlideUniqueness | apps/web/src/components/views/TempChat.tsx:88-98 | after `addSlide` the slugs are unique if and only if the slug was new, because duplicates are accepted |
| Slides.AddSlideKeepsLayout | apps/web/src/components/views/TempChat.tsx:77-98 | `addSlide` keeps every slide of the deck layout-consistent |
| Slides.SlugCount | apps/web/src/components/views/TempChat.tsx:120-122 | the number of slides with a slug is at most the deck length, and zero exactly when no slide has the slug |
| Slides.ModifySlide | apps/web/src/components/views/TempChat.tsx:102-116 | same length; each slide with the slug is patched, and every other slide is unchanged |
| Slides.ModifyAbsentSlug | apps/web/src/components/views/TempChat.tsx:102-116 | if no slide has the slug, `modifySlide` returns the same deck |
| Slides.ModifyKeepsSlugs | apps/web/src/components/views/TempChat.tsx:104-113 | `modifySlide` keeps every slug in place, so it keeps slug uniqueness and the result of every slug lookup |
| Slides.ModifyIdempotent | apps/web/src/components/views/TempChat.tsx:104-113 | applying the same modification twice equals applying it once |
| Slides.ModifySlideFields | apps/web/src/components/views/TempChat.tsx:105-112 | for each editable field, a matching slide takes the argument's value if one is given and keeps its own otherwise |
| Slides.ModifyTitleOnly | apps/web/src/components/views/TempChat.tsx:104-113 | a call with only a slug and a title changes only the title of the matching slides |
| Slides.ModifySkipsValidation | apps/web/src/components/views/TempChat.tsx:100-116 | a concrete call that takes a layout-consistent deck to an inconsistent one, because `modifySlide` does not re-validate |
| Slides.RemoveSlide | apps/web/src/components/views/TempChat.tsx:118-123 | the length drops by the number of slides with the slug, and no remaining slide has the slug |
| Slides.RemoveSlideMembers | apps/web/src/components/views/TempChat.tsx:120-122 | a slide is in the result if and only if it was in the deck and has another slug |
| Slides.RemoveSlideAppend | apps/web/src/components/views/TempChat.tsx:120-122 | filtering two decks laid end to end equals filtering each and concatenating, so the filter keeps order |
| Slides.RemoveAbsentSlug | apps/web/src/components/views/TempChat.tsx:120-122 | if no slide has the slug, `removeSlide` returns the same deck |
| Slides.NullSlugIsNotMissing | apps/web/src/components/views/TempChat.tsx:104-127 | a slide stored with a `null` slug is not matched by a left-out slug: removal keeps it, lookup does not find it, and modification leaves it alone |
| Slides.RemoveIdempotent | apps/web/src/components/views/TempChat.tsx:120-122 | after removal the slug is gone and cannot be found, and removing it again changes nothing |
| Slides.RemoveShiftsIndex | apps/web/src/components/views/TempChat.tsx:118-128 | removing another slug moves the found index back by the number of removed slides before it, and a missing slug stays missing |
| Slides.RemoveKeepsInvariants | apps/web/src/components/views/TempChat.tsx:118-123 | `removeSlide` keeps the layout invariant and slug uniqueness |
| Slides.FindSlideIndex | apps/web/src/components/views/TempChat.tsx:126-128 | the index is that of the first slide with the slug, and -1 exactly when no slide has it |
| FunctionCalls.CallFunction | apps/web/src/components/views/TempChat.tsx:68-135 | only `addSlide` can throw; a throw keeps the deck and its text is the `Message` of the failed check; navigation happens exactly for `navigateSlide`, keeps the deck and goes to the index of the first slide with the slug; an unknown name changes nothing |
| FunctionCalls.CallFunctionEffects | apps/web/src/components/views/TempChat.tsx:71-123 | the deck after each known name: emptied, appended to or kept with the rejection, patched, or filtered |
| FunctionCalls.CallFunctionThrows | apps/web/src/components/views/TempChat.tsx:77-86 | the text `addSlide` throws for each of the three checks, in the order they are made (the texts are those of `Slides.Message`), and a throw keeps the deck |
| FunctionCalls.AddSlideCall | apps/web/src/components/views/TempChat.tsx:76-99 | an `addSlide` call either throws the rejection's text and keeps the deck, or throws nothing and leaves the appended deck |
| FunctionCalls.CallFunctionKeepsLayout | apps/web/src/components/views/TempChat.tsx:71-129 | every call except `modifySlide` keeps the deck layout-consistent |
| FunctionCalls.CallFunctionKeepsUniqueSlugs | apps/web/src/components/views/TempChat.tsx:71-129 | a call leaves the slugs unique if and only if it is not an accepted `addSlide` of a slug already in the deck |
| Events.EventTypes | apps/web/src/components/views/TempChat.tsx:55-58 | the logged types of the events, in order and one for each event |
| Events.EventTypesAppend | apps/web/src/components/views/TempChat.tsx:55-58 | the types of two event sequences laid end to end are the two type lists laid end to end |
| Events.FindAgent | apps/web/src/components/views/TempChat.tsx:253-255 | no agent is found exactly when no agent has the name; otherwise the result is the first agent with that name |
| Events.UpdateSessionShape | apps/web/src/components/views/TempChat.tsx:247-289 | the events of `updateSession`:<br>• a clear first, then one `session.update` and no other;<br>• turn detection is null exactly in push-to-talk mode, and otherwise has threshold 0.5, 300 ms padding, 200 ms silence and automatic responses;<br>• instructions and tools are empty if no agent matches;<br>• the "hi" message and `response.create` come only when a greeting is asked for |
| Events.SessionUpdateUsesSelectedAgent | apps/web/src/components/views/TempChat.tsx:253-281 | when agent names are unique, the session update in either mode carries the instructions and tools of the agent with the selected name |
| Text.TrimStart | apps/web/src/components/views/TempChat.tsx:318 | the result is a suffix with only whitespace before it, and it is empty or starts with a character that is not whitespace |
| Text.TrimEnd | apps/web/src/components/views/TempChat.tsx:318 | the result is a prefix with only whitespace after it, and it is empty or ends with a character that is not whitespace |
| Text.TrimEmptyIffBlank | apps/web/src/components/views/TempChat.tsx:318 | the trimmed text is empty if and only if every character is whitespace |
| Text.TrimEnds | apps/web/src/components/views/TempChat.tsx:327 | a non-empty trimmed text neither starts nor ends with whitespace |
| Text.TrimInside | apps/web/src/components/views/TempChat.tsx:327 | the trimmed text is a contiguous part of the text with only whitespace on either side |
| Text.TrimIdempotent | apps/web/src/components/views/TempChat.tsx:327 | trimming twice equals trimming once |
| Interrupt.Reversed | apps/web/src/components/views/TempChat.tsx:292-293 | the copy of the transcript in reverse order, element by element |
| Interrupt.FirstAssistantIndex | apps/web/src/components/views/TempChat.tsx:294 | the position of the first assistant item, with no assistant item before it, or -1 if there is none |
| Interrupt.LastAssistantIndex | apps/web/src/components/views/TempChat.tsx:292-294 | the reference meaning of "most recent": the position of the last assistant item, with none after it, or -1 |
| Interrupt.MostRecentIsLast | apps/web/src/components/views/TempChat.tsx:292-294 | searching the reversed transcript finds exactly the last assistant item |
| Interrupt.CancelEvents | apps/web/src/components/views/TempChat.tsx:291-315 | no events when there is no assistant item or the last one is done; otherwise a truncate of that item at content index 0 and `now - createdAtMs` milliseconds, then `response.cancel` |
| Interrupt.LastAssistantIgnoresLater | apps/web/src/components/views/TempChat.tsx:292-294 | items appended that are not the assistant's do not move the last assistant item |
| Interrupt.MostRecentIgnoresLater | apps/web/src/components/views/TempChat.tsx:292-294 | items appended that are not the assistant's do not change the most recent assistant message |
| Interrupt.CancelIgnoresLaterUserItems | apps/web/src/components/views/TempChat.tsx:291-315 | items appended that are not the assistant's do not change what an interruption sends |
| Session.Sequenced | apps/web/src/components/views/TempChat.tsx:49-66 | two sends through the same channel state transmit, or refuse, exactly what one send of both would |
| Session.RefusedTypes | apps/web/src/components/views/TempChat.tsx:55-58 | the refused types of two sends add up to those of one send of both |
| Session.TalkReadyImpliesCanSend | apps/web/src/components/views/TempChat.tsx:337-351 | in a valid state, a handler past the push-to-talk gate always passes the send gate |
| Session.RealtimeSession.constructor | apps/web/src/components/views/TempChat.tsx:23-47 | the first render: disconnected, no peer connection or channel, the stored push-to-talk mode, nobody speaking, an empty text box, nothing sent |
| Session.RealtimeSession.SendClientEvent | apps/web/src/components/views/TempChat.tsx:49-66 | the event is appended to the channel log if a channel is held and open; otherwise the log is unchanged and the event's type is recorded as not sent |
| Session.RealtimeSession.SendSimulatedUserMessage | apps/web/src/components/views/TempChat.tsx:225-245 | sends a user message with the given id, then `response.create`, through the send gate |
| Session.RealtimeSession.UpdateSession | apps/web/src/components/views/TempChat.tsx:247-289 | sends exactly the events of `UpdateSessionEvents` for the current agents, agent name and mode, through the send gate |
| Session.RealtimeSession.CancelAssistantSpeech | apps/web/src/components/views/TempChat.tsx:291-315 | sends exactly `CancelEvents` for the transcript at the current time, through the send gate |
| Session.RealtimeSession.SetUserText | apps/web/src/components/views/TempChat.tsx:476-477 | the text box takes the new text |
| Session.RealtimeSession.HandleSendTextMessage | apps/web/src/components/views/TempChat.tsx:317-335 | a blank text changes nothing; otherwise the interruption events, the trimmed text as a user message and `response.create` are sent, and the text box is emptied |
| Session.RealtimeSession.SendTextMessage | apps/web/src/components/views/TempChat.tsx:319-334 | the interruption events, the message without an id and `response.create`, in that order, and an emptied text box |
| Session.RealtimeSession.HandleTalkButtonDown | apps/web/src/components/views/TempChat.tsx:337-344 | nothing happens unless connected with an open channel; otherwise the interruption events and a buffer clear are all transmitted, and the user is marked as speaking |
| Session.RealtimeSession.HandleTalkButtonUp | apps/web/src/components/views/TempChat.tsx:346-357 | nothing happens unless connected with an open channel and the user speaking; otherwise a commit and `response.create` are transmitted, and the user is no longer speaking |
| Session.RealtimeSession.SetPushToTalk | apps/web/src/components/views/TempChat.tsx:419-426 | the mode takes the new value, and an update without a greeting is sent only when the mode changed while connected |
| Session.RealtimeSession.ConnectToRealtime | apps/web/src/components/views/TempChat.tsx:159-161 | an attempt starts, adding one pending attempt, and the status becomes CONNECTING, exactly when it was DISCONNECTED |
| Session.RealtimeSession.AutoConnect | apps/web/src/components/views/TempChat.tsx:399-403 | the effect starts an attempt exactly when an agent name is selected and the status is DISCONNECTED |
| Session.RealtimeSession.CompleteConnect | apps/web/src/components/views/TempChat.tsx:163-198 | answers one pending attempt. Without a usable secret or a working transport, the status is DISCONNECTED and the transport is unchanged. Otherwise the peer connection and a not-yet-open channel are installed, and the status is left as it is |
| Session.RealtimeSession.ChannelOpened | apps/web/src/components/views/TempChat.tsx:181-183 | the held channel opens and the state stays valid |
| Session.RealtimeSession.ChannelClosed | apps/web/src/components/views/TempChat.tsx:184-186 | the channel closes and the state stays valid |
| Session.RealtimeSession.OnSessionStatus | apps/web/src/components/views/TempChat.tsx:405-417 | the status is set, and the greeting update is sent only on a change to CONNECTED with an agent set and an agent name |
| Session.RealtimeSession.SelectAgent | apps/web/src/components/views/TempChat.tsx:375-380 | the agent name is set, and while connected with an agent set a change to a non-empty name sends the greeting update |
| Session.RealtimeSession.DisconnectFromRealtime | apps/web/src/components/views/TempChat.tsx:207-223 | no peer connection, no channel state and no open channel; DISCONNECTED with nobody speaking; nothing sent |
| Session.RealtimeSession.OnToggleConnection | apps/web/src/components/views/TempChat.tsx:359-366 | from CONNECTING or CONNECTED it disconnects; from DISCONNECTED it starts an attempt and leaves the transport as it was |
| Session.ToggleToPushToTalkWhileConnected | apps/web/src/components/views/TempChat.tsx:419-426 | switching to push-to-talk while connected sends exactly a buffer clear and a `session.update` whose turn detection is null |
| Session.PushToTalkTurn | apps/web/src/components/views/TempChat.tsx:337-357 | a press and release during an assistant message send truncate, cancel, clear, commit and `response.create`, in order; a press after a disconnect sends nothing |
| Session.FailedAttemptIsRetried | apps/web/src/components/views/TempChat.tsx:399-403 | with an agent name selected, an attempt that fails for want of a credential is followed by a new attempt, so the session is CONNECTING again with as many pending attempts as before |
| Session.ToggleOffReconnects | apps/web/src/components/views/TempChat.tsx:399-403 | with an agent name selected, toggling off a connected session drops the transport and starts a new attempt at once |

## Left out

- The WebRTC transport (`createRealtimeConnection`, the audio element, `pc.close`) is not modelled. Its outcome is the `established` parameter of `CompleteConnect`, and `ChannelOpened` and `ChannelClosed` stand for the channel's own state changes.
- `DisconnectFromRealtime` does not model the microphone tracks being stopped (lines 209-213), because they are browser media objects.
- `fetchEphemeralKey` and its HTTP request are not modelled. The secret they return is the `secret` parameter of `CompleteConnect`, and a request that throws is modelled by `established` being false.
- `CompleteConnect` runs as one step for both awaits of `connectToRealtime`. Other handlers interleaving between the two awaits are not modelled.
- The server-event handler (`useHandleServerEvent`) is a separate module and not part of this model. Its status reports are `OnSessionStatus`, and its function calls are `CallFunction`.
- `uuid` generation is left out. The fresh id is the `greetingId` parameter, and `Date.now()` is the `now` parameter.
- `addTranscriptMessage` (line 227) and every transcript update are left out. The transcript is an input of the handlers that read it.
- Event logging (`logClientEvent` and `logServerEvent`) and console output are left out. Only the type of each refused send is recorded, in `notOpenErrors`.
- `localStorage` is left out. The stored push-to-talk preference is the constructor's `pushToTalk` argument, and the logs-pane and audio-playback preferences are not modelled.
- The page-parameter effect is left out (lines 382-397): choosing the agent set, the redirect to the default set, and `handleAgentChange`. The agent set and the first agent name are constructor arguments.
- Session.RealtimeSession.AutoConnect: the connecting effect is a separate step, and the model does not run it by itself after each status change. `DisconnectFromRealtime`, `OnToggleConnection` and a failed `CompleteConnect` end DISCONNECTED, but in the component that state lasts only until the effect runs, which starts a new attempt whenever an agent name is selected. `FailedAttemptIsRetried` and `ToggleOffReconnects` show the two in sequence.
- Of the slide fields, only the slug tells `null` from a missing value. Every other field is read only with `??` and truthiness, which treat the two alike.
- The rendering and the audio playback effect are left out (lines 460-505).
- React rendering order is not modelled. Each state setter takes effect at once, and effects run right after the change that triggers them.
- Stale closures are not modelled. `navigateSlide` reads the `slides` captured by the callback (lines 127 and 134), and the model reads the current deck.
- `ServerVadPolicy` writes the 0.5 threshold as an exact real, not a floating-point number.
- The `SlideTemplate` enumeration file is not part of this model. Its two named layouts are modelled, and every other layout is `OtherTemplate`.
- The slide arguments are taken as already-parsed records. Arguments of the wrong JSON type are not modelled.
