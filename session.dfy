/** The connection lifecycle and the turn-taking handlers of the chat view:
    the session status, the peer connection and its data channel, the
    push-to-talk flags, the text box, and the log of sent events. */
module Session {
  import opened Wrappers
  import opened Events
  import opened Interrupt
  import opened Text

  datatype SessionStatus = Disconnected | Connecting | Connected

  /** What reaches the channel when a handler sends `es`: all of it while the
      channel is open, nothing otherwise. */
  function Transmitted(open: bool, es: seq<ClientEvent>): seq<ClientEvent> {
    if open then es else []
  }

  /** The attempted event types logged as `error.data_channel_not_open`. */
  function Refused(open: bool, es: seq<ClientEvent>): seq<string> {
    if open then [] else EventTypes(es)
  }

  /** Sending in two steps through the same gate is sending once. */
  lemma Sequenced(sent: seq<ClientEvent>, errors: seq<string>, open: bool, a: seq<ClientEvent>, b: seq<ClientEvent>)
    ensures sent + Transmitted(open, a) + Transmitted(open, b) == sent + Transmitted(open, a + b)
    ensures errors + Refused(open, a) + Refused(open, b) == errors + Refused(open, a + b)
  {
    if open {
      assert sent + a + b == sent + (a + b);
      assert errors + [] + [] == errors + [];
    } else {
      RefusedTypes(errors, a, b);
      assert sent + [] + [] == sent + [];
    }
  }

  lemma RefusedTypes(errors: seq<string>, a: seq<ClientEvent>, b: seq<ClientEvent>)
    ensures errors + EventTypes(a) + EventTypes(b) == errors + EventTypes(a + b)
  {
    EventTypesAppend(a, b);
  }

  /** A usable credential: present and not the empty string. */
  predicate UsableSecret(secret: Option<string>) {
    secret.Some? && secret.value != ""
  }

  class RealtimeSession {
    var status: SessionStatus
    /** `pcRef.current` holds a peer connection. */
    var hasPeer: bool
    /** `dcRef.current` holds a data channel; disconnecting does not clear it. */
    var channelRef: bool
    /** The `dataChannel` state holds the channel; disconnecting clears it. */
    var channelState: bool
    /** The channel in `dcRef.current` reports `readyState === "open"`. */
    var channelOpen: bool
    var isPTTActive: bool
    var isPTTUserSpeaking: bool
    var userText: string
    var agents: Option<seq<AgentConfig>>
    var agentName: string
    /** Every event written to the channel, in order. */
    var sent: seq<ClientEvent>
    /** The event types of the sends dropped because the channel was not open. */
    var notOpenErrors: seq<string>
    /** The connection attempts started and not yet answered. */
    ghost var pending: nat

    /** Only a live peer connection has an open channel, a peer connection
        always comes with a channel in `dcRef`, and the `dataChannel` state
        is set exactly while there is a peer connection. */
    ghost predicate Valid()
      reads this
    {
      && (channelOpen ==> hasPeer)
      && (hasPeer ==> channelRef)
      && channelState == hasPeer
    }

    /** The test `sendClientEvent` makes before writing. */
    predicate CanSend()
      reads this
    {
      channelRef && channelOpen
    }

    /** The test the push-to-talk handlers make before anything else. */
    predicate TalkReady()
      reads this
    {
      status == Connected && channelState && channelOpen
    }

    /** The view as first rendered, with the stored push-to-talk preference
        and the agent set and agent name chosen from the page's parameters. */
    constructor (pushToTalk: bool, agents: Option<seq<AgentConfig>>, agentName: string)
      ensures Valid()
      ensures status == Disconnected && !hasPeer && !channelRef && !channelState && !channelOpen
      ensures isPTTActive == pushToTalk && !isPTTUserSpeaking && userText == ""
      ensures this.agents == agents && this.agentName == agentName
      ensures sent == [] && notOpenErrors == [] && pending == 0
    {
      status := Disconnected;
      hasPeer, channelRef, channelState, channelOpen := false, false, false, false;
      isPTTActive, isPTTUserSpeaking, userText := pushToTalk, false, "";
      this.agents, this.agentName := agents, agentName;
      sent, notOpenErrors := [], [];
      pending := 0;
    }

    /** `sendClientEvent`: writes the event when the channel is open, and
        otherwise drops it and logs its type. */
    method SendClientEvent(e: ClientEvent)
      modifies this`sent, this`notOpenErrors
      ensures sent == old(sent) + Transmitted(old(CanSend()), [e])
      ensures notOpenErrors == old(notOpenErrors) + Refused(old(CanSend()), [e])
    {
      if channelRef && channelOpen {
        sent := sent + [e];
      } else {
        notOpenErrors := notOpenErrors + [EventType(e)];
      }
    }

    /** `sendSimulatedUserMessage`: a user message with the given fresh id,
        then `response.create`. */
    method SendSimulatedUserMessage(text: string, id: string)
      modifies this`sent, this`notOpenErrors
      ensures sent == old(sent) + Transmitted(old(CanSend()), SimulatedUserMessageEvents(text, id))
      ensures notOpenErrors == old(notOpenErrors) + Refused(old(CanSend()), SimulatedUserMessageEvents(text, id))
    {
      ghost var sent0, errors0, open := sent, notOpenErrors, CanSend();
      var message := ConversationItemCreate(UserMessage(Some(id), text));
      SendClientEvent(message);
      SendClientEvent(ResponseCreate);
      Sequenced(sent0, errors0, open, [message], [ResponseCreate]);
    }

    /** `updateSession`: a buffer clear, the session update for the selected
        agent and the current mode, and the "hi" greeting when asked for. */
    method UpdateSession(shouldTriggerResponse: bool, greetingId: string)
      modifies this`sent, this`notOpenErrors
      ensures sent == old(sent)
        + Transmitted(old(CanSend()), UpdateSessionEvents(agents, agentName, isPTTActive, shouldTriggerResponse, greetingId))
      ensures notOpenErrors == old(notOpenErrors)
        + Refused(old(CanSend()), UpdateSessionEvents(agents, agentName, isPTTActive, shouldTriggerResponse, greetingId))
    {
      ghost var sent0, errors0, open := sent, notOpenErrors, CanSend();
      SendClientEvent(InputAudioBufferClear);
      var sessionUpdate := SessionUpdateEvent(agents, agentName, isPTTActive);
      SendClientEvent(sessionUpdate);
      Sequenced(sent0, errors0, open, [InputAudioBufferClear], [sessionUpdate]);
      if shouldTriggerResponse {
        SendSimulatedUserMessage("hi", greetingId);
        Sequenced(sent0, errors0, open, [InputAudioBufferClear, sessionUpdate], SimulatedUserMessageEvents("hi", greetingId));
      } else {
        assert [InputAudioBufferClear, sessionUpdate] + [] == [InputAudioBufferClear, sessionUpdate];
      }
    }

    /** `cancelAssistantSpeech` over the current transcript at time `now`. */
    method CancelAssistantSpeech(transcript: seq<TranscriptItem>, now: int)
      modifies this`sent, this`notOpenErrors
      ensures sent == old(sent) + Transmitted(old(CanSend()), CancelEvents(transcript, now))
      ensures notOpenErrors == old(notOpenErrors) + Refused(old(CanSend()), CancelEvents(transcript, now))
    {
      var message := MostRecentAssistantMessage(transcript);
      ghost var expected := CancelEvents(transcript, now);
      if message.None? {
        assert expected == [];
        return;
      }
      if message.value.status == Done {
        assert expected == [];
        return;
      }
      assert expected == [ConversationItemTruncate(message.value.itemId, 0, now - message.value.createdAtMs), ResponseCancel];
      ghost var sent0, errors0, open := sent, notOpenErrors, CanSend();
      var truncate := ConversationItemTruncate(message.value.itemId, 0, now - message.value.createdAtMs);
      SendClientEvent(truncate);
      SendClientEvent(ResponseCancel);
      Sequenced(sent0, errors0, open, [truncate], [ResponseCancel]);
    }

    /** The text box changes. */
    method SetUserText(text: string)
      modifies this`userText
      ensures userText == text
    {
      userText := text;
    }

    /** `handleSendTextMessage`: nothing for a blank text; otherwise the
        interruption events, the trimmed text as a user message, a cleared
        text box, and `response.create`. */
    method HandleSendTextMessage(transcript: seq<TranscriptItem>, now: int)
      modifies this`sent, this`notOpenErrors, this`userText
      ensures IsBlank(old(userText)) ==>
        sent == old(sent) && notOpenErrors == old(notOpenErrors) && userText == old(userText)
      ensures !IsBlank(old(userText)) ==>
        var es := CancelEvents(transcript, now) + TextMessageEvents(Trim(old(userText)));
        && sent == old(sent) + Transmitted(old(CanSend()), es)
        && notOpenErrors == old(notOpenErrors) + Refused(old(CanSend()), es)
        && userText == ""
    {
      var text := Trim(userText);
      TrimEmptyIffBlank(userText);
      if text == "" {
        return;
      }
      SendTextMessage(text, transcript, now);
    }

    /** The part of `handleSendTextMessage` after the blank test. */
    method SendTextMessage(text: string, transcript: seq<TranscriptItem>, now: int)
      modifies this`sent, this`notOpenErrors, this`userText
      ensures sent == old(sent) + Transmitted(old(CanSend()), CancelEvents(transcript, now) + TextMessageEvents(text))
      ensures notOpenErrors == old(notOpenErrors) + Refused(old(CanSend()), CancelEvents(transcript, now) + TextMessageEvents(text))
      ensures userText == ""
    {
      ghost var sent0, errors0, open := sent, notOpenErrors, CanSend();
      ghost var cancel := CancelEvents(transcript, now);
      var message := ConversationItemCreate(UserMessage(None, text));
      CancelAssistantSpeech(transcript, now);
      SendClientEvent(message);
      userText := "";
      Sequenced(sent0, errors0, open, cancel, [message]);
      SendClientEvent(ResponseCreate);
      Sequenced(sent0, errors0, open, cancel + [message], [ResponseCreate]);
      assert cancel + [message] + [ResponseCreate] == cancel + TextMessageEvents(text);
    }

    /** `handleTalkButtonDown`: nothing unless connected with an open
        channel; otherwise the interruption events and a buffer clear, all of
        which reach the channel, and the user is marked as speaking. */
    method HandleTalkButtonDown(transcript: seq<TranscriptItem>, now: int)
      requires Valid()
      modifies this`sent, this`notOpenErrors, this`isPTTUserSpeaking
      ensures !old(TalkReady()) ==>
        sent == old(sent) && notOpenErrors == old(notOpenErrors) && isPTTUserSpeaking == old(isPTTUserSpeaking)
      ensures old(TalkReady()) ==>
        && sent == old(sent) + CancelEvents(transcript, now) + [InputAudioBufferClear]
        && notOpenErrors == old(notOpenErrors)
        && isPTTUserSpeaking
    {
      if status != Connected || !(channelState && channelOpen) {
        return;
      }
      CancelAssistantSpeech(transcript, now);
      isPTTUserSpeaking := true;
      SendClientEvent(InputAudioBufferClear);
    }

    /** `handleTalkButtonUp`: nothing unless connected with an open channel
        and the user speaking; otherwise a commit and `response.create`,
        both of which reach the channel, and the user no longer speaking. */
    method HandleTalkButtonUp()
      requires Valid()
      modifies this`sent, this`notOpenErrors, this`isPTTUserSpeaking
      ensures !(old(TalkReady()) && old(isPTTUserSpeaking)) ==>
        sent == old(sent) && notOpenErrors == old(notOpenErrors) && isPTTUserSpeaking == old(isPTTUserSpeaking)
      ensures old(TalkReady()) && old(isPTTUserSpeaking) ==>
        && sent == old(sent) + [InputAudioBufferCommit, ResponseCreate]
        && notOpenErrors == old(notOpenErrors)
        && !isPTTUserSpeaking
    {
      if status != Connected || !(channelState && channelOpen) || !isPTTUserSpeaking {
        return;
      }
      isPTTUserSpeaking := false;
      SendClientEvent(InputAudioBufferCommit);
      SendClientEvent(ResponseCreate);
    }

    /** Switching between push-to-talk and voice activity; when the mode
        really changes while connected, one `updateSession` without a
        greeting pushes the new turn-detection policy. */
    method SetPushToTalk(pushToTalk: bool)
      modifies this`isPTTActive, this`sent, this`notOpenErrors
      ensures isPTTActive == pushToTalk
      ensures var es := if pushToTalk != old(isPTTActive) && status == Connected
          then UpdateSessionEvents(agents, agentName, pushToTalk, false, "")
          else [];
        && sent == old(sent) + Transmitted(old(CanSend()), es)
        && notOpenErrors == old(notOpenErrors) + Refused(old(CanSend()), es)
    {
      if pushToTalk == isPTTActive {
        return;
      }
      isPTTActive := pushToTalk;
      if status == Connected {
        UpdateSession(false, "");
      }
    }

    /** `connectToRealtime` up to its first await: nothing unless
        disconnected, and then the status becomes CONNECTING. */
    method ConnectToRealtime() returns (started: bool)
      modifies this`status, this`pending
      ensures started == (old(status) == Disconnected)
      ensures status == if started then Connecting else old(status)
      ensures pending == old(pending) + if started then 1 else 0
    {
      if status != Disconnected {
        return false;
      }
      status := Connecting;
      pending := pending + 1;
      return true;
    }

    /** The effect that connects on its own: it runs after every change of
        the agent name or of the status, and starts an attempt whenever an
        agent name is selected and the status is DISCONNECTED. So every
        return to DISCONNECTED with a name selected (a failed attempt, a
        disconnect, a toggle) is followed straight away by a new attempt. */
    method AutoConnect()
      modifies this`status, this`pending
      ensures var starts := agentName != "" && old(status) == Disconnected;
        && status == (if starts then Connecting else old(status))
        && pending == old(pending) + (if starts then 1 else 0)
    {
      if agentName != "" && status == Disconnected {
        var _ := ConnectToRealtime();
      }
    }

    /** The rest of `connectToRealtime`, once the credential request and the
        transport set-up have answered: a missing or empty secret, or a
        transport that failed, returns the status to DISCONNECTED; a working
        transport installs the peer connection and its not-yet-open channel
        and leaves the status alone. The status is not re-read, so an answer
        that arrives after a disconnect still installs the transport. */
    method CompleteConnect(secret: Option<string>, established: bool)
      requires Valid() && pending > 0
      modifies this`status, this`hasPeer, this`channelRef, this`channelState, this`channelOpen, this`pending
      ensures Valid() && pending == old(pending) - 1
      ensures !(UsableSecret(secret) && established) ==>
        && status == Disconnected
        && hasPeer == old(hasPeer) && channelRef == old(channelRef)
        && channelState == old(channelState) && channelOpen == old(channelOpen)
      ensures UsableSecret(secret) && established ==>
        status == old(status) && hasPeer && channelRef && channelState && !channelOpen
    {
      pending := pending - 1;
      if !UsableSecret(secret) {
        status := Disconnected;
        return;
      }
      if !established {
        status := Disconnected;
        return;
      }
      hasPeer, channelRef, channelOpen := true, true, false;
      channelState := true;
    }

    /** The data channel's open signal. */
    method ChannelOpened()
      requires Valid() && hasPeer
      modifies this`channelOpen
      ensures Valid() && channelOpen
    {
      channelOpen := true;
    }

    /** The data channel closes on its own (network loss). */
    method ChannelClosed()
      requires Valid()
      modifies this`channelOpen
      ensures Valid() && !channelOpen
    {
      channelOpen := false;
    }

    /** The status reported by the server-event handler, followed by the
        effect that greets once the session is CONNECTED with an agent set
        and an agent name. */
    method OnSessionStatus(s: SessionStatus, greetingId: string)
      modifies this`status, this`sent, this`notOpenErrors
      ensures status == s
      ensures var es := if s != old(status) && s == Connected && agents.Some? && agentName != ""
          then UpdateSessionEvents(agents, agentName, isPTTActive, true, greetingId)
          else [];
        && sent == old(sent) + Transmitted(old(CanSend()), es)
        && notOpenErrors == old(notOpenErrors) + Refused(old(CanSend()), es)
    {
      if s == status {
        return;
      }
      status := s;
      if status == Connected && agents.Some? && agentName != "" {
        UpdateSession(true, greetingId);
      }
    }

    /** Choosing another agent by name, followed by the same greeting effect. */
    method SelectAgent(name: string, greetingId: string)
      modifies this`agentName, this`sent, this`notOpenErrors
      ensures agentName == name
      ensures var es := if name != old(agentName) && status == Connected && agents.Some? && name != ""
          then UpdateSessionEvents(agents, name, isPTTActive, true, greetingId)
          else [];
        && sent == old(sent) + Transmitted(old(CanSend()), es)
        && notOpenErrors == old(notOpenErrors) + Refused(old(CanSend()), es)
    {
      if name == agentName {
        return;
      }
      agentName := name;
      if status == Connected && agents.Some? && agentName != "" {
        UpdateSession(true, greetingId);
      }
    }

    /** `disconnectFromRealtime`: closes the peer connection (which closes its
        channel) when there is one, clears the `dataChannel` state, and ends
        DISCONNECTED with nobody speaking; nothing is sent. */
    method DisconnectFromRealtime()
      requires Valid()
      modifies this`hasPeer, this`channelState, this`channelOpen, this`status, this`isPTTUserSpeaking
      ensures Valid()
      ensures status == Disconnected && !isPTTUserSpeaking
      ensures !hasPeer && !channelState && !channelOpen
    {
      if hasPeer {
        channelOpen := false;
        hasPeer := false;
      }
      channelState := false;
      status := Disconnected;
      isPTTUserSpeaking := false;
    }

    /** `onToggleConnection`: disconnects from CONNECTING or CONNECTED and
        starts connecting from DISCONNECTED. */
    method OnToggleConnection()
      requires Valid()
      modifies this`hasPeer, this`channelState, this`channelOpen, this`status, this`isPTTUserSpeaking, this`pending
      ensures Valid()
      ensures pending == old(pending) + if old(status) == Disconnected then 1 else 0
      ensures old(status) != Disconnected ==>
        status == Disconnected && !isPTTUserSpeaking && !hasPeer && !channelState && !channelOpen
      ensures old(status) == Disconnected ==>
        && status == Connecting
        && hasPeer == old(hasPeer) && channelState == old(channelState) && channelOpen == old(channelOpen)
        && isPTTUserSpeaking == old(isPTTUserSpeaking)
    {
      if status == Connected || status == Connecting {
        DisconnectFromRealtime();
        status := Disconnected;
      } else {
        var _ := ConnectToRealtime();
      }
    }
  }

  /** In a valid state the push-to-talk test implies the send test, so the
      push-to-talk handlers never see a send dropped. */
  lemma TalkReadyImpliesCanSend(s: RealtimeSession)
    requires s.Valid() && s.TalkReady()
    ensures s.CanSend()
  {
  }

  /** Switching from voice activity to push-to-talk on a connected session
      with an open channel sends exactly a buffer clear and one
      `session.update` whose turn detection is null, and no greeting. */
  method ToggleToPushToTalkWhileConnected(s: RealtimeSession)
    requires s.Valid() && s.status == Connected && s.CanSend() && !s.isPTTActive
    modifies s
    ensures s.isPTTActive && s.notOpenErrors == old(s.notOpenErrors)
    ensures s.sent == old(s.sent) + [InputAudioBufferClear, SessionUpdateEvent(s.agents, s.agentName, true)]
    ensures SessionUpdateEvent(s.agents, s.agentName, true).session.turnDetection == None
  {
    s.SetPushToTalk(true);
    UpdateSessionShape(s.agents, s.agentName, true, false, "");
  }

  /** A press and release of the talk button on a ready session while an
      assistant message is still playing: truncate, cancel and clear on the
      press, commit and a response request on the release; after a
      disconnect a press sends nothing. */
  method PushToTalkTurn(s: RealtimeSession, item: TranscriptItem, now: int)
    requires s.Valid() && s.TalkReady()
    requires item.role == AssistantRole && item.status == InProgress
    modifies s
    ensures s.sent == old(s.sent) + [ConversationItemTruncate(item.itemId, 0, now - item.createdAtMs), ResponseCancel,
                                     InputAudioBufferClear, InputAudioBufferCommit, ResponseCreate]
    ensures s.notOpenErrors == old(s.notOpenErrors)
    ensures s.status == Disconnected && !s.isPTTUserSpeaking
  {
    s.HandleTalkButtonDown([item], now);
    assert LastAssistantIndex([item]) == 0;
    s.HandleTalkButtonUp();
    s.DisconnectFromRealtime();
    s.HandleTalkButtonDown([item], now);
  }

  /** A credential that is never usable is asked for again without end: the
      failed attempt returns the status to DISCONNECTED, and with an agent
      name selected the connecting effect starts the next attempt at once. */
  method FailedAttemptIsRetried(s: RealtimeSession)
    requires s.Valid() && s.status == Connecting && s.pending > 0 && s.agentName != ""
    modifies s
    ensures s.Valid() && s.status == Connecting && s.pending == old(s.pending)
  {
    s.CompleteConnect(None, false);
    s.AutoConnect();
  }

  /** With an agent name selected, a disconnect by the toggle does not stay
      disconnected: the connecting effect starts a new attempt at once. */
  method ToggleOffReconnects(s: RealtimeSession)
    requires s.Valid() && s.status == Connected && s.agentName != ""
    modifies s
    ensures s.Valid() && s.status == Connecting && !s.hasPeer && s.pending == old(s.pending) + 1
  {
    s.OnToggleConnection();
    s.AutoConnect();
  }
}
