/** The client events the component sends over the data channel, the agent
    configurations it reads, and the event sequences of `updateSession` and
    the user-message helpers. */
module Events {
  import opened Wrappers

  /** The server-side voice-activity descriptor sent when push-to-talk is off. */
  datatype TurnDetection = ServerVad(threshold: real, prefixPaddingMs: nat, silenceDurationMs: nat, createResponse: bool)

  /** The one descriptor the component ever sends: threshold 0.5, 300 ms of
      prefix padding, 200 ms of silence, responses created automatically. */
  const ServerVadPolicy: TurnDetection := ServerVad(0.5, 300, 200, true)

  /** A callable-function descriptor of an agent, carried through unread. */
  datatype Tool = Tool(name: string, description: string)

  /** An agent: its name, its instructions and its tools. */
  datatype AgentConfig = AgentConfig(name: string, instructions: string, tools: seq<Tool>)

  /** The payload of `session.update`. */
  datatype SessionConfig = SessionConfig(
    modalities: seq<string>,
    instructions: string,
    voice: string,
    inputAudioFormat: string,
    outputAudioFormat: string,
    transcriptionModel: string,
    turnDetection: Option<TurnDetection>,
    tools: seq<Tool>)

  /** A user message item with one `input_text` part; the simulated message
      carries an id, the typed one does not. */
  datatype UserMessage = UserMessage(id: Option<string>, text: string)

  /** The events the client sends. */
  datatype ClientEvent =
    | SessionUpdate(session: SessionConfig)
    | ConversationItemCreate(item: UserMessage)
    | ConversationItemTruncate(itemId: string, contentIndex: nat, audioEndMs: int)
    | ResponseCreate
    | ResponseCancel
    | InputAudioBufferClear
    | InputAudioBufferCommit

  /** The `type` discriminator each event carries on the wire. */
  function EventType(e: ClientEvent): string {
    match e
    case SessionUpdate(_) => "session.update"
    case ConversationItemCreate(_) => "conversation.item.create"
    case ConversationItemTruncate(_, _, _) => "conversation.item.truncate"
    case ResponseCreate => "response.create"
    case ResponseCancel => "response.cancel"
    case InputAudioBufferClear => "input_audio_buffer.clear"
    case InputAudioBufferCommit => "input_audio_buffer.commit"
  }

  /** The types of a sequence of events, in order. */
  function EventTypes(es: seq<ClientEvent>): (ts: seq<string>)
    ensures |ts| == |es|
    ensures forall i :: 0 <= i < |es| ==> ts[i] == EventType(es[i])
  {
    if es == [] then [] else [EventType(es[0])] + EventTypes(es[1..])
  }

  lemma EventTypesAppend(a: seq<ClientEvent>, b: seq<ClientEvent>)
    ensures EventTypes(a + b) == EventTypes(a) + EventTypes(b)
  {
    assert forall i :: 0 <= i < |a + b| ==> EventTypes(a + b)[i] == (EventTypes(a) + EventTypes(b))[i];
  }

  /** `agents.find(a => a.name === name)`: the first agent with that name. */
  function FindAgent(agents: seq<AgentConfig>, name: string): (r: Option<AgentConfig>)
    ensures r.None? <==> forall i :: 0 <= i < |agents| ==> agents[i].name != name
    ensures r.Some? ==>
      exists i ::
        && 0 <= i < |agents| && agents[i] == r.value && r.value.name == name
        && forall j :: 0 <= j < i ==> agents[j].name != name
  {
    if agents == [] then None
    else if agents[0].name == name then Some(agents[0])
    else
      var r := FindAgent(agents[1..], name);
      if r.Some? then
        ghost var i :| 0 <= i < |agents[1..]| && agents[1..][i] == r.value && r.value.name == name
          && forall j :: 0 <= j < i ==> agents[1..][j].name != name;
        assert agents[i + 1] == r.value;
        assert forall j :: 1 <= j < i + 1 ==> agents[j] == agents[1..][j - 1];
        r
      else r
  }

  /** No two agents of the set share a name. */
  predicate UniqueAgentNames(agents: seq<AgentConfig>) {
    forall i, j :: 0 <= i < j < |agents| ==> agents[i].name != agents[j].name
  }

  /** The selected agent: none when no set is loaded or no agent has the name. */
  function SelectedAgent(agents: Option<seq<AgentConfig>>, name: string): Option<AgentConfig> {
    if agents.Some? then FindAgent(agents.value, name) else None
  }

  /** The `session.update` event built from the selected agent and the mode. */
  function SessionUpdateEvent(agents: Option<seq<AgentConfig>>, agentName: string, pushToTalk: bool): ClientEvent {
    var agent := SelectedAgent(agents, agentName);
    SessionUpdate(SessionConfig(
      ["text", "audio"],
      if agent.Some? then agent.value.instructions else "",
      "coral",
      "pcm16",
      "pcm16",
      "whisper-1",
      if pushToTalk then None else Some(ServerVadPolicy),
      if agent.Some? then agent.value.tools else []))
  }

  /** `sendSimulatedUserMessage`: a user message with a fresh id, then a
      request for a response. */
  function SimulatedUserMessageEvents(text: string, id: string): seq<ClientEvent> {
    [ConversationItemCreate(UserMessage(Some(id), text)), ResponseCreate]
  }

  /** The events of a typed user message: the message without an id, then
      a request for a response. */
  function TextMessageEvents(text: string): seq<ClientEvent> {
    [ConversationItemCreate(UserMessage(None, text)), ResponseCreate]
  }

  /** The events `updateSession` sends: a buffer clear, the session update,
      and, when a greeting is asked for, a simulated "hi" with the fresh id. */
  function UpdateSessionEvents(agents: Option<seq<AgentConfig>>, agentName: string, pushToTalk: bool,
                               greet: bool, greetingId: string): seq<ClientEvent> {
    [InputAudioBufferClear, SessionUpdateEvent(agents, agentName, pushToTalk)]
      + (if greet then SimulatedUserMessageEvents("hi", greetingId) else [])
  }

  /** The shape of `updateSession`'s events: a clear first, then exactly one
      `session.update` whose turn detection is null exactly in push-to-talk
      mode and the voice-activity descriptor otherwise, whose instructions
      and tools are empty when no agent has the selected name, and then the
      greeting only when asked for. */
  lemma UpdateSessionShape(agents: Option<seq<AgentConfig>>, agentName: string, pushToTalk: bool,
                           greet: bool, greetingId: string)
    ensures var es := UpdateSessionEvents(agents, agentName, pushToTalk, greet, greetingId);
      && |es| == (if greet then 4 else 2)
      && es[0] == InputAudioBufferClear
      && (forall i :: 0 <= i < |es| && es[i].SessionUpdate? ==> i == 1)
      && es[1].SessionUpdate?
      && es[1].session.modalities == ["text", "audio"]
      && (es[1].session.turnDetection == None <==> pushToTalk)
      && (!pushToTalk ==> es[1].session.turnDetection == Some(ServerVad(0.5, 300, 200, true)))
      && ((agents.None? || forall a :: a in agents.value ==> a.name != agentName) ==>
            es[1].session.instructions == "" && es[1].session.tools == [])
      && (greet ==> es[2] == ConversationItemCreate(UserMessage(Some(greetingId), "hi")) && es[3] == ResponseCreate)
  {
    var es := UpdateSessionEvents(agents, agentName, pushToTalk, greet, greetingId);
    if agents.Some? && (forall a :: a in agents.value ==> a.name != agentName) {
      assert forall i :: 0 <= i < |agents.value| ==> agents.value[i] in agents.value;
    }
  }

  /** With unique agent names, the session update carries the instructions
      and tools of the agent that has the selected name, in either mode. */
  lemma SessionUpdateUsesSelectedAgent(agents: seq<AgentConfig>, agentName: string, agent: AgentConfig, pushToTalk: bool)
    requires UniqueAgentNames(agents) && agent in agents && agent.name == agentName
    ensures var e := SessionUpdateEvent(Some(agents), agentName, pushToTalk);
      e.session.instructions == agent.instructions && e.session.tools == agent.tools
  {
    var k :| 0 <= k < |agents| && agents[k] == agent;
    var found := FindAgent(agents, agentName);
    assert found.Some?;
    var i :| 0 <= i < |agents| && agents[i] == found.value && found.value.name == agentName
      && forall j :: 0 <= j < i ==> agents[j].name != agentName;
    assert i == k;
  }
}
