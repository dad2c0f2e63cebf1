/**
 * The chat endpoint's controller (app/controllers/chat.py): load a connector
 * per dataset of the workspace, pick or create the conversation, configure and
 * run the agent, and either store the answer or replace a failure by the
 * canned fallback message.
 *
 * The database, the file system, the agent and the memory builder are not part
 * of this model: they are collaborators passed in as functions, and the
 * conversation store is an abstract map.
 */
module ChatControllerModel {
  import opened PyValues
  import opened PandasConnectorModel
  import ChatPipelineSpec

  /** The fields of a stored dataset that `chat` reads. */
  datatype Dataset = Dataset(name: string, tableName: string, description: string, head: Value, fieldDescriptions: Value)

  /**
   * The arguments a PandasConnector is built with. Built from a dataframe, the
   * connector cannot fail to load (see LoadIdempotent and Load), so it is
   * represented by these arguments.
   */
  datatype ConnectorArgs = ConnectorArgs(frame: Frame, name: string, description: string,
                                         customHead: Option<Frame>, fieldDescriptions: Value)

  /**
   * Where the rows come from: `load_data_from_db(query)` and `load_df(head)`;
   * either may raise, which `chat` catches per dataset.
   */
  datatype DataSources = DataSources(loadFromDb: string -> Result<Frame>, loadHead: Value -> Result<Frame>)

  /** The query `chat` runs for a dataset. */
  function TableQuery(tableName: string): (r: string)
    ensures StartsWith(r, "SELECT * FROM ") && r[|"SELECT * FROM "|..] == tableName
  {
    "SELECT * FROM " + tableName
  }

  /** The body of the try-block for one dataset: its connector, or None when a load raised. */
  function TryConnector(d: Dataset, sources: DataSources): (r: Option<ConnectorArgs>)
    ensures r.Some? <==> sources.loadFromDb(TableQuery(d.tableName)).Ok?
                         && (Truthy(d.head) ==> sources.loadHead(d.head).Ok?)
    ensures r.Some? ==>
      && r.value.frame == sources.loadFromDb(TableQuery(d.tableName)).value
      && r.value.name == d.name && r.value.description == d.description
      && r.value.fieldDescriptions == d.fieldDescriptions
      && r.value.customHead == (if Truthy(d.head) then Some(sources.loadHead(d.head).value) else None)
  {
    match sources.loadFromDb(TableQuery(d.tableName))
    case Err(_) => None
    case Ok(df) =>
      if Truthy(d.head) then
        match sources.loadHead(d.head)
        case Err(_) => None
        case Ok(h) => Some(ConnectorArgs(df, d.name, d.description, Some(h), d.fieldDescriptions))
      else Some(ConnectorArgs(df, d.name, d.description, None, d.fieldDescriptions))
  }

  /** The connector list for `datasets`, one entry per dataset whose loads succeeded. */
  function Connectors(datasets: seq<Dataset>, sources: DataSources): (r: seq<ConnectorArgs>)
    ensures |r| <= |datasets|
  {
    if datasets == [] then []
    else
      var last := TryConnector(datasets[|datasets| - 1], sources);
      Connectors(datasets[..|datasets| - 1], sources) + (if last.Some? then [last.value] else [])
  }

  /** The positions, in order, of the datasets whose loads succeeded. */
  function Kept(datasets: seq<Dataset>, sources: DataSources): seq<nat>
  {
    if datasets == [] then []
    else
      Kept(datasets[..|datasets| - 1], sources)
      + (if TryConnector(datasets[|datasets| - 1], sources).Some? then [|datasets| - 1] else [])
  }

  /**
   * The connector list is the subsequence of successful loads: entry k comes
   * from dataset Kept[k], the positions strictly increase, and a dataset is
   * kept exactly when its loads succeed.
   */
  lemma {:induction false} ConnectorsAreSuccessfulLoads(datasets: seq<Dataset>, sources: DataSources)
    ensures var cs := Connectors(datasets, sources);
      var kept := Kept(datasets, sources);
      && |cs| == |kept| <= |datasets|
      && (forall k :: 0 <= k < |kept| ==>
            && kept[k] < |datasets|
            && TryConnector(datasets[kept[k]], sources).Some?
            && cs[k] == TryConnector(datasets[kept[k]], sources).value)
      && (forall k, l :: 0 <= k < l < |kept| ==> kept[k] < kept[l])
      && (forall i :: 0 <= i < |datasets| ==> (TryConnector(datasets[i], sources).Some? <==> i in kept))
  {
    KeptPositions(datasets, sources);
    ConnectorsFollowKept(datasets, sources);
  }

  /** The kept positions: in range, increasing, and exactly those of the successful loads. */
  lemma {:induction false} KeptPositions(datasets: seq<Dataset>, sources: DataSources)
    ensures var kept := Kept(datasets, sources);
      && |kept| <= |datasets|
      && (forall k :: 0 <= k < |kept| ==> kept[k] < |datasets| && TryConnector(datasets[kept[k]], sources).Some?)
      && (forall k, l :: 0 <= k < l < |kept| ==> kept[k] < kept[l])
      && (forall i :: 0 <= i < |datasets| ==> (TryConnector(datasets[i], sources).Some? <==> i in kept))
  {
    if datasets != [] {
      var init := datasets[..|datasets| - 1];
      KeptPositions(init, sources);
      var kept := Kept(datasets, sources);
      var keptInit := Kept(init, sources);
      assert forall k :: 0 <= k < |keptInit| ==> datasets[keptInit[k]] == init[keptInit[k]];
      forall i | 0 <= i < |datasets|
        ensures TryConnector(datasets[i], sources).Some? <==> i in kept
      {
        if i < |datasets| - 1 {
          assert datasets[i] == init[i];
          assert i in keptInit <==> i in kept;
        }
      }
    }
  }

  /** Entry k of the connector list comes from the dataset at kept position k. */
  lemma {:induction false} ConnectorsFollowKept(datasets: seq<Dataset>, sources: DataSources)
    ensures var cs := Connectors(datasets, sources);
      var kept := Kept(datasets, sources);
      && |cs| == |kept|
      && forall k :: 0 <= k < |kept| ==>
           kept[k] < |datasets| && TryConnector(datasets[kept[k]], sources).Some?
           && cs[k] == TryConnector(datasets[kept[k]], sources).value
  {
    KeptPositions(datasets, sources);
    if datasets != [] {
      var init := datasets[..|datasets| - 1];
      ConnectorsFollowKept(init, sources);
      KeptPositions(init, sources);
      var keptInit := Kept(init, sources);
      assert forall k :: 0 <= k < |keptInit| ==> datasets[keptInit[k]] == init[keptInit[k]];
    }
  }

  /** When every load succeeds there is exactly one connector per dataset, in dataset order. */
  lemma {:induction false} ConnectorsWhenAllLoad(datasets: seq<Dataset>, sources: DataSources)
    requires forall i :: 0 <= i < |datasets| ==> TryConnector(datasets[i], sources).Some?
    ensures |Connectors(datasets, sources)| == |datasets|
    ensures forall i :: 0 <= i < |datasets| ==> Connectors(datasets, sources)[i] == TryConnector(datasets[i], sources).value
  {
    if datasets != [] {
      var init := datasets[..|datasets| - 1];
      assert forall i :: 0 <= i < |init| ==> init[i] == datasets[i];
      ConnectorsWhenAllLoad(init, sources);
    }
  }

  /** The loop of lines 87-110: failed loads are skipped, successful ones appended in order. */
  method BuildConnectors(datasets: seq<Dataset>, sources: DataSources) returns (connectors: seq<ConnectorArgs>)
    ensures connectors == Connectors(datasets, sources)
  {
    connectors := [];
    for i := 0 to |datasets|
      invariant connectors == Connectors(datasets[..i], sources)
    {
      assert datasets[..i + 1][..i] == datasets[..i];
      var query := TableQuery(datasets[i].tableName);
      var df := sources.loadFromDb(query);
      if df.Err? {
        continue;
      }
      var customHead: Option<Frame> := None;
      if Truthy(datasets[i].head) {
        var h := sources.loadHead(datasets[i].head);
        if h.Err? {
          continue;
        }
        customHead := Some(h.value);
      }
      var d := datasets[i];
      connectors := connectors + [ConnectorArgs(df.value, d.name, d.description, customHead, d.fieldDescriptions)];
    }
    assert datasets[..|datasets|] == datasets;
  }

  /** The directory charts are saved to. */
  function PlotDirectory(projectRoot: string, conversationId: string): (r: string)
    ensures StartsWith(r, projectRoot + "/exports/")
    ensures r[|projectRoot + "/exports/"|..] == conversationId
  {
    projectRoot + "/exports/" + conversationId
  }

  /** The agent configuration; `llm` holds the API key of the OpenAI model it builds. */
  datatype AgentConfig = AgentConfig(enableCache: bool, saveCharts: bool, saveChartsPath: string, llm: Option<string>)

  function AgentConfigFor(projectRoot: string, conversationId: string, apiKey: string): (r: AgentConfig)
    ensures !r.enableCache && r.saveCharts
    ensures r.saveChartsPath == PlotDirectory(projectRoot, conversationId)
    ensures r.llm.Some? <==> apiKey != ""
    ensures r.llm.Some? ==> r.llm.value == apiKey
  {
    var config := AgentConfig(false, true, PlotDirectory(projectRoot, conversationId), None);
    if apiKey != "" then config.(llm := Some(apiKey)) else config
  }

  const FallbackPrefix: string := "Unfortunately, I was not able to"

  /** The controller's test for a failed answer. */
  function IsFallbackResponse(response: Value): (r: bool)
    ensures r <==> response.Str? && |FallbackPrefix| <= |response.s|
                   && forall i :: 0 <= i < |FallbackPrefix| ==> response.s[i] == FallbackPrefix[i]
  {
    response.Str? && StartsWith(response.s, FallbackPrefix)
  }

  lemma PrefixOfPrefix(s: string, p: string, q: string)
    requires StartsWith(s, p) && StartsWith(p, q)
    ensures StartsWith(s, q)
  {
    assert s[..|q|] == s[..|p|][..|q|];
  }

  /** Every fallback text of the orchestrator is recognised as one. */
  lemma {:induction false} OrchestratorFallbackRecognised(e: Exc)
    ensures IsFallbackResponse(Str(ChatPipelineSpec.FallbackText(e)))
  {
    ChatPipelineSpec.FallbackRoundTrip(e);
    assert FallbackPrefix == ChatPipelineSpec.FallbackOpening;
    assert ChatPipelineSpec.FallbackHead[..|FallbackPrefix|] == FallbackPrefix;
    PrefixOfPrefix(ChatPipelineSpec.FallbackText(e), ChatPipelineSpec.FallbackHead, FallbackPrefix);
  }

  /** Whenever a run of the orchestrator caught an exception, the controller answers with the fallback message. */
  lemma FailedRunRecognised(input: ChatPipelineSpec.ChatPipelineInput, maxRetries: int,
                            judge: Option<ChatPipelineSpec.Judge>, env: ChatPipelineSpec.Collaborators)
    ensures var e := ChatPipelineSpec.RunSpec(input, maxRetries, judge, env);
      e.error.Some? ==> IsFallbackResponse(e.response)
  {
    var e := ChatPipelineSpec.RunSpec(input, maxRetries, judge, env);
    ChatPipelineSpec.RunPublishes(input, maxRetries, judge, env);
    if e.error.Some? {
      OrchestratorFallbackRecognised(e.error.value);
    }
  }

  /** The single item returned instead of a failed answer. */
  function FallbackItem(message: string): (r: Value)
    ensures r.Dict? && r.entries.Keys == {"type", "message", "value"}
    ensures r.entries["type"] == Str("string")
    ensures r.entries["message"] == Str(message) && r.entries["value"] == Str(message)
  {
    Dict(map["type" := Str("string"), "message" := Str(message), "value" := Str(message)])
  }

  datatype ChatRequest = ChatRequest(workspaceId: string, conversationId: Option<string>, query: string)

  /** A stored conversation message. */
  datatype Message = Message(id: string, query: string, response: Value, codeGenerated: Option<string>)

  datatype ConversationRecord = ConversationRecord(workspaceId: string, userId: string)

  /** What the agent is built with and asked. */
  datatype AgentCall = AgentCall(connectors: seq<ConnectorArgs>, config: AgentConfig, memory: Option<Value>, query: string)

  /** What the agent gives back: the response and `last_code_executed`. */
  datatype AgentReply = AgentReply(response: Value, lastCodeExecuted: Option<string>)

  datatype ChatReply =
    | FallbackReply(items: seq<Value>)
    | Answer(response: Value, conversationId: string, messageId: string, query: string)

  /**
   * The collaborators of one call: the project root, the OpenAI key ("" when
   * unset), the ids the database assigns to a new conversation and to the new
   * message, the data sources, `prepare_conv_memory`, and the agent.
   */
  datatype ChatEnv = ChatEnv(projectRoot: string, apiKey: string, newConversationId: string, newMessageId: string,
                             sources: DataSources, prepareMemory: seq<Message> -> Value, agent: AgentCall -> AgentReply)

  /** Python truthiness of the request's conversation id. */
  predicate HasConversationId(request: ChatRequest)
  {
    request.conversationId.Some? && request.conversationId.value != ""
  }

  /** The conversation `chat` talks in. */
  function ConversationIdFor(request: ChatRequest, env: ChatEnv): (r: string)
    ensures HasConversationId(request) ==> r == request.conversationId.value
    ensures !HasConversationId(request) ==> r == env.newConversationId
  {
    if HasConversationId(request) then request.conversationId.value else env.newConversationId
  }

  /** The memory handed to the agent: built only for an existing conversation, used only when truthy. */
  function MemoryFor(request: ChatRequest, env: ChatEnv, history: seq<Message>): (r: Option<Value>)
    ensures r.Some? <==> HasConversationId(request) && Truthy(env.prepareMemory(history))
    ensures r.Some? ==> r.value == env.prepareMemory(history)
  {
    if !HasConversationId(request) then None
    else
      var memory := env.prepareMemory(history);
      if Truthy(memory) then Some(memory) else None
  }

  class ChatController {
    /** `get_space_datasets`: the datasets of each workspace. */
    const spaceDatasets: map<string, seq<Dataset>>
    /** CHAT_FALLBACK_MESSAGE. */
    const fallbackMessage: string
    var conversations: map<string, ConversationRecord>
    var messages: map<string, seq<Message>>
    /** Every agent call made, in order. */
    ghost var agentCalls: seq<AgentCall>

    /** The injected repositories, with whatever they already hold. */
    constructor (spaceDatasets: map<string, seq<Dataset>>, fallbackMessage: string,
                 conversations: map<string, ConversationRecord>, messages: map<string, seq<Message>>)
      ensures this.spaceDatasets == spaceDatasets && this.fallbackMessage == fallbackMessage
      ensures this.conversations == conversations && this.messages == messages && agentCalls == []
    {
      this.spaceDatasets := spaceDatasets;
      this.fallbackMessage := fallbackMessage;
      this.conversations := conversations;
      this.messages := messages;
      agentCalls := [];
    }

    function DatasetsOf(workspaceId: string): seq<Dataset>
      reads this
    {
      if workspaceId in spaceDatasets then spaceDatasets[workspaceId] else []
    }

    function MessagesOf(conversationId: string): seq<Message>
      reads this
    {
      if conversationId in messages then messages[conversationId] else []
    }

    /** `start_new_conversation`. */
    method StartNewConversation(userId: string, request: ChatRequest, newId: string) returns (id: string)
      modifies this
      ensures id == newId
      ensures conversations == old(conversations)[newId := ConversationRecord(request.workspaceId, userId)]
      ensures messages == old(messages) && agentCalls == old(agentCalls)
    {
      conversations := conversations[newId := ConversationRecord(request.workspaceId, userId)];
      id := newId;
    }

    /** `chat`. */
    method Chat(userId: string, request: ChatRequest, env: ChatEnv) returns (reply: ChatReply)
      modifies this
      ensures var cid := ConversationIdFor(request, env);
        var call := AgentCall(Connectors(old(DatasetsOf(request.workspaceId)), env.sources),
                              AgentConfigFor(env.projectRoot, cid, env.apiKey),
                              MemoryFor(request, env, old(MessagesOf(cid))),
                              request.query);
        var answer := env.agent(call);
        && agentCalls == old(agentCalls) + [call]
        && conversations == (if HasConversationId(request) then old(conversations)
                             else old(conversations)[cid := ConversationRecord(request.workspaceId, userId)])
        && (IsFallbackResponse(answer.response) ==>
              reply == FallbackReply([FallbackItem(fallbackMessage)]) && messages == old(messages))
        && (!IsFallbackResponse(answer.response) ==>
              && reply == Answer(List([answer.response]), cid, env.newMessageId, request.query)
              && messages == old(messages)[cid := old(MessagesOf(cid)) +
                   [Message(env.newMessageId, request.query, List([answer.response]), answer.lastCodeExecuted)]])
    {
      var datasets := DatasetsOf(request.workspaceId);
      var conversationId: string;
      var memory: Option<Value> := None;
      if !HasConversationId(request) {
        conversationId := StartNewConversation(userId, request, env.newConversationId);
      } else {
        conversationId := request.conversationId.value;
        var history := MessagesOf(conversationId);
        memory := Some(env.prepareMemory(history));
      }
      var connectors := BuildConnectors(datasets, env.sources);
      var config := AgentConfigFor(env.projectRoot, conversationId, env.apiKey);
      var agentMemory: Option<Value> := None;
      if memory.Some? && Truthy(memory.value) {
        agentMemory := memory;
      }
      var call := AgentCall(connectors, config, agentMemory, request.query);
      agentCalls := agentCalls + [call];
      var answer := env.agent(call);
      if IsFallbackResponse(answer.response) {
        return FallbackReply([FallbackItem(fallbackMessage)]);
      }
      var response := List([answer.response]);
      var message := Message(env.newMessageId, request.query, response, answer.lastCodeExecuted);
      messages := messages[conversationId := MessagesOf(conversationId) + [message]];
      reply := Answer(response, conversationId, env.newMessageId, request.query);
    }
  }
}
