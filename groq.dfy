/**
 * The Groq adapter: it builds a chat transcript from the stored history,
 * sends it with the three tools advertised, runs every tool call the model
 * asks for against the database and, when there were calls, sends the
 * transcript back once more for the final answer.
 *
 * The vendor endpoint `chat.completions.create` is an oracle from the
 * request to its reply; the database is the `Database` oracle of the tools.
 */
module Groq {
  import opened Wrappers
  import opened Values
  import opened Models
  import opened AgentFunctions
  import opened Providers

  /** A tool call the model asked for; `arguments` is what `json.loads` made of its argument text. */
  datatype ToolCall = ToolCall(id: string, name: string, arguments: Result<Value, string>)

  /** One message of the transcript; tool results carry their JSON value as content. */
  datatype Turn = Turn(role: string, content: Value, toolCalls: seq<ToolCall>, toolCallId: Option<string>)

  datatype GroqRequest = GroqRequest(
    model: Option<string>,
    messages: seq<Turn>,
    tools: Option<seq<Value>>,
    toolChoice: Option<string>,
    maxTokens: nat,
    temperature: real,
    topP: real)

  /** The first choice's message, or the message of whatever the call raised. */
  datatype GroqReply = Completed(content: string, calls: seq<ToolCall>) | ApiError(message: string)

  const GroqModels: seq<string> := ["llama-3.3-70b-versatile", "qwen-qwq-32b", "deepseek-r1-distill-llama-70b"]

  const MaxTokens: nat := 1024

  const Apology :=
    "I'm sorry, I encountered an error generating a response. Please try again later or try with different parameters."

  /** A declaration in Groq's tool format. */
  function ToolEntry(d: Declaration): Value {
    Dict([("type", Str("function")),
          ("function", Dict([("name", Str(d.name)), ("description", Str(d.description)),
                             ("parameters", d.parameters)]))])
  }

  const GroqTools: seq<Value> :=
    [ToolEntry(QueryDatabaseDeclaration), ToolEntry(GenerateChartDeclaration), ToolEntry(ListTablesDeclaration)]

  const GroqFunctions: map<string, Tool> :=
    map["query_database" := QueryDatabaseTool, "generate_chart" := GenerateChartTool, "list_tables" := ListTablesTool]

  /** The tools advertised are the three declarations, in order, in Groq's format. */
  lemma ToolsMirrorDeclarations()
    ensures |GroqTools| == |AllTools|
    ensures forall i :: 0 <= i < |AllTools| ==> GroqTools[i] == ToolEntry(DeclarationOf(AllTools[i]))
  {
  }

  /**
   * The names the tools advertise are exactly the keys of the function table,
   * and each key is bound to the tool of that name.
   */
  lemma FunctionTableMatchesTools()
    ensures forall name :: name in GroqFunctions <==>
              exists i :: 0 <= i < |AllTools| && DeclarationOf(AllTools[i]).name == name
    ensures forall tool :: ToolName(tool) in GroqFunctions && GroqFunctions[ToolName(tool)] == tool
  {
    forall name | name in GroqFunctions
      ensures exists i :: 0 <= i < |AllTools| && DeclarationOf(AllTools[i]).name == name
    {
      if name == "query_database" {
        assert DeclarationOf(AllTools[0]).name == name;
      } else if name == "generate_chart" {
        assert DeclarationOf(AllTools[1]).name == name;
      } else {
        assert DeclarationOf(AllTools[2]).name == name;
      }
    }
    forall name | exists i :: 0 <= i < |AllTools| && DeclarationOf(AllTools[i]).name == name
      ensures name in GroqFunctions
    {
      var i :| 0 <= i < |AllTools| && DeclarationOf(AllTools[i]).name == name;
      assert i == 0 || i == 1 || i == 2;
    }
  }

  // ---------------------------------------------------------------------------
  // The transcript

  function SystemTurn(template: string): Turn {
    Turn("system", Str(template), [], None)
  }

  function UserTurn(text: string): Turn {
    Turn("user", Str(text), [], None)
  }

  /** A stored message as a transcript turn: every role other than "user" is sent as "assistant". */
  function HistoryTurn(m: ChatMessage): Turn {
    Turn(if m.role == "user" then "user" else "assistant", Str(m.content), [], None)
  }

  function HistoryTurns(history: seq<ChatMessage>): (r: seq<Turn>)
    ensures |r| == |history|
  {
    if history == [] then []
    else HistoryTurns(history[..|history| - 1]) + [HistoryTurn(history[|history| - 1])]
  }

  lemma {:induction false} HistoryTurnsAt(history: seq<ChatMessage>)
    ensures forall i :: 0 <= i < |history| ==> HistoryTurns(history)[i] == HistoryTurn(history[i])
  {
    if history != [] {
      HistoryTurnsAt(history[..|history| - 1]);
    }
  }

  /** The prompt still has to be sent: the history does not end with it as a user message. */
  predicate PromptPending(prompt: string, history: seq<ChatMessage>) {
    history == [] || history[|history| - 1].role != "user" || history[|history| - 1].content != prompt
  }

  function Transcript(template: string, prompt: string, history: seq<ChatMessage>): seq<Turn> {
    [SystemTurn(template)] + HistoryTurns(history) + (if PromptPending(prompt, history) then [UserTurn(prompt)] else [])
  }

  /**
   * The transcript opens with the one system message, carries the history in
   * order with its roles relabelled, and ends with the prompt as a user turn,
   * appended only when the history does not already end with it.
   */
  lemma TranscriptShape(template: string, prompt: string, history: seq<ChatMessage>)
    ensures var t := Transcript(template, prompt, history);
            |t| == 1 + |history| + (if PromptPending(prompt, history) then 1 else 0)
            && t[0] == SystemTurn(template)
            && (forall i :: 1 <= i < |t| ==> t[i].role in {"user", "assistant"})
            && (forall i :: 0 <= i < |history| ==> t[i + 1] == HistoryTurn(history[i]))
            && t[|t| - 1] == UserTurn(prompt)
  {
    HistoryTurnsAt(history);
  }

  // ---------------------------------------------------------------------------
  // The tool loop

  function ErrorPayload(message: string): Value {
    Dict([("error", Str(message))])
  }

  /** What the tool call runs, if its name is in the function table. */
  function Resolve(name: string): Option<Tool> {
    if name in GroqFunctions then Some(GroqFunctions[name]) else None
  }

  /** A successful chart: a dict whose "success" is true. */
  predicate IsChart(v: Value) {
    v.Dict? && Truthy(Get(v.entries, "success").GetOr(Null))
  }

  /** The JSON content of the tool turn answering a call to `tool`. */
  function ToolContent(tool: Tool, call: ToolCall, db: Database): Value {
    match call.arguments
    case Failure(m) => ErrorPayload(m)
    case Success(args) =>
      match Invoke(tool, args, db)
      case Failure(m) => ErrorPayload(m)
      case Success(v) =>
        match DumpsError(v)
        case Some(m) => ErrorPayload(m)
        case None => v
  }

  /** The chart a call yields: a generate_chart result that is a successful chart. */
  function ChartOf(call: ToolCall, db: Database): (r: Option<Value>)
    ensures r.Some? ==> IsChart(r.value)
  {
    if call.name == "generate_chart" && call.arguments.Success? then
      match Invoke(GenerateChartTool, call.arguments.value, db)
      case Success(v) => if IsChart(v) then Some(v) else None
      case Failure(_) => None
    else None
  }

  function ToolTurnFor(call: ToolCall, db: Database): seq<Turn> {
    match Resolve(call.name)
    case None => []
    case Some(tool) => [Turn("tool", ToolContent(tool, call, db), [], Some(call.id))]
  }

  /** The tool turns the calls add to the transcript, in call order. */
  function ToolTurns(calls: seq<ToolCall>, db: Database): seq<Turn> {
    if calls == [] then []
    else ToolTurns(calls[..|calls| - 1], db) + ToolTurnFor(calls[|calls| - 1], db)
  }

  /** What each call yields for the chart, in call order. */
  function ChartsOf(calls: seq<ToolCall>, db: Database): (r: seq<Option<Value>>)
    ensures |r| == |calls| && NoNullChart(r)
  {
    seq(|calls|, i requires 0 <= i < |calls| => ChartOf(calls[i], db))
  }

  /** No chart is the value None, so None can mark the absence of one. */
  predicate NoNullChart(charts: seq<Option<Value>>) {
    forall i :: 0 <= i < |charts| ==> charts[i] != Some(Null)
  }

  /** The last value among the charts, or None when there is none. */
  function LastChart(charts: seq<Option<Value>>): Value {
    if charts == [] then Null
    else match charts[|charts| - 1]
      case Some(v) => v
      case None => LastChart(charts[..|charts| - 1])
  }

  /** The chart data after the calls: the last chart one of them yielded, else None. */
  function ChartAfter(calls: seq<ToolCall>, db: Database): Value {
    LastChart(ChartsOf(calls, db))
  }

  /** The ids of the calls whose names the function table knows, in order. */
  function KnownIds(calls: seq<ToolCall>): seq<string> {
    if calls == [] then []
    else KnownIds(calls[..|calls| - 1]) + (if calls[|calls| - 1].name in GroqFunctions then [calls[|calls| - 1].id] else [])
  }

  /**
   * Every tool turn has role "tool", and the turns answer exactly the calls of
   * known functions, one each, in call order: unknown names add nothing.
   */
  lemma {:induction false} ToolTurnsAnswerKnownCalls(calls: seq<ToolCall>, db: Database)
    ensures var ts := ToolTurns(calls, db);
            |ts| == |KnownIds(calls)|
            && (forall i :: 0 <= i < |ts| ==> ts[i].role == "tool" && ts[i].toolCallId == Some(KnownIds(calls)[i]))
  {
    if calls != [] {
      ToolTurnsAnswerKnownCalls(calls[..|calls| - 1], db);
    }
  }

  /** A call whose arguments could not be parsed or bound is answered with its error message. */
  lemma ErrorsAreAnswered(call: ToolCall, db: Database)
    requires call.name in GroqFunctions
    ensures call.arguments.Failure? ==>
              ToolTurnFor(call, db) == [Turn("tool", ErrorPayload(call.arguments.error), [], Some(call.id))]
    ensures call.arguments.Success? && Bind(GroqFunctions[call.name], call.arguments.value).Failure? ==>
              ToolTurnFor(call, db)
              == [Turn("tool", ErrorPayload(Bind(GroqFunctions[call.name], call.arguments.value).error), [], Some(call.id))]
  {
  }

  lemma LastChartAppend(charts: seq<Option<Value>>, c: Option<Value>)
    ensures LastChart(charts + [c]) == if c.Some? then c.value else LastChart(charts)
  {
    assert (charts + [c])[..|charts|] == charts;
  }

  /** One more call adds its own tool turn, if any, after those of the calls before it. */
  lemma ToolTurnsStep(calls: seq<ToolCall>, j: nat, db: Database)
    requires j < |calls|
    ensures ToolTurns(calls[..j + 1], db) == ToolTurns(calls[..j], db) + ToolTurnFor(calls[j], db)
  {
    assert calls[..j + 1][..j] == calls[..j];
  }

  /** One more call replaces the chart data exactly when it yields a chart. */
  lemma ChartAfterStep(calls: seq<ToolCall>, j: nat, db: Database)
    requires j < |calls|
    ensures ChartAfter(calls[..j + 1], db)
            == if ChartOf(calls[j], db).Some? then ChartOf(calls[j], db).value else ChartAfter(calls[..j], db)
  {
    var before, c := ChartsOf(calls[..j], db), ChartOf(calls[j], db);
    assert ChartsOf(calls[..j + 1], db) == before + [c] by {
      forall i | 0 <= i < j + 1
        ensures ChartsOf(calls[..j + 1], db)[i] == (before + [c])[i]
      {
        if i < j {
          assert calls[..j + 1][i] == calls[..j][i];
        }
      }
    }
    LastChartAppend(before, c);
  }

  /** The last chart is None exactly when there is none, and otherwise one after which none follows. */
  lemma {:induction false} LastChartIsLast(charts: seq<Option<Value>>)
    requires NoNullChart(charts)
    ensures LastChart(charts) == Null <==> forall i :: 0 <= i < |charts| ==> charts[i].None?
    ensures LastChart(charts) != Null ==>
              exists i :: 0 <= i < |charts| && charts[i] == Some(LastChart(charts))
                          && forall j :: i < j < |charts| ==> charts[j].None?
  {
    if charts != [] {
      var init := charts[..|charts| - 1];
      LastChartIsLast(init);
      if charts[|charts| - 1].None? && LastChart(init) != Null {
        var i :| 0 <= i < |init| && init[i] == Some(LastChart(init))
                 && forall j :: i < j < |init| ==> init[j].None?;
        assert charts[i] == Some(LastChart(charts));
      }
    }
  }

  /**
   * The chart data is None exactly when no call yields a chart; otherwise it is
   * the chart of some call after which no call yields one.
   */
  lemma ChartAfterIsLastChart(calls: seq<ToolCall>, db: Database)
    ensures ChartAfter(calls, db) == Null <==> forall i :: 0 <= i < |calls| ==> ChartOf(calls[i], db).None?
    ensures ChartAfter(calls, db) != Null ==>
              exists i :: 0 <= i < |calls| && ChartOf(calls[i], db) == Some(ChartAfter(calls, db))
                          && forall j :: i < j < |calls| ==> ChartOf(calls[j], db).None?
  {
    var charts := ChartsOf(calls, db);
    LastChartIsLast(charts);
    assert forall i :: 0 <= i < |calls| ==> charts[i] == ChartOf(calls[i], db);
  }

  // ---------------------------------------------------------------------------
  // The exchange with the vendor

  function FirstRequest(model: Option<string>, messages: seq<Turn>, temperature: real, topP: real): GroqRequest {
    GroqRequest(model, messages, Some(GroqTools), Some("auto"), MaxTokens, temperature, topP)
  }

  function FollowUpRequest(model: Option<string>, messages: seq<Turn>, temperature: real, topP: real): GroqRequest {
    GroqRequest(model, messages, None, None, MaxTokens, temperature, topP)
  }

  function AssistantTurn(content: string, calls: seq<ToolCall>): Turn {
    Turn("assistant", Str(content), calls, None)
  }

  function ModelValue(model: Option<string>): Value {
    match model
    case None => Null
    case Some(m) => Str(m)
  }

  function Answer(text: string, chartData: Value, model: Option<string>): ProviderResult {
    ProviderResult(text, chartData, [("model_used", ModelValue(model))])
  }

  function Failed(message: string): ProviderResult {
    ProviderResult(Apology, Null, [("error", Str("generation_error")), ("error_details", Str(message))])
  }

  /** The transcript of the follow-up request. */
  function FollowUpTranscript(transcript: seq<Turn>, content: string, calls: seq<ToolCall>, db: Database): seq<Turn> {
    transcript + [AssistantTurn(content, calls)] + ToolTurns(calls, db)
  }

  /** The requests sent, in order, and the result, when the exchange opens with `transcript`. */
  function Exchange(transcript: seq<Turn>, model: Option<string>, temperature: real, topP: real,
                    db: Database, create: GroqRequest -> GroqReply)
    : (seq<GroqRequest>, ProviderResult)
  {
    var first := FirstRequest(model, transcript, temperature, topP);
    match create(first)
    case ApiError(m) => ([first], Failed(m))
    case Completed(content, calls) =>
      if calls == [] then ([first], Answer(content, Null, model))
      else
        var second := FollowUpRequest(model, FollowUpTranscript(first.messages, content, calls, db), temperature, topP);
        match create(second)
        case ApiError(m) => ([first, second], Failed(m))
        case Completed(text, _) => ([first, second], Answer(text, ChartAfter(calls, db), model))
  }

  /**
   * One or two requests go out. The first carries the transcript and the
   * tools; a second goes out exactly when the first reply asks for tool
   * calls, carries no tools, and extends the transcript by the reply and the
   * tool turns.
   */
  lemma ExchangeRequests(transcript: seq<Turn>, model: Option<string>, temperature: real, topP: real,
                         db: Database, create: GroqRequest -> GroqReply)
    ensures var (sent, _) := Exchange(transcript, model, temperature, topP, db, create);
            1 <= |sent| <= 2
            && sent[0].messages == transcript
            && sent[0].tools == Some(GroqTools) && sent[0].maxTokens == MaxTokens
            && (|sent| == 2 <==> create(sent[0]).Completed? && create(sent[0]).calls != [])
            && (|sent| == 2 ==>
                  sent[1].tools == None
                  && sent[1].messages == FollowUpTranscript(sent[0].messages, create(sent[0]).content, create(sent[0]).calls, db))
  {
  }

  /**
   * The reply is the apology, with no chart and the error details, exactly
   * when a request failed; otherwise it is the last reply's text, the chart
   * of the tool calls (None when there were none) and the model used.
   */
  lemma ExchangeResult(transcript: seq<Turn>, model: Option<string>, temperature: real, topP: real,
                         db: Database, create: GroqRequest -> GroqReply)
    ensures var (sent, r) := Exchange(transcript, model, temperature, topP, db, create);
            var last := create(sent[|sent| - 1]);
            (last.ApiError? ==>
               r.response == Apology && r.chartData == Null
               && Get(r.extra, "error") == Some(Str("generation_error"))
               && Get(r.extra, "error_details") == Some(Str(last.message)))
            && (last.Completed? ==>
                  r.response == last.content
                  && r.chartData == (if |sent| == 1 then Null else ChartAfter(create(sent[0]).calls, db))
                  && r.extra == [("model_used", ModelValue(model))])
  {
  }

  // ---------------------------------------------------------------------------
  // The adapter

  class GroqProvider {
    const apiKey: string
    const availableModels: seq<string> := GroqModels
    const tools: seq<Value> := GroqTools
    const availableFunctions: map<string, Tool> := GroqFunctions

    constructor(apiKey: string)
      ensures this.apiKey == apiKey
    {
      this.apiKey := apiKey;
    }

    /** The three Groq models, in order. */
    function GetAvailableModels(): (r: seq<string>)
      ensures |r| == 3 && r[0] == "llama-3.3-70b-versatile" && r[1] == "qwen-qwq-32b"
              && r[2] == "deepseek-r1-distill-llama-70b"
    {
      availableModels
    }

    /** The system message, the relabelled history and, when still needed, the prompt. */
    method BuildTranscript(template: string, prompt: string, messages: seq<ChatMessage>) returns (formatted: seq<Turn>)
      ensures formatted == Transcript(template, prompt, messages)
    {
      formatted := [SystemTurn(template)];
      var i := 0;
      while i < |messages|
        invariant 0 <= i <= |messages|
        invariant formatted == [SystemTurn(template)] + HistoryTurns(messages[..i])
      {
        assert messages[..i + 1][..i] == messages[..i];
        formatted := formatted + [HistoryTurn(messages[i])];
        i := i + 1;
      }
      assert messages[..|messages|] == messages;
      if messages == [] || messages[|messages| - 1].role != "user" || messages[|messages| - 1].content != prompt {
        formatted := formatted + [UserTurn(prompt)];
      }
    }

    /** One pass of the tool-call loop: the tool turn it appends and the chart it records, if any. */
    method AnswerToolCall(call: ToolCall, db: Database) returns (turns: seq<Turn>, chart: Option<Value>)
      ensures turns == ToolTurnFor(call, db) && chart == ChartOf(call, db)
    {
      turns, chart := [], None;
      if call.name in availableFunctions {
        var tool := availableFunctions[call.name];
        var content;
        if call.arguments.Failure? {
          content := ErrorPayload(call.arguments.error);
        } else {
          var response := Invoke(tool, call.arguments.value, db);
          if response.Failure? {
            content := ErrorPayload(response.error);
          } else {
            var v := response.value;
            if call.name == "generate_chart" && v.Dict? && Truthy(Get(v.entries, "success").GetOr(Null)) {
              chart := Some(v);
            }
            var dumped := DumpsError(v);
            content := if dumped.Some? then ErrorPayload(dumped.value) else v;
          }
        }
        turns := [Turn("tool", content, [], Some(call.id))];
      }
    }

    /** The tool-call loop: the tool turns in call order and the chart data it leaves. */
    method RunToolCalls(calls: seq<ToolCall>, db: Database) returns (turns: seq<Turn>, chartData: Value)
      ensures turns == ToolTurns(calls, db) && chartData == ChartAfter(calls, db)
    {
      turns, chartData := [], Null;
      var j := 0;
      while j < |calls|
        invariant 0 <= j <= |calls|
        invariant turns == ToolTurns(calls[..j], db)
        invariant chartData == ChartAfter(calls[..j], db)
      {
        var added, chart := AnswerToolCall(calls[j], db);
        ToolTurnsStep(calls, j, db);
        ChartAfterStep(calls, j, db);
        turns := turns + added;
        if chart.Some? {
          chartData := chart.value;
        }
        j := j + 1;
      }
      assert calls[..|calls|] == calls;
    }

    /**
     * `generate_response`: the requests it sends, in order, and the dict it
     * returns. `template` is the Groq prompt template, a constant of a module
     * that is not part of this model; `create` answers each request.
     */
    method GenerateResponse(prompt: string, messages: seq<ChatMessage>, model: Option<string>,
                            temperature: real, topP: real, topK: int,
                            template: string, db: Database, create: GroqRequest -> GroqReply)
      returns (sent: seq<GroqRequest>, result: ProviderResult)
      ensures (sent, result) == Exchange(Transcript(template, prompt, messages), model, temperature, topP, db, create)
    {
      var formatted := BuildTranscript(template, prompt, messages);
      var first := GroqRequest(model, formatted, Some(tools), Some("auto"), MaxTokens, temperature, topP);
      assert first == FirstRequest(model, Transcript(template, prompt, messages), temperature, topP);
      sent := [first];
      var reply := create(first);
      if reply.ApiError? {
        result := Failed(reply.message);
        return;
      }
      if reply.calls == [] {
        result := Answer(reply.content, Null, model);
        return;
      }
      formatted := formatted + [AssistantTurn(reply.content, reply.calls)];
      var toolTurns, chartData := RunToolCalls(reply.calls, db);
      formatted := formatted + toolTurns;
      var second := GroqRequest(model, formatted, None, None, MaxTokens, temperature, topP);
      assert second == FollowUpRequest(model, FollowUpTranscript(first.messages, reply.content, reply.calls, db),
                                       temperature, topP);
      sent := sent + [second];
      var finalReply := create(second);
      if finalReply.ApiError? {
        result := Failed(finalReply.message);
      } else {
        result := Answer(finalReply.content, chartData, model);
      }
      assert Exchange(Transcript(template, prompt, messages), model, temperature, topP, db, create).0 == sent;
      assert Exchange(Transcript(template, prompt, messages), model, temperature, topP, db, create).1 == result;
    }
  }
}
