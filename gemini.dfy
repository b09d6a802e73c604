/**
 * The Gemini adapter: it converts the stored history into Gemini contents,
 * lets the vendor run the tools itself (automatic function calling) and then
 * looks through the trace of those calls for chart data.
 *
 * The vendor endpoint `models.generate_content` is an oracle from the
 * request to its reply.
 */
module Gemini {
  import opened Wrappers
  import opened Values
  import opened Models
  import opened AgentFunctions
  import opened Providers

  datatype FunctionCall = FunctionCall(name: string, args: Value)

  /** A function's reply as the trace records it; `response` is None when the reply dict is missing. */
  datatype FunctionResponse = FunctionResponse(name: string, response: Option<Entries>)

  datatype Part = Part(text: Option<string>, functionCall: Option<FunctionCall>, functionResponse: Option<FunctionResponse>)

  /** A Gemini content; `parts` is None when the vendor leaves it unset. */
  datatype Content = Content(role: string, parts: Option<seq<Part>>)

  /** The arguments of one `generate_content` call of the Gemini SDK: model, contents, and the configuration. */
  datatype GenerateContentCall = GenerateContentCall(
    model: Option<string>,
    contents: seq<Content>,
    systemInstruction: string,
    tools: seq<Tool>,
    temperature: real,
    topP: real,
    topK: int)

  /**
   * What `generate_content` does: raise (with the exception's message), or
   * answer with its text (None when it has none) and the trace of the
   * function calls it ran (None when it kept none).
   */
  datatype GeminiReply =
    | Threw(message: string)
    | Responded(text: Option<string>, trace: Option<seq<Content>>)

  const GeminiModels: seq<string> := ["gemini-1.5-pro", "gemini-1.5-flash", "gemini-2.0-flash"]

  /** The messages of the TypeErrors that iterating over or testing membership in None raise. */
  const NotIterable := "'NoneType' object is not iterable"
  const NoMembership := "argument of type 'NoneType' is not iterable"

  // ---------------------------------------------------------------------------
  // The request

  /** A stored message as a Gemini content: role "user" or "model", one text part. */
  function HistoryContent(m: ChatMessage): Content {
    Content(if m.role == "user" then "user" else "model", Some([Part(Some(m.content), None, None)]))
  }

  function History(messages: seq<ChatMessage>): (r: seq<Content>)
    ensures |r| == |messages|
  {
    if messages == [] then []
    else History(messages[..|messages| - 1]) + [HistoryContent(messages[|messages| - 1])]
  }

  /**
   * The contents sent are the history alone, one content per message in
   * order: the roles become "user" or "model" and each content is a single
   * text part holding the message.
   */
  lemma {:induction false} HistoryShape(messages: seq<ChatMessage>)
    ensures forall i :: 0 <= i < |messages| ==>
              History(messages)[i].role == (if messages[i].role == "user" then "user" else "model")
              && History(messages)[i].parts == Some([Part(Some(messages[i].content), None, None)])
  {
    if messages != [] {
      HistoryShape(messages[..|messages| - 1]);
    }
  }

  /** The request for the history; the prompt is not part of it. */
  function RequestFor(template: string, messages: seq<ChatMessage>, model: Option<string>,
                      temperature: real, topP: real, topK: int): GenerateContentCall {
    GenerateContentCall(model, History(messages), template, AllTools, temperature, topP, topK)
  }

  // ---------------------------------------------------------------------------
  // The scan of the trace

  /** Whether the part is a call of, or a reply from, generate_chart. */
  predicate MentionsChart(part: Part) {
    (part.functionCall.Some? && part.functionCall.value.name == "generate_chart")
    || (part.functionResponse.Some? && part.functionResponse.value.name == "generate_chart")
  }

  /**
   * One part of the scan: a generate_chart call is run again and its result
   * becomes the chart data; then a generate_chart reply holding a "result"
   * makes that result the chart data. A rerun that cannot bind its
   * arguments, or a reply without its dict, raises.
   */
  function ScanPart(part: Part, chart: Value, db: Database): Result<Value, string> {
    var afterCall :=
      if part.functionCall.Some? && part.functionCall.value.name == "generate_chart"
      then Invoke(GenerateChartTool, part.functionCall.value.args, db)
      else Success(chart);
    match afterCall
    case Failure(m) => Failure(m)
    case Success(c) =>
      if part.functionResponse.Some? && part.functionResponse.value.name == "generate_chart" then
        match part.functionResponse.value.response
        case None => Failure(NoMembership)
        case Some(e) => Success(Get(e, "result").GetOr(c))
      else Success(c)
  }

  function ScanParts(parts: seq<Part>, chart: Value, db: Database): Result<Value, string>
    decreases |parts|
  {
    if parts == [] then Success(chart)
    else match ScanPart(parts[0], chart, db)
      case Failure(m) => Failure(m)
      case Success(c) => ScanParts(parts[1..], c, db)
  }

  function ScanContents(contents: seq<Content>, chart: Value, db: Database): Result<Value, string>
    decreases |contents|
  {
    if contents == [] then Success(chart)
    else match contents[0].parts
      case None => Failure(NotIterable)
      case Some(parts) =>
        match ScanParts(parts, chart, db)
        case Failure(m) => Failure(m)
        case Success(c) => ScanContents(contents[1..], c, db)
  }

  /** The chart data the trace leaves, starting from None, or the message of what the scan raised. */
  function ChartData(trace: Option<seq<Content>>, db: Database): Result<Value, string> {
    match trace
    case None => Failure(NotIterable)
    case Some(contents) => ScanContents(contents, Null, db)
  }

  /** `str(response.text)` */
  function TextOf(text: Option<string>): string {
    match text
    case None => "None"
    case Some(t) => t
  }

  /** `generate_response`'s dict, or the message of the exception it lets escape. */
  function Respond(reply: GeminiReply, db: Database): Result<ProviderResult, string> {
    match reply
    case Threw(m) => Success(ProviderResult("Error generating response: " + m, Null, []))
    case Responded(text, trace) =>
      match ChartData(trace, db)
      case Failure(m) => Failure(m)
      case Success(chart) => Success(ProviderResult(TextOf(text), chart, []))
  }

  /** An exception of the vendor becomes the returned error text, with no chart. */
  lemma VendorErrorIsText(message: string, db: Database)
    ensures Respond(Threw(message), db)
            == Success(ProviderResult("Error generating response: " + message, Null, []))
  {
  }

  /** A part that does not mention generate_chart leaves the chart data as it was. */
  lemma QuietPartKeepsChart(part: Part, chart: Value, db: Database)
    requires !MentionsChart(part)
    ensures ScanPart(part, chart, db) == Success(chart)
  {
  }

  /** Parts none of which mentions generate_chart leave the chart data as it was. */
  lemma {:induction false} QuietPartsKeepChart(parts: seq<Part>, chart: Value, db: Database)
    requires forall k :: 0 <= k < |parts| ==> !MentionsChart(parts[k])
    ensures ScanParts(parts, chart, db) == Success(chart)
    decreases |parts|
  {
    if parts != [] {
      QuietPartKeepsChart(parts[0], chart, db);
      QuietPartsKeepChart(parts[1..], chart, db);
    }
  }

  /**
   * When no part of a complete trace mentions generate_chart, the chart data
   * stays None.
   */
  lemma {:induction false} QuietTraceHasNoChart(contents: seq<Content>, chart: Value, db: Database)
    requires forall i :: 0 <= i < |contents| ==> contents[i].parts.Some?
    requires forall i, k :: 0 <= i < |contents| && 0 <= k < |contents[i].parts.value| ==>
               !MentionsChart(contents[i].parts.value[k])
    ensures ScanContents(contents, chart, db) == Success(chart)
    decreases |contents|
  {
    if contents != [] {
      QuietPartsKeepChart(contents[0].parts.value, chart, db);
      QuietTraceHasNoChart(contents[1..], chart, db);
    }
  }

  /**
   * A rerun generate_chart call makes its result the chart data whatever it
   * is, an unsuccessful chart included, unless the same part also carries a
   * generate_chart reply.
   */
  lemma RerunChartWins(part: Part, chart: Value, db: Database)
    requires part.functionCall.Some? && part.functionCall.value.name == "generate_chart"
    requires part.functionResponse.None?
    requires Bind(GenerateChartTool, part.functionCall.value.args).Success?
    ensures var vals := Bind(GenerateChartTool, part.functionCall.value.args).value;
            ScanPart(part, chart, db) == Success(GenerateChart(vals[0], vals[1], vals[2], vals[3], vals[4], db))
  {
  }

  /** A generate_chart reply holding a result makes that result the chart data, whatever came before. */
  lemma RecordedResultWins(part: Part, chart: Value, db: Database, result: Value)
    requires part.functionResponse.Some? && part.functionResponse.value.name == "generate_chart"
    requires part.functionResponse.value.response.Some?
    requires Get(part.functionResponse.value.response.value, "result") == Some(result)
    requires !(part.functionCall.Some? && part.functionCall.value.name == "generate_chart")
    ensures ScanPart(part, chart, db) == Success(result)
  {
  }

  /** The scan of a trace is the scan of its first contents followed by the scan of the rest. */
  lemma {:induction false} ScanContentsAppend(xs: seq<Content>, ys: seq<Content>, chart: Value, db: Database)
    ensures ScanContents(xs + ys, chart, db)
            == match ScanContents(xs, chart, db)
               case Failure(m) => Failure(m)
               case Success(c) => ScanContents(ys, c, db)
    decreases |xs|
  {
    if xs != [] {
      assert (xs + ys)[0] == xs[0];
      assert (xs + ys)[1..] == xs[1..] + ys;
      if xs[0].parts.Some? && ScanParts(xs[0].parts.value, chart, db).Success? {
        ScanContentsAppend(xs[1..], ys, ScanParts(xs[0].parts.value, chart, db).value, db);
      }
    } else {
      assert xs + ys == ys;
    }
  }

  /**
   * The last word is with the end of the trace: whatever the earlier contents
   * left, a final content whose one chart-related part records a result makes
   * that result the chart data.
   */
  lemma LastRecordedResultWins(xs: seq<Content>, part: Part, result: Value, db: Database)
    requires ScanContents(xs, Null, db).Success?
    requires part.functionResponse.Some? && part.functionResponse.value.name == "generate_chart"
    requires part.functionResponse.value.response.Some?
    requires Get(part.functionResponse.value.response.value, "result") == Some(result)
    requires !(part.functionCall.Some? && part.functionCall.value.name == "generate_chart")
    ensures ScanContents(xs + [Content("model", Some([part]))], Null, db) == Success(result)
  {
    var c := ScanContents(xs, Null, db).value;
    ScanContentsAppend(xs, [Content("model", Some([part]))], Null, db);
    RecordedResultWins(part, c, db, result);
    OnePartContent(part, c, db);
  }

  /**
   * The same for a re-run call: whatever the earlier contents left, a final
   * content whose one part calls generate_chart makes that call's result the
   * chart data.
   */
  lemma LastRerunWins(xs: seq<Content>, part: Part, db: Database)
    requires ScanContents(xs, Null, db).Success?
    requires part.functionCall.Some? && part.functionCall.value.name == "generate_chart"
    requires part.functionResponse.None?
    requires Bind(GenerateChartTool, part.functionCall.value.args).Success?
    ensures var vals := Bind(GenerateChartTool, part.functionCall.value.args).value;
            ScanContents(xs + [Content("model", Some([part]))], Null, db)
            == Success(GenerateChart(vals[0], vals[1], vals[2], vals[3], vals[4], db))
  {
    var c := ScanContents(xs, Null, db).value;
    ScanContentsAppend(xs, [Content("model", Some([part]))], Null, db);
    RerunChartWins(part, c, db);
    OnePartContent(part, c, db);
  }

  /** A content of one part is scanned as that part. */
  lemma OnePartContent(part: Part, chart: Value, db: Database)
    ensures ScanContents([Content("model", Some([part]))], chart, db) == ScanPart(part, chart, db)
  {
    var contents := [Content("model", Some([part]))];
    assert [part][1..] == [] && contents[1..] == [];
    match ScanPart(part, chart, db)
    case Failure(m) =>
      assert ScanParts([part], chart, db) == Failure(m);
    case Success(c) =>
      assert ScanParts([part], chart, db) == ScanParts([], c, db) == Success(c);
      assert ScanContents(contents, chart, db) == ScanContents([], c, db);
  }

  // ---------------------------------------------------------------------------
  // The adapter

  class GeminiProvider {
    const apiKey: string
    const availableModels: seq<string> := GeminiModels

    constructor(apiKey: string)
      ensures this.apiKey == apiKey
    {
      this.apiKey := apiKey;
    }

    /** The three Gemini models, in order. */
    function GetAvailableModels(): (r: seq<string>)
      ensures |r| == 3 && r[0] == "gemini-1.5-pro" && r[1] == "gemini-1.5-flash" && r[2] == "gemini-2.0-flash"
    {
      availableModels
    }

    /** The history loop: one content per stored message. */
    method BuildHistory(messages: seq<ChatMessage>) returns (history: seq<Content>)
      ensures history == History(messages)
    {
      history := [];
      var i := 0;
      while i < |messages|
        invariant 0 <= i <= |messages|
        invariant history == History(messages[..i])
      {
        assert messages[..i + 1][..i] == messages[..i];
        history := history + [HistoryContent(messages[i])];
        i := i + 1;
      }
      assert messages[..|messages|] == messages;
    }

    /** The scan of one content's parts, from the chart data found so far. */
    method ScanContentParts(parts: seq<Part>, chart: Value, db: Database) returns (r: Result<Value, string>)
      ensures r == ScanParts(parts, chart, db)
    {
      var chartData := chart;
      var k := 0;
      while k < |parts|
        invariant 0 <= k <= |parts|
        invariant ScanParts(parts, chart, db) == ScanParts(parts[k..], chartData, db)
      {
        var part := parts[k];
        assert parts[k..][0] == part && parts[k..][1..] == parts[k + 1..];
        if part.functionCall.Some? && part.functionCall.value.name == "generate_chart" {
          var rerun := Invoke(GenerateChartTool, part.functionCall.value.args, db);
          if rerun.Failure? {
            return Failure(rerun.error);
          }
          chartData := rerun.value;
        }
        if part.functionResponse.Some? && part.functionResponse.value.name == "generate_chart" {
          if part.functionResponse.value.response.None? {
            return Failure(NoMembership);
          }
          var response := part.functionResponse.value.response.value;
          if "result" in Keys(response) {
            chartData := Get(response, "result").value;
          }
        }
        k := k + 1;
      }
      return Success(chartData);
    }

    /** The scan of the trace, or the message of what it raised. */
    method ScanTrace(trace: Option<seq<Content>>, db: Database) returns (r: Result<Value, string>)
      ensures r == ChartData(trace, db)
    {
      if trace.None? {
        return Failure(NotIterable);
      }
      var contents := trace.value;
      var chartData := Null;
      var i := 0;
      while i < |contents|
        invariant 0 <= i <= |contents|
        invariant ScanContents(contents, Null, db) == ScanContents(contents[i..], chartData, db)
      {
        assert contents[i..][0] == contents[i] && contents[i..][1..] == contents[i + 1..];
        if contents[i].parts.None? {
          return Failure(NotIterable);
        }
        var scanned := ScanContentParts(contents[i].parts.value, chartData, db);
        if scanned.Failure? {
          return Failure(scanned.error);
        }
        chartData := scanned.value;
        i := i + 1;
      }
      return Success(chartData);
    }

    /**
     * `generate_response`: the request it sends and the dict it returns, or
     * the message of the exception it lets escape. `template` is the Gemini
     * prompt template, a constant of a module that is not part of this model;
     * `generate` answers the request. The prompt is not sent.
     */
    method GenerateResponse(prompt: string, messages: seq<ChatMessage>, model: Option<string>,
                            temperature: real, topP: real, topK: int,
                            template: string, db: Database, generate: GenerateContentCall -> GeminiReply)
      returns (request: GenerateContentCall, result: Result<ProviderResult, string>)
      ensures request == RequestFor(template, messages, model, temperature, topP, topK)
      ensures result == Respond(generate(request), db)
    {
      var history := BuildHistory(messages);
      request := GenerateContentCall(model, history, template, AllTools, temperature, topP, topK);
      var reply := generate(request);
      if reply.Threw? {
        return request, Success(ProviderResult("Error generating response: " + reply.message, Null, []));
      }
      var text := TextOf(reply.text);
      var chartData := ScanTrace(reply.trace, db);
      if chartData.Failure? {
        return request, Failure(chartData.error);
      }
      result := Success(ProviderResult(text, chartData.value, []));
    }
  }
}
