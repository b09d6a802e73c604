# Data-analytics chatbot backend, modelled in Dafny

The backend is a FastAPI service. A user chats with a large language model about a SQL database. The model can call three tools:

- `query_database` runs a query;
- `generate_chart` runs a query and packs the rows as a chart;
- `list_tables` lists the catalog.

Each conversation is kept in a persistent session store. Two provider adapters talk to the vendors:

- Groq, which runs the tools itself over two requests;
- Gemini, where the vendor runs the tools and the adapter digs the chart out of the call trace.

A factory builds an adapter for each provider whose API key is set. Guardrails screen prompts, responses and table names.

The project has one module per source file, in dependency order:

| module | file | models |
|---|---|---|
| `Wrappers` | `wrappers.dfy` | `Option` and `Result` |
| `Values` | `values.dfy` | Python values and dicts as ordered entry lists; `d.get`, `d[k] = v`; the `TypeError` of `json.dumps` |
| `Models` | `models.dfy` | the pydantic request and record models |
| `Timestamps` | `timestamps.dfy` | instants, the civil calendar and `strftime('%Y-%m-%d %H:%M:%S')` |
| `Guardrails` | `guardrails.dfy` | the banned patterns (case-insensitive `re.search`/`re.sub`) and the `from`/`join` table scan |
| `AgentFunctions` | `agent_functions.dfy` | the three tools, their declarations, and binding `f(**args)` |
| `Session` | `session.dfy` | the `chat_sessions` and `chat_messages` tables as a class with the six store operations |
| `Providers` | `providers.dfy` | what an adapter's `generate_response` returns |
| `Groq` | `groq.dfy` | the Groq adapter |
| `Gemini` | `gemini.dfy` | the Gemini adapter |
| `Factory` | `factory.dfy` | `LLMProviderFactory` as a class whose provider table persists |
| `Orchestrator` | `orchestrator.dfy` | the HTTP endpoints of `main.py` |

State that the source changes in place lives in Dafny classes whose methods carry `modifies` clauses:

- the session store (`Session.SessionStore`);
- the factory's provider table (`Factory.ProviderFactory`);
- the adapters (`Groq.GroqProvider`, `Gemini.GeminiProvider`).

Loops of the source are methods with loop invariants, each proved equal to a specification function. These loops are:

- the row loop of `query_database`;
- the tool-call loop of Groq;
- the history loop and the trace scan of Gemini;
- the loops over the factory table and over the providers of `/providers`.

Everything outside the process is an explicit parameter, so each property holds for every behaviour of the outside world:

- **The database the tools query** is a `Database` value: what raises on engine creation, what raises on connection, the dialect's name, and a function from a statement to its outcome.
- **The Groq endpoint** is a function from request to reply.
- **The Gemini endpoint** is a function from request to reply and call trace.
- **The environment** is a map.
- **The prompt templates** are strings.
- **`uuid.uuid4()`** is the `newId` argument.
- **`datetime.now()`** is a clock field, moved forward by an elapsed number of microseconds at each reading.

The pydantic defaults of `models.py` are the datatypes' own parameter defaults in `models.dfy`:

- `GenerateRequest.sessionId := None`;
- `ChatSession.name := None` and `ChatSession.messages := []`;
- `ChatSessionRequest.name := None`.

### Where the model follows the code rather than its documentation

- `query_database` answers an empty query with a record keyed `"warning"`. The tests expect `"error"`.
- The error strings of `list_tables` lack the `f` prefix. Their braces are sent literally, and the exception text is not included.
- `generate_chart` reports success for a failed query, because the query's error record counts as data (`AgentFunctions.FailedQueryChartsSuccessfully`).
- In `generate_response` of `main.py`, `create_session` is called outside the `try`. A store failure there escapes the endpoint (`Reply.Unhandled`). FastAPI then answers with its own generic server error, not with the `HTTPException(500, str(e))` the `try` would have built.
- The character class `[a-z0-9_]` of `validate_table_access` sits under the pattern's case-insensitive flag, so upper-case table names are captured too. `FROM CLIENTES` is then allowed after lower-casing (`Guardrails.CapitalQueryAllowed`).

## Model

| member | source | states |
|---|---|---|
| `Values.DecimalToFloat` | backend/app/llm/agent_functions.py:85-86 | the float of a Decimal is zero exactly when its coefficient is zero |
| `Values.Keys` | backend/app/llm/agent_functions.py:84 | a dict's keys are its entries' keys, position by position |
| `Values.Get` | backend/app/main.py:121 | `d.get(k)` is None exactly when `k` is not a key; otherwise it is the value of an entry with key `k` |
| `Values.PutGet` | backend/app/llm/agent_functions.py:86 | after `d[k] = v`, `d.get(k)` is `v` |
| `Values.PutOther` | backend/app/llm/agent_functions.py:86 | `d[k] = v` leaves the lookup of every other key unchanged |
| `Values.PutKeys` | backend/app/llm/factory.py:28 | storing a present key keeps the key order; a new key is appended last |
| `Values.PutNew` | backend/app/llm/factory.py:28 | storing a new key appends that entry to the dict |
| `Values.FirstSome` | backend/app/llm/providers/groq.py:129 | the first serialisation error of a container is absent exactly when none of its items has one |
| `Timestamps.DaysBeforeMonth` | backend/app/llm/session.py:35-38 | the days before month 13 are the days of the whole year |
| `Timestamps.DaysInMonth` | backend/app/llm/session.py:35-38 | every month has 28 to 31 days |
| `Timestamps.YearOf` | backend/app/llm/session.py:35-38 | a day count splits into a year and a valid day index of that year, summing back to the count |
| `Timestamps.MonthOf` | backend/app/llm/session.py:35-38 | a day of the year falls in a month and a valid day of that month, summing back to the day |
| `Timestamps.CivilReading` | backend/app/llm/session.py:35-38 | the calendar reading of an instant is a valid date and time, and it stands for exactly the instant's whole seconds |
| `Timestamps.NumDigits` | backend/app/llm/session.py:38 | every number has at least one decimal digit |
| `Timestamps.Digits` | backend/app/llm/session.py:38 | zero-padded rendering has the padded length, only digits, and parses back to the number |
| `Timestamps.NumDigitsBelow` | backend/app/llm/session.py:38 | numbers below 10, 100, 1000 and 10000 need at most 1, 2, 3 and 4 digits |
| `Timestamps.Render` | backend/app/llm/session.py:38 | a rendering is at least 19 characters long, and exactly 19 when year and fields fit their widths |
| `Timestamps.Strftime` | backend/app/llm/session.py:38 | the timestamp of an instant before year 10000 is 19 characters long |
| `Timestamps.RenderFields` | backend/app/llm/session.py:38 | the rendering of a valid date before year 10000 is `YYYY-MM-DD HH:MM:SS`: 19 characters, the separators at their places, and each field the zero-padded digits of its value |
| `Timestamps.Layout` | backend/app/llm/session.py:38 | the separators and each field sit at fixed offsets once the field widths are fixed |
| `Guardrails.ValidateUserPrompt` | backend/app/llm/guardrails.py:9-29 | a prompt is safe exactly when no banned alternative occurs in it, ignoring case |
| `Guardrails.HackPromptIsBanned` | backend/app/llm/guardrails.py:71-72 | the module's sample prompt about hacking is refused |
| `Guardrails.FirstAlternative` | backend/app/llm/guardrails.py:9-13 | the alternation's choice is an alternative of the group that matches at the start; there is none exactly when no alternative matches there |
| `Guardrails.ModerateResponse` | backend/app/llm/guardrails.py:42-45 | the filtered response is the three substitutions in turn, and no banned term survives them |
| `Guardrails.BannedTermRedactable` | backend/app/llm/guardrails.py:42-43 | each banned term is non-empty, has no brackets and does not occur in `[filtered]`, so a replacement cannot create it |
| `Guardrails.SubRemoves` | backend/app/llm/guardrails.py:42-43 | after `re.sub`, no term of the pattern occurs, nor any such term that did not occur before |
| `Guardrails.SubIdentity` | backend/app/llm/guardrails.py:42-43 | `re.sub` leaves a text without a match unchanged |
| `Guardrails.SubAllIdentity` | backend/app/llm/guardrails.py:42-45 | the three substitutions leave a text without a banned term unchanged |
| `Guardrails.ModeratedIdentity` | backend/app/llm/guardrails.py:42-45 | moderation is the identity on a text that is safe by `validate_user_prompt` |
| `Guardrails.SpaceEnd` | backend/app/llm/guardrails.py:60-61 | the greedy `\s+` run ends at the first non-space character, within the text |
| `Guardrails.WordEnd` | backend/app/llm/guardrails.py:60-61 | the greedy `[a-z0-9_]+` run ends at the first character outside the class, under case folding |
| `Guardrails.TryMatch` | backend/app/llm/guardrails.py:60-61 | a match at a position has the keyword there, at least one space and a non-empty name, maximal on both runs |
| `Guardrails.CapturesAreWords` | backend/app/llm/guardrails.py:60-61 | every captured table name is non-empty and made of word characters only |
| `Guardrails.NoKeywordNoCapture` | backend/app/llm/guardrails.py:60-61 | a query without the keyword yields no captures |
| `Guardrails.SkipStretch` | backend/app/llm/guardrails.py:60-61 | the scan passes over a stretch with no keyword initial without capturing anything |
| `Guardrails.CaptureAt` | backend/app/llm/guardrails.py:60-61 | a keyword, spaces and a word at a position give that word as the next capture, and the scan resumes after it |
| `Guardrails.ValidateTableAccess` | backend/app/llm/guardrails.py:60-67 | the query is allowed exactly when every captured table is allowed after lower-casing; otherwise the message names the first table refused, in `from`-then-`join` order |
| `Guardrails.NoTablesAllowed` | backend/app/llm/guardrails.py:60-67 | a query that never mentions `from` or `join` captures no table |
| `Guardrails.LowerCaptureAscii` | backend/app/llm/guardrails.py:64 | lower-casing keeps the length and lower-cases each character |
| `Guardrails.ClientesPermitted` | backend/app/llm/guardrails.py:48 | `clientes` is an allowed table |
| `Guardrails.VendasNotPermitted` | backend/app/llm/guardrails.py:48 | `vendas` is not |
| `Guardrails.CapitalClientesPermitted` | backend/app/llm/guardrails.py:64 | `CLIENTES` is allowed once lower-cased |
| `Guardrails.DemoQueryTables` | backend/app/llm/guardrails.py:79-80 | the module's sample join query captures `vendas` then `clientes`, and is refused on `vendas` |
| `Guardrails.CapitalQueryAllowed` | backend/app/llm/guardrails.py:60-64 | `SELECT * FROM CLIENTES` captures `CLIENTES`, which is allowed |
| `AgentFunctions.ConvertCell` | backend/app/llm/agent_functions.py:85-86 | no Decimal survives conversion; other cells are unchanged |
| `AgentFunctions.ConvertCells` | backend/app/llm/agent_functions.py:84-86 | conversion keeps every key in place |
| `AgentFunctions.PutPreservesDistinct` | backend/app/llm/agent_functions.py:86 | storing into a dict keeps its keys distinct |
| `AgentFunctions.PutExisting` | backend/app/llm/agent_functions.py:86 | replacing a present key's value updates that entry in place |
| `AgentFunctions.ZipDict` | backend/app/llm/agent_functions.py:81 | `dict(zip(columns, row))` has distinct keys |
| `AgentFunctions.ZipPositional` | backend/app/llm/agent_functions.py:81 | with distinct columns and a full row, each column is paired with its own cell |
| `AgentFunctions.ZipCellsFromRow` | backend/app/llm/agent_functions.py:81 | every value of the zipped dict is a cell of the row |
| `AgentFunctions.QueryDatabase` | backend/app/llm/agent_functions.py:52-108 | the row loop with its in-place Decimal pass returns the specified records |
| `AgentFunctions.ConvertDecimals` | backend/app/llm/agent_functions.py:84-86 | the in-place loop over a row dict replaces every Decimal by its float and nothing else |
| `AgentFunctions.NoQueryIgnoresDatabase` | backend/app/llm/agent_functions.py:62-64 | an empty or non-string query gives the warning record, whatever the database |
| `AgentFunctions.FailureIsOneErrorRecord` | backend/app/llm/agent_functions.py:90-108 | each of the five failure paths gives one record whose only key is `error`, with its own prefix and the exception text |
| `AgentFunctions.OneRecordPerRow` | backend/app/llm/agent_functions.py:76-88 | on success there is one record per fetched row, in order, each the converted zip of columns and row |
| `AgentFunctions.RowRecordConverts` | backend/app/llm/agent_functions.py:81-86 | a row record has the zip's keys, and each value is the converted zipped cell |
| `AgentFunctions.RowRecordSerialisable` | backend/app/llm/agent_functions.py:83-86 | a record is serialisable by `json.dumps` when every cell of its row is serialisable or a Decimal |
| `AgentFunctions.ChartRecordKeys` | backend/app/llm/agent_functions.py:164-171 | the chart dict has exactly the six keys, in order |
| `AgentFunctions.ChartRecordValues` | backend/app/llm/agent_functions.py:164-171 | the chart dict holds success, the four parameters and the data under their keys |
| `AgentFunctions.ChartPassesThrough` | backend/app/llm/agent_functions.py:160-171 | a query with data gives a successful chart whose parameters are the arguments and whose data is the query's result |
| `AgentFunctions.GetAt` | backend/app/llm/agent_functions.py:84-86 | in a dict with distinct keys, looking up an entry's key finds its value |
| `AgentFunctions.FailedQueryChartsSuccessfully` | backend/app/llm/agent_functions.py:160-171 | a failed or empty query string still gives a successful chart, carrying the error or warning record as data |
| `AgentFunctions.NoDataExactlyWhenNoRows` | backend/app/llm/agent_functions.py:160-162 | the chart reports failure exactly when the query succeeds with no rows; it is then the fixed no-data record |
| `AgentFunctions.FirstCells` | backend/app/llm/agent_functions.py:209 | the first cells exist exactly when no row is empty, and are each row's first cell in order |
| `AgentFunctions.ListTablesByDialect` | backend/app/llm/agent_functions.py:198-210 | PostgreSQL and SQLite read their own catalogs and return the first cells; any other dialect gets the fixed refusal |
| `AgentFunctions.ListTablesFailures` | backend/app/llm/agent_functions.py:195-218 | only engine creation raises out of `list_tables`; a failed connection or catalog read yields a one-string list |
| `AgentFunctions.DeclarationMatchesSignature` | backend/app/llm/agent_functions.py:37-186 | each declaration names its function, declares one string property per parameter in order, and requires them all |
| `AgentFunctions.FirstUnknown` | backend/app/llm/providers/groq.py:119-120 | the first argument not a parameter is absent exactly when every argument is a parameter |
| `AgentFunctions.Missing` | backend/app/llm/providers/groq.py:119-120 | the missing names are exactly the parameters with no argument |
| `AgentFunctions.NameListThree` | backend/app/llm/providers/gemini.py:79-80 | three missing names are listed as `'a', 'b', and 'c'`, with a comma before the "and" |
| `AgentFunctions.ChartMissingNames` | backend/app/llm/agent_functions.py:143 | with only `chart_type` and `sql_query` supplied, no argument is unknown and `title`, `x_column`, `y_column` are missing, in that order |
| `AgentFunctions.ChartMissingThree` | backend/app/llm/providers/gemini.py:79-80 | `generate_chart(**args)` with only `chart_type` and `sql_query` raises `missing 3 required positional arguments: 'title', 'x_column', and 'y_column'` |
| `AgentFunctions.BindSucceedsIff` | backend/app/llm/providers/groq.py:119-120 | `f(**args)` binds exactly when `args` is a dict whose keys are the parameters |
| `AgentFunctions.BindValues` | backend/app/llm/providers/groq.py:119-120 | a bound call passes each parameter the value of its own key |
| `AgentFunctions.InvokeRaisesOnlyOnBinding` | backend/app/llm/providers/groq.py:119-120 | a bound tool raises exactly when it is `list_tables` and the engine cannot be created |
| `Session.FindSession` | backend/app/llm/session.py:58-65 | the lookup by id finds nothing exactly when the id is not stored; otherwise it finds a stored row with that id |
| `Session.ToMessages` | backend/app/llm/session.py:152 | one message per fetched row, in row order, each carrying its row's role, content and timestamp |
| `Session.SessionStore.constructor` | backend/app/llm/session.py:28-29 | a new store has empty tables |
| `Session.SessionStore.CreateSession` | backend/app/llm/session.py:32-51 | the session is stored last under the default or given name; a down store or a taken id raises and stores nothing |
| `Session.SessionStore.GetMessages` | backend/app/llm/session.py:144-156 | a down store gives no messages; otherwise one message per row of the session |
| `Session.SessionStore.GetSession` | backend/app/llm/session.py:54-77 | the session is found exactly when the store is up and the id is stored; it then carries its messages |
| `Session.SessionStore.DeleteSession` | backend/app/llm/session.py:80-98 | the session and its messages are removed; the result says whether a session row was deleted; a down store changes nothing |
| `Session.SessionStore.ListSessions` | backend/app/llm/session.py:101-123 | every stored session in table order, each with its id, name, creation time and messages; none when the store is down |
| `Session.SessionStore.AddMessage` | backend/app/llm/session.py:126-141 | the message is appended stamped with the clock; a down store stores nothing and returns None |
| `Session.MessagesOfExactly` | backend/app/llm/session.py:148-152 | a session's messages are exactly the stored rows with its id |
| `Session.MessagesOfSorted` | backend/app/llm/session.py:149 | the rows of one session keep the table's timestamp order |
| `Session.GetMessagesOrdered` | backend/app/llm/session.py:149 | `get_messages` returns messages in timestamp order |
| `Session.AppendedMessage` | backend/app/llm/session.py:132-137 | a stored row becomes the last message of its own session and changes no other session |
| `Session.WithoutMessagesExactly` | backend/app/llm/session.py:85-88 | deleting a session's messages keeps exactly the other sessions' rows |
| `Session.NoMessagesAfterDelete` | backend/app/llm/session.py:85-88 | afterwards the session has no messages |
| `Session.OtherMessagesAfterDelete` | backend/app/llm/session.py:85-88 | every other session's messages are as they were |
| `Session.WithoutMessagesSorted` | backend/app/llm/session.py:85-88 | deletion keeps the table in timestamp order |
| `Session.WithoutMessagesBounded` | backend/app/llm/session.py:85-88 | deletion keeps every timestamp at or before the clock |
| `Session.WithoutSessionIds` | backend/app/llm/session.py:89-92 | the session delete keeps exactly the other rows, and the id is gone |
| `Session.WithoutSessionDistinct` | backend/app/llm/session.py:89-92 | the session delete keeps ids distinct |
| `Providers.AsDict` | backend/app/llm/providers/groq.py:154-158 | the returned dict holds the response and the chart data first, then the further keys |
| `Groq.ToolsMirrorDeclarations` | backend/app/llm/providers/groq.py:31-56 | the advertised tools are the three declarations, in order, in Groq's format |
| `Groq.FunctionTableMatchesTools` | backend/app/llm/providers/groq.py:58-62 | the function table holds exactly the declared names, each bound to its own function |
| `Groq.HistoryTurns` | backend/app/llm/providers/groq.py:76-80 | one transcript turn per stored message |
| `Groq.HistoryTurnsAt` | backend/app/llm/providers/groq.py:76-80 | each stored message becomes a turn with its content, and every role but `user` is sent as `assistant` |
| `Groq.TranscriptShape` | backend/app/llm/providers/groq.py:70-87 | the transcript is the system message, then the history in order, and ends with the prompt as a user turn, appending it only when missing |
| `Groq.ChartOf` | backend/app/llm/providers/groq.py:122-124 | a call yields a chart only when it is a successful chart dict |
| `Groq.ChartsOf` | backend/app/llm/providers/groq.py:113-124 | one chart outcome per call, none of them a null chart |
| `Groq.ToolTurnsAnswerKnownCalls` | backend/app/llm/providers/groq.py:113-138 | every call of a known function gets exactly one tool turn, in order, carrying its call id; unknown calls get none |
| `Groq.ErrorsAreAnswered` | backend/app/llm/providers/groq.py:118-138 | bad JSON arguments or a failed binding is answered with an error record instead of raising |
| `Groq.LastChartAppend` | backend/app/llm/providers/groq.py:123-124 | a later chart replaces an earlier one; a non-chart keeps it |
| `Groq.ToolTurnsStep` | backend/app/llm/providers/groq.py:113-138 | one more call appends its own tool turns to the transcript |
| `Groq.ChartAfterStep` | backend/app/llm/providers/groq.py:113-124 | one more call sets the chart data exactly when it yields a chart |
| `Groq.LastChartIsLast` | backend/app/llm/providers/groq.py:103-124 | the chart data is None exactly when no call yielded a chart; otherwise it is the last chart yielded |
| `Groq.ChartAfterIsLastChart` | backend/app/llm/providers/groq.py:103-124 | after the calls the chart data is None exactly when no call yielded a chart; otherwise the last call that did decides it |
| `Groq.ExchangeRequests` | backend/app/llm/providers/groq.py:89-147 | one request with the tools, and a second one without tools over the extended transcript exactly when the first reply called tools |
| `Groq.ExchangeResult` | backend/app/llm/providers/groq.py:149-169 | a vendor error gives the apology, no chart and the error's details; otherwise the last reply's text, the chart data of the calls and the model used |
| `Groq.GroqProvider.constructor` | backend/app/llm/providers/groq.py:23-24 | the adapter keeps its API key |
| `Groq.GroqProvider.GetAvailableModels` | backend/app/llm/providers/groq.py:26-28 | the three Groq models, in order |
| `Groq.GroqProvider.BuildTranscript` | backend/app/llm/providers/groq.py:70-87 | the formatting loop builds the specified transcript |
| `Groq.GroqProvider.AnswerToolCall` | backend/app/llm/providers/groq.py:114-138 | one call gives the specified tool turns and chart |
| `Groq.GroqProvider.RunToolCalls` | backend/app/llm/providers/groq.py:113-138 | the tool-call loop gives the specified tool turns and the last chart |
| `Groq.GroqProvider.GenerateResponse` | backend/app/llm/providers/groq.py:64-169 | the requests sent and the result are the exchange over the specified transcript |
| `Gemini.History` | backend/app/llm/providers/gemini.py:50-56 | one content per stored message |
| `Gemini.HistoryShape` | backend/app/llm/providers/gemini.py:50-56 | each message becomes one text part under role `user` or `model` |
| `Gemini.VendorErrorIsText` | backend/app/llm/providers/gemini.py:58-67 | a vendor exception becomes the returned error text, with no chart |
| `Gemini.QuietPartKeepsChart` | backend/app/llm/providers/gemini.py:77-84 | a part that does not mention `generate_chart` leaves the chart data unchanged |
| `Gemini.QuietPartsKeepChart` | backend/app/llm/providers/gemini.py:77-84 | parts none of which mention the chart leave the chart data unchanged |
| `Gemini.QuietTraceHasNoChart` | backend/app/llm/providers/gemini.py:73-84 | a trace that never mentions `generate_chart` leaves the chart data unchanged |
| `Gemini.RerunChartWins` | backend/app/llm/providers/gemini.py:78-80 | a `generate_chart` call in the trace is re-run, and its result becomes the chart data |
| `Gemini.RecordedResultWins` | backend/app/llm/providers/gemini.py:82-84 | a recorded `generate_chart` reply with a result makes that result the chart data |
| `Gemini.ScanContentsAppend` | backend/app/llm/providers/gemini.py:74-84 | scanning a trace is scanning its first contents, then the rest from there |
| `Gemini.LastRecordedResultWins` | backend/app/llm/providers/gemini.py:74-84 | a trace ending with a recorded chart result yields that result, whatever came before |
| `Gemini.LastRerunWins` | backend/app/llm/providers/gemini.py:74-84 | a trace ending with a `generate_chart` call yields the re-run chart of that call, whatever came before |
| `Gemini.OnePartContent` | backend/app/llm/providers/gemini.py:75-77 | a content of one part is scanned as that part |
| `Gemini.GeminiProvider.constructor` | backend/app/llm/providers/gemini.py:30-31 | the adapter keeps its API key |
| `Gemini.GeminiProvider.GetAvailableModels` | backend/app/llm/providers/gemini.py:32-34 | the three Gemini models, in order |
| `Gemini.GeminiProvider.BuildHistory` | backend/app/llm/providers/gemini.py:50-56 | the history loop builds the specified contents |
| `Gemini.GeminiProvider.ScanContentParts` | backend/app/llm/providers/gemini.py:77-84 | the parts loop gives the specified scan |
| `Gemini.GeminiProvider.ScanTrace` | backend/app/llm/providers/gemini.py:73-84 | the trace loop gives the chart data of the trace, or what it raised |
| `Gemini.GeminiProvider.GenerateResponse` | backend/app/llm/providers/gemini.py:36-89 | the request is the history under the configuration, and the result is the specified reading of the vendor's reply |
| `Factory.AddNamesKeeps` | backend/app/llm/factory.py:24-28 | storing names keeps the old keys in front, in order, and holds exactly the old and the stored names |
| `Factory.AddNamesDistinct` | backend/app/llm/factory.py:24-28 | the key list stays without repeats |
| `Factory.AddNamesPresent` | backend/app/llm/factory.py:24-28 | storing names already present leaves the key list as it was |
| `Factory.AddNamesSnoc` | backend/app/llm/factory.py:25-28 | storing one more name after a run of names is one more step of the same |
| `Factory.TableEntries` | backend/app/llm/factory.py:18-21 | the class table lists `gemini` then `groq`, each with its class and key variable |
| `Factory.ConfiguredExactly` | backend/app/llm/factory.py:24-28 | the providers built are exactly the listed ones whose key is set, each once |
| `Factory.ConfiguredStep` | backend/app/llm/factory.py:25-27 | one more row of the class table adds its name exactly when its key is set |
| `Factory.TracksStep` | backend/app/llm/factory.py:25-28 | one row of the table keeps the account of what the loop has rebuilt |
| `Factory.ProviderFactory.constructor` | backend/app/llm/factory.py:16 | the provider table starts empty |
| `Factory.ProviderFactory.InitializeProviders` | backend/app/llm/factory.py:24-28 | every listed provider whose key is set is rebuilt with that key; a new name goes last; other entries are unchanged and none is removed |
| `Factory.ProviderFactory.InitializeClass` | backend/app/llm/factory.py:25-28 | one row: a set key builds and stores a new adapter; otherwise nothing changes |
| `Factory.ProviderFactory.GetProvider` | backend/app/llm/factory.py:30-34 | the lookup after re-initialisation: the stored adapter, or None |
| `Factory.ProviderFactory.GetAvailableProviders` | backend/app/llm/factory.py:36-39 | the names after re-initialisation, in insertion order, exactly the stored ones |
| `Orchestrator.CreateSession` | backend/app/main.py:41-46 | a new session stored under the given id, or an escaping store failure with nothing stored |
| `Orchestrator.GetSession` | backend/app/main.py:48-54 | 404 exactly when the store cannot find the session; otherwise the session under that id with its stored name, creation time and messages |
| `Orchestrator.DeleteSession` | backend/app/main.py:56-62 | success exactly when a stored session was deleted, else 404; afterwards the session and its messages are gone |
| `Orchestrator.ListSessions` | backend/app/main.py:64-67 | always answers: no sessions from a store that is down, else one entry per stored session, in table order, with its id and messages |
| `Orchestrator.GetMessages` | backend/app/main.py:70-78 | the session's messages, or 404 exactly when it cannot be found |
| `Orchestrator.MessagesInOrder` | backend/app/main.py:70-78 | the messages endpoint lists them oldest first |
| `Orchestrator.GenerateResponse` | backend/app/main.py:81-125 | an unknown or unkeyed provider gives 400 with the store untouched; otherwise the session is continued or created and the turn stored as specified |
| `Orchestrator.ContinueSession` | backend/app/main.py:97-125 | a named session not stored gives 404 with nothing changed; otherwise the turn is stored in it |
| `Orchestrator.StartSession` | backend/app/main.py:94-125 | a new session is created last and takes the turn; a failed creation escapes, and only the clock has moved |
| `Orchestrator.Turn` | backend/app/main.py:100-125 | the prompt is stored, then the provider's answer from the history ending with it; a provider error gives 500 with the prompt kept |
| `Orchestrator.Ask` | backend/app/main.py:106-113 | each provider class answers with its own adapter under the request's settings |
| `Orchestrator.TurnBodyFields` | backend/app/main.py:118-122 | the reply body is the response, the session id used and the chart data |
| `Orchestrator.PromptSentOnce` | backend/app/llm/providers/groq.py:82-87 | once the prompt is stored, Groq's transcript sends it once, as the last history turn |
| `Orchestrator.PromptSentLastToGemini` | backend/app/main.py:102-107 | once the prompt is stored, Gemini receives it as the last content, a user text part |
| `Orchestrator.ModelsOf` | backend/app/main.py:134-136 | an adapter's models are those of its class |
| `Orchestrator.GetAvailableProviders` | backend/app/main.py:127-138 | each available provider, in order, with the model list of its class; afterwards the factory is re-initialised as one initialisation would leave it, with no further name listed |

## Left out

- Logging, `print` and `load_dotenv` are not modelled. The environment is an explicit map.
- The SQL engines are not modelled. A `Database` value gives, for any statement, its rows or the exception it raises.
- The Groq and Gemini SDKs are not modelled. Each vendor call is a function parameter from request to reply.
- The `prompt_templates` module that both adapters import is not part of this model, so the templates are parameters. The `PROMPT_TEMPLATE` constant of `prompt_template.py` is not used by any modelled code.
- `uuid.uuid4()` is a parameter, not a random draw.
- `datetime.now()` is a clock that each reading moves forward by a given amount. The pydantic `datetime.now()` field defaults, evaluated at import, are not modelled; the backend always passes the time.
- The clock is read as UTC; local time zones are not modelled.
- Values.DecimalToFloat: `float(Decimal)` is taken as the exact real, without rounding to binary64. A `Decimal` value is a finite coefficient and exponent, so `Decimal('NaN')` and `Decimal('±Infinity')`, which a PostgreSQL `NUMERIC` column can hold, are not expressible. The overflow of a large `Decimal` such as `1e400` to `inf` is not modelled either, nor is `json.dumps` writing `NaN` or `Infinity` for such floats.
- Session.SessionStore.AddMessage: the foreign key from `chat_messages.session_id` to `chat_sessions.id` is treated as unenforced, as in SQLite's default. On a store that enforces it, PostgreSQL for one, a message for an unknown session id fails with an `IntegrityError`. `add_message` then returns None and stores nothing, which the model does not capture. It stores the row for any id.
- Groq: a reply whose `content` is None is not modelled; the text is a string.
- Groq: the capping of responses at 1024 tokens is kept in the request only.
- Groq: `top_k` is accepted and ignored, as in the source.
- The adapters' default `model`, `temperature`, `top_p` and `top_k` are not modelled, because `main.py` always passes all four.
- `result.get("chart_data", None)` in `main.py` is modelled as a field access: both adapters always return `chart_data`.
- Concurrency between requests is not modelled, nor a store that goes down in the middle of one request: availability changes only through `SetOnline`.
- The `hasattr` checks of the Gemini adapter are not modelled: the model always supplies those attributes. `parts` that is None is modelled, with the `TypeError` its iteration raises.
- `base.py` is not part of this model. The abstract interface becomes the `Factory.Adapter` datatype over the two adapter classes.
- Not modelled: the `/` root endpoint, the CSV and database upload endpoints with `db_functions.py`, `default_database.py`, the frontend, the cloud and data-loading scripts, and `run.py`. They are outside the chatbot core.
- Session.SessionStore.GetMessages: its own contract states only the number of messages. Which rows they are and their order is stated by `Session.MessagesOfExactly` and `Session.GetMessagesOrdered`.
- Orchestrator.ListSessions: its contract states each session's id and messages, in table order, but not its name or creation time. Those are stated by `Session.SessionStore.ListSessions`.
- Row order is fixed where the SQL leaves it open. `list_sessions` has no `ORDER BY`, yet the model lists sessions in insertion order. `ORDER BY timestamp` leaves the order of equal timestamps open, yet the model keeps those rows in insertion order. Equal timestamps can occur because a clock reading may advance by zero.
- AgentFunctions.Bind: the `TypeError` messages are those of CPython 3.10 to 3.12. From 3.13 on, the unexpected-keyword message may end with a `Did you mean '…'?` suggestion, which is not modelled.
- Values.Put and Values.DumpsError have no contract of their own. Their properties are the `Values.Put*` lemmas and `AgentFunctions.RowRecordSerialisable`.
