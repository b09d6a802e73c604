/**
 * The HTTP endpoints of the backend, as commands over the two pieces of state
 * that outlive a request: the session store and the provider factory. An
 * `HTTPException` becomes an `HttpError` reply; an exception that escapes an
 * endpoint (FastAPI answers it with a server error) becomes `Unhandled`.
 */
module Orchestrator {
  import opened Wrappers
  import opened Values
  import opened Models
  import opened AgentFunctions
  import opened Providers
  import Groq
  import Gemini
  import opened Factory
  import opened Session

  datatype Reply<T> = Ok(body: T) | HttpError(status: nat, detail: string) | Unhandled(error: StoreError)

  /**
   * What a turn depends on besides the store and the factory: the environment,
   * the database the tools query, the two prompt templates and the two vendor
   * calls.
   */
  datatype Services = Services(
    env: map<string, string>,
    db: Database,
    groqTemplate: string,
    geminiTemplate: string,
    create: Groq.GroqRequest -> Groq.GroqReply,
    generate: Gemini.GenerateContentCall -> Gemini.GeminiReply)

  /** How far the clock moves before each of the three store writes of a turn. */
  datatype Ticks = Ticks(create: nat, user: nat, reply: nat)

  const SessionNotFound: string := "Session not found"

  function UnknownProvider(name: string): string {
    "Provider '" + name + "' not available or API key not set"
  }

  /** The instant `elapsed` microseconds after `t`. */
  function Later(t: Instant, elapsed: nat): Instant {
    t + elapsed
  }

  /** `if not session_id`: None and the empty string both ask for a new session. */
  predicate NamesSession(sessionId: Option<string>) {
    sessionId.Some? && sessionId.value != ""
  }

  /** What the provider of the class answers for the turn; only Gemini can raise. */
  function ProviderAnswer(cls: ProviderClass, request: GenerateRequest, history: seq<ChatMessage>,
                          services: Services): Result<ProviderResult, string> {
    match cls
    case GroqClass =>
      Success(Groq.Exchange(Groq.Transcript(services.groqTemplate, request.prompt, history),
                            request.model, request.temperature, request.topP, services.db, services.create).1)
    case GeminiClass =>
      Gemini.Respond(services.generate(Gemini.RequestFor(services.geminiTemplate, history, request.model,
                                                         request.temperature, request.topP, request.topK)),
                     services.db)
  }

  /** The body `generate_response` returns. */
  function TurnBody(sessionId: string, r: ProviderResult): Value {
    Dict([("response", Str(r.response)), ("session_id", Str(sessionId)), ("chart_data", r.chartData)])
  }

  /** The body is the provider's response and chart under the session id used. */
  lemma TurnBodyFields(sessionId: string, r: ProviderResult)
    ensures var b := TurnBody(sessionId, r);
            b.Dict? && Keys(b.entries) == ["response", "session_id", "chart_data"]
            && Get(b.entries, "response") == Some(Str(r.response))
            && Get(b.entries, "session_id") == Some(Str(sessionId))
            && Get(b.entries, "chart_data") == Get(AsDict(r).entries, "chart_data")
  {
    var e := TurnBody(sessionId, r).entries;
    assert DistinctKeys(e);
    GetAt(e, 0);
    GetAt(e, 1);
    GetAt(e, 2);
  }

  /**
   * The history a turn hands to the provider ends with the prompt just stored
   * as a user message, so the Groq transcript is the system message and the
   * history, with the prompt not sent a second time.
   */
  lemma PromptSentOnce(template: string, before: seq<MessageRow>, user: MessageRow)
    requires user.role == "user"
    ensures var history := ToMessages(before + [user]);
            Groq.Transcript(template, user.content, history)
            == [Groq.SystemTurn(template)] + Groq.HistoryTurns(history)
            && Groq.HistoryTurns(history)[|history| - 1] == Groq.UserTurn(user.content)
  {
    var history := ToMessages(before + [user]);
    assert history[|history| - 1] == ChatMessage("user", user.content, user.timestamp);
    assert !Groq.PromptPending(user.content, history);
    Groq.HistoryTurnsAt(history);
  }

  /** For Gemini, the same history makes the prompt the last content sent, as a user text part. */
  lemma PromptSentLastToGemini(template: string, before: seq<MessageRow>, user: MessageRow,
                               model: Option<string>, temperature: real, topP: real, topK: int)
    requires user.role == "user"
    ensures var contents := Gemini.RequestFor(template, ToMessages(before + [user]), model, temperature, topP, topK).contents;
            |contents| == |before| + 1
            && contents[|before|].role == "user"
            && contents[|before|].parts == Some([Gemini.Part(Some(user.content), None, None)])
  {
    var history := ToMessages(before + [user]);
    assert history[|before|] == ChatMessage("user", user.content, user.timestamp);
    Gemini.HistoryShape(history);
  }

  // ---------------------------------------------------------------------------
  // POST /generate

  /** The fields of the session store, as a value. */
  datatype Snapshot = Snapshot(online: bool, sessions: seq<SessionRow>, messages: seq<MessageRow>, clock: Instant)

  function SnapshotOf(store: SessionStore): Snapshot
    reads store
  {
    Snapshot(store.online, store.sessions, store.messages, store.clock)
  }

  /**
   * A turn in the named session `id`, from store `s0` to store `s1`: refused
   * with 404, the store untouched, unless the session is stored; otherwise the
   * turn is stored in it.
   */
  predicate ContinuedTurn(id: string, cls: ProviderClass, request: GenerateRequest, services: Services, ticks: Ticks,
                          s0: Snapshot, s1: Snapshot, reply: Reply<Value>, answer: Result<ProviderResult, string>)
  {
    if s0.online && id in Ids(s0.sessions) then
      s1.online == s0.online && s1.sessions == s0.sessions
      && answer == ProviderAnswer(cls, request, TurnHistory(s0.messages, id, request.prompt, Later(s0.clock, ticks.user)), services)
      && TurnStored(answer, id, request.prompt, s0.messages, s0.clock, ticks, reply, s1.messages, s1.clock)
    else
      reply == HttpError(404, SessionNotFound) && s1 == s0
  }

  /**
   * A turn with no session named: the session `newId` is created with the
   * default name, and the turn is stored in it; a store that is down or an id
   * already taken makes the creation raise, and only the clock has moved.
   */
  predicate StartedTurn(newId: string, cls: ProviderClass, request: GenerateRequest, services: Services, ticks: Ticks,
                        s0: Snapshot, s1: Snapshot, reply: Reply<Value>, answer: Result<ProviderResult, string>)
  {
    if s0.online && newId !in Ids(s0.sessions) then
      CreatedTurn(newId, cls, request, services, ticks, s0, Later(s0.clock, ticks.create), s1, reply, answer)
    else
      reply == Unhandled(if s0.online then DuplicateId(newId) else Unavailable)
      && s1 == s0.(clock := Later(s0.clock, ticks.create))
  }

  /** The session `newId` created at `t` is listed last, and the turn is stored in it. */
  predicate CreatedTurn(newId: string, cls: ProviderClass, request: GenerateRequest, services: Services, ticks: Ticks,
                        s0: Snapshot, t: Instant, s1: Snapshot, reply: Reply<Value>, answer: Result<ProviderResult, string>)
  {
    s1.online == s0.online && s1.sessions == s0.sessions + [SessionRow(newId, SessionName(None, t), t)]
    && answer == ProviderAnswer(cls, request, TurnHistory(s0.messages, newId, request.prompt, Later(t, ticks.user)), services)
    && TurnStored(answer, newId, request.prompt, s0.messages, t, ticks, reply, s1.messages, s1.clock)
  }

  /**
   * `generate_response`. The provider is looked up first, and an unknown or
   * unkeyed one is refused before the store is touched. Then the session is
   * created (when none is named) or looked up (an unknown one is refused), the
   * prompt is stored, the provider answers from the stored history, and the
   * answer is stored. A provider that raises gives a 500 and leaves the prompt
   * stored. `answer` is the provider's answer, named for the contract.
   */
  method GenerateResponse(request: GenerateRequest, store: SessionStore, factory: ProviderFactory,
                          services: Services, newId: string, ticks: Ticks)
    returns (reply: Reply<Value>, ghost answer: Result<ProviderResult, string>)
    requires store.Valid() && factory.Valid()
    modifies store, factory
    ensures factory.Reinitialized(services.env)
    ensures store.Valid()
    ensures request.provider !in factory.adapters ==>
              reply == HttpError(400, UnknownProvider(request.provider)) && unchanged(store)
    ensures request.provider in factory.adapters && NamesSession(request.sessionId) ==>
              ContinuedTurn(request.sessionId.value, ClassNamed(request.provider), request, services, ticks,
                            old(SnapshotOf(store)), SnapshotOf(store), reply, answer)
    ensures request.provider in factory.adapters && !NamesSession(request.sessionId) ==>
              StartedTurn(newId, ClassNamed(request.provider), request, services, ticks,
                          old(SnapshotOf(store)), SnapshotOf(store), reply, answer)
  {
    answer := Failure("");
    var provider := factory.GetProvider(request.provider, services.env);
    if provider.None? {
      return HttpError(400, UnknownProvider(request.provider)), answer;
    }
    assert SnapshotOf(store) == old(SnapshotOf(store));
    if NamesSession(request.sessionId) {
      reply, answer := ContinueSession(provider.value, ClassNamed(request.provider), request, request.sessionId.value,
                                       store, services, ticks, old(SnapshotOf(store)));
    } else {
      reply, answer := StartSession(provider.value, ClassNamed(request.provider), request, newId,
                                    store, services, ticks, old(SnapshotOf(store)));
    }
  }

  /** A named session: an unknown one is refused with 404, a stored one takes the turn. */
  method ContinueSession(adapter: Adapter, ghost cls: ProviderClass, request: GenerateRequest, sessionId: string,
                         store: SessionStore, services: Services, ticks: Ticks, ghost s0: Snapshot)
    returns (reply: Reply<Value>, ghost answer: Result<ProviderResult, string>)
    requires store.Valid() && SnapshotOf(store) == s0 && ClassOf(adapter) == cls
    modifies store
    ensures store.Valid()
    ensures ContinuedTurn(sessionId, cls, request, services, ticks, s0, SnapshotOf(store), reply, answer)
  {
    answer := Failure("");
    if store.GetSession(sessionId).None? {
      return HttpError(404, SessionNotFound), answer;
    }
    reply, answer := Turn(adapter, cls, request, sessionId, store, services, ticks, s0.messages, s0.clock);
  }

  /**
   * No session named: `create_session` runs outside the endpoint's try, so a
   * store failure escapes; otherwise the new session takes the turn.
   */
  method StartSession(adapter: Adapter, ghost cls: ProviderClass, request: GenerateRequest, newId: string,
                      store: SessionStore, services: Services, ticks: Ticks, ghost s0: Snapshot)
    returns (reply: Reply<Value>, ghost answer: Result<ProviderResult, string>)
    requires store.Valid() && SnapshotOf(store) == s0 && ClassOf(adapter) == cls
    modifies store
    ensures store.Valid()
    ensures StartedTurn(newId, cls, request, services, ticks, s0, SnapshotOf(store), reply, answer)
  {
    answer := Failure("");
    ghost var t := Later(s0.clock, ticks.create);
    var created := store.CreateSession(None, newId, ticks.create);
    if created.Failure? {
      assert SnapshotOf(store) == s0.(clock := t);
      return Unhandled(created.error), answer;
    }
    assert created.value.id == newId && store.clock == t;
    assert s0.online && newId !in Ids(s0.sessions);
    assert store.sessions == s0.sessions + [SessionRow(newId, SessionName(None, t), t)];
    reply, answer := Turn(adapter, cls, request, newId, store, services, ticks, s0.messages, t);
  }

  /**
   * The turn once the session is known: the prompt is stored as a user row,
   * the provider answers from the session's messages, which now end with
   * that row, and on success its response is stored as an assistant row; a
   * provider that raises gives a 500.
   */
  predicate TurnStored(answer: Result<ProviderResult, string>, id: string, prompt: string,
                       before: seq<MessageRow>, t: Instant, ticks: Ticks,
                       reply: Reply<Value>, after: seq<MessageRow>, clock: Instant)
  {
    var user := MessageRow(id, "user", prompt, Later(t, ticks.user));
    match answer
    case Failure(e) =>
      reply == HttpError(500, e) && after == before + [user] && clock == Later(t, ticks.user)
    case Success(r) =>
      reply == Ok(TurnBody(id, r))
      && after == before + [user, MessageRow(id, "assistant", r.response, Later(Later(t, ticks.user), ticks.reply))]
      && clock == Later(Later(t, ticks.user), ticks.reply)
  }

  /** The session's messages once the prompt is stored: the ones before it, then the prompt. */
  function TurnHistory(before: seq<MessageRow>, id: string, prompt: string, at: Instant): seq<ChatMessage> {
    ToMessages(MessagesOf(before, id) + [MessageRow(id, "user", prompt, at)])
  }

  /** The turn in a known session of a store that is up, from messages `before` at clock `t`. */
  method Turn(adapter: Adapter, ghost cls: ProviderClass, request: GenerateRequest, sessionId: string,
              store: SessionStore, services: Services, ticks: Ticks, ghost before: seq<MessageRow>, ghost t: Instant)
    returns (reply: Reply<Value>, ghost answer: Result<ProviderResult, string>)
    requires store.Valid() && store.online && store.messages == before && store.clock == t && ClassOf(adapter) == cls
    modifies store
    ensures store.Valid() && store.online && store.sessions == old(store.sessions)
    ensures answer == ProviderAnswer(cls, request,
                                     TurnHistory(before, sessionId, request.prompt, Later(t, ticks.user)), services)
    ensures TurnStored(answer, sessionId, request.prompt, before, t, ticks, reply, store.messages, store.clock)
  {
    ghost var at := Later(t, ticks.user);
    var user := store.AddMessage(sessionId, "user", request.prompt, ticks.user);
    assert store.clock == at;
    ghost var row := MessageRow(sessionId, "user", request.prompt, at);
    AppendedMessage(before, row, sessionId);
    var messages := store.GetMessages(sessionId);
    assert messages == TurnHistory(before, sessionId, request.prompt, at);
    var result := Ask(adapter, cls, request, messages, services);
    answer := result;
    if result.Failure? {
      return HttpError(500, result.error), answer;
    }
    var stored := store.AddMessage(sessionId, "assistant", result.value.response, ticks.reply);
    assert store.clock == Later(at, ticks.reply);
    reply := Ok(TurnBody(sessionId, result.value));
  }

  /** `provider.generate_response(...)` with the turn's settings; Groq ignores top_k. */
  method Ask(adapter: Adapter, ghost cls: ProviderClass, request: GenerateRequest, messages: seq<ChatMessage>,
             services: Services)
    returns (answer: Result<ProviderResult, string>)
    requires ClassOf(adapter) == cls
    ensures answer == ProviderAnswer(cls, request, messages, services)
  {
    match adapter {
      case GroqAdapter(q) =>
        var sent, r := q.GenerateResponse(request.prompt, messages, request.model, request.temperature,
                                          request.topP, request.topK, services.groqTemplate, services.db,
                                          services.create);
        answer := Success(r);
      case GeminiAdapter(g) =>
        var sent, r := g.GenerateResponse(request.prompt, messages, request.model, request.temperature,
                                          request.topP, request.topK, services.geminiTemplate, services.db,
                                          services.generate);
        answer := r;
    }
  }

  // ---------------------------------------------------------------------------
  // The session endpoints

  /** `POST /sessions`: a store failure escapes the endpoint. */
  method CreateSession(request: ChatSessionRequest, store: SessionStore, newId: string, elapsed: nat)
    returns (reply: Reply<ChatSession>)
    requires store.Valid()
    modifies store
    ensures store.Valid() && store.online == old(store.online)
    ensures store.clock == old(store.clock) + elapsed && store.messages == old(store.messages)
    ensures !store.online ==> reply == Unhandled(Unavailable) && store.sessions == old(store.sessions)
    ensures store.online && newId in Ids(old(store.sessions)) ==>
              reply == Unhandled(DuplicateId(newId)) && store.sessions == old(store.sessions)
    ensures store.online && newId !in Ids(old(store.sessions)) ==>
              reply == Ok(ChatSession(newId, store.clock, Some(SessionName(request.name, store.clock)), []))
              && store.sessions == old(store.sessions) + [SessionRow(newId, SessionName(request.name, store.clock), store.clock)]
  {
    var created := store.CreateSession(request.name, newId, elapsed);
    reply := if created.Success? then Ok(created.value) else Unhandled(created.error);
  }

  /** `GET /sessions/{id}` */
  function GetSession(store: SessionStore, id: string): (reply: Reply<ChatSession>)
    reads store
    ensures reply.Ok? || reply == HttpError(404, SessionNotFound)
    ensures reply.Ok? <==> store.online && id in Ids(store.sessions)
    ensures reply.Ok? ==> reply.body.id == id && reply.body.messages == store.GetMessages(id)
                          && exists row :: row in store.sessions && row.id == id
                                           && reply.body.name == Some(row.name) && reply.body.createdAt == row.createdAt
  {
    match store.GetSession(id)
    case None => HttpError(404, SessionNotFound)
    case Some(s) => Ok(s)
  }

  const Deleted: Value := Dict([("success", Bool(true)), ("message", Str("Session deleted"))])

  /** `DELETE /sessions/{id}`: 404 exactly when the store deleted no session row. */
  method DeleteSession(store: SessionStore, id: string) returns (reply: Reply<Value>)
    requires store.Valid()
    modifies store
    ensures store.Valid() && store.online == old(store.online) && store.clock == old(store.clock)
    ensures reply.Ok? <==> old(store.online) && id in Ids(old(store.sessions))
    ensures reply == if reply.Ok? then Ok(Deleted) else HttpError(404, SessionNotFound)
    ensures store.online ==> store.messages == WithoutMessagesOf(old(store.messages), id)
                             && store.sessions == WithoutSession(old(store.sessions), id)
    ensures !store.online ==> store.messages == old(store.messages) && store.sessions == old(store.sessions)
    ensures GetSession(store, id) == HttpError(404, SessionNotFound) && store.GetMessages(id) == []
  {
    var deleted := store.DeleteSession(id);
    reply := if deleted then Ok(Deleted) else HttpError(404, SessionNotFound);
  }

  /** `GET /sessions` */
  method ListSessions(store: SessionStore) returns (reply: Reply<seq<ChatSession>>)
    ensures reply.Ok?
    ensures !store.online ==> reply.body == []
    ensures store.online ==> |reply.body| == |store.sessions|
                             && forall i :: 0 <= i < |store.sessions| ==>
                                  reply.body[i].id == store.sessions[i].id
                                  && reply.body[i].messages == store.GetMessages(store.sessions[i].id)
  {
    var sessions := store.ListSessions();
    reply := Ok(sessions);
  }

  /** `GET /sessions/{id}/messages`: the messages of a stored session, oldest first. */
  function GetMessages(store: SessionStore, id: string): (reply: Reply<seq<ChatMessage>>)
    reads store
    ensures reply.Ok? || reply == HttpError(404, SessionNotFound)
    ensures reply.Ok? <==> store.online && id in Ids(store.sessions)
    ensures reply.Ok? ==> reply.body == store.GetMessages(id)
  {
    match store.GetSession(id)
    case None => HttpError(404, SessionNotFound)
    case Some(s) => Ok(s.messages)
  }

  /** The messages endpoint lists them in timestamp order. */
  lemma MessagesInOrder(store: SessionStore, id: string)
    requires store.Valid()
    ensures var reply := GetMessages(store, id);
            reply.Ok? ==> forall i, j :: 0 <= i < j < |reply.body| ==> reply.body[i].timestamp <= reply.body[j].timestamp
  {
    GetMessagesOrdered(store, id);
  }

  // ---------------------------------------------------------------------------
  // GET /providers

  /** The model list a provider class offers. */
  function ClassModels(cls: ProviderClass): seq<string> {
    match cls
    case GeminiClass => Gemini.GeminiModels
    case GroqClass => Groq.GroqModels
  }

  function ModelsOf(adapter: Adapter): (models: seq<string>)
    ensures models == ClassModels(ClassOf(adapter))
  {
    match adapter
    case GeminiAdapter(g) => g.GetAvailableModels()
    case GroqAdapter(q) => q.GetAvailableModels()
  }

  /**
   * `get_available_providers`: each available name, in order, with the model
   * list of its class. Every lookup re-initialises the factory, which lists
   * no further name.
   */
  method GetAvailableProviders(factory: ProviderFactory, env: map<string, string>)
    returns (available: seq<(string, seq<string>)>)
    requires factory.Valid()
    modifies factory
    ensures factory.Reinitialized(env)
    ensures |available| == |factory.names|
    ensures forall i :: 0 <= i < |available| ==>
              available[i] == (factory.names[i], ClassModels(ClassNamed(factory.names[i])))
  {
    var providers := factory.GetAvailableProviders(env);
    ghost var listed := factory.names;
    AddNamesKeeps(old(factory.names), Configured(env, ProviderClasses));
    available := [];
    for k := 0 to |providers|
      invariant factory.Reinitialized(env) && factory.names == listed == providers
      invariant forall n :: n in Configured(env, ProviderClasses) ==> n in listed
      invariant |available| == k
      invariant forall i :: 0 <= i < k ==> available[i] == (listed[i], ClassModels(ClassNamed(listed[i])))
    {
      var provider := factory.GetProvider(providers[k], env);
      AddNamesPresent(listed, Configured(env, ProviderClasses));
      available := available + if provider.Some? then [(providers[k], ModelsOf(provider.value))] else [];
    }
  }
}
