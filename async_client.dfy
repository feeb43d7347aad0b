/**
 * The asynchronous client `AsyncXiocaAPI` and its handlers
 * (src/XiocaAPI/__init__.py:55-66, :98-140). Its session is made on first use,
 * reused while open, and remade after it has been closed. Calls are taken one
 * at a time: suspension points and concurrent first calls are not modelled.
 */
module AsyncClient {
  import opened Wrappers
  import opened Json
  import Http
  import opened Errors
  import opened Url
  import opened Auth
  import opened Payload

  /** A transport session: the headers it was opened with, and whether it has been closed. */
  class Session {
    const id: nat
    const headers: map<string, string>
    var closed: bool

    constructor (id: nat, headers: map<string, string>)
      ensures this.id == id && this.headers == headers && !closed
    {
      this.id := id;
      this.headers := headers;
      closed := false;
    }

    method Close()
      modifies this
      ensures closed
    {
      closed := true;
    }
  }

  /** The abstract state of the client's session slot. */
  datatype SessionState = NoSession | Open(id: nat) | Closed(id: nat)

  /** The session slot together with the number of sessions made so far. */
  datatype Lifecycle = Lifecycle(state: SessionState, created: nat)

  /** The slot holds the session made last, and none before the first. */
  predicate Consistent(m: Lifecycle)
  {
    (m.state.NoSession? <==> m.created == 0) &&
    (!m.state.NoSession? ==> m.state.id == m.created)
  }

  /** `_get_session`: an open session is kept, otherwise a new one is made. */
  function Acquire(m: Lifecycle): (m': Lifecycle)
    ensures m'.state.Open?
    ensures m.state.Open? ==> m' == m
    ensures !m.state.Open? ==> m'.created == m.created + 1 && m'.state.id == m'.created
  {
    if m.state.Open? then m else Lifecycle(Open(m.created + 1), m.created + 1)
  }

  /** `close`: an open session is closed, anything else is left alone. */
  function Release(m: Lifecycle): (m': Lifecycle)
    ensures !m'.state.Open? && m'.created == m.created
    ensures m.state.Open? ==> m'.state == Closed(m.state.id)
    ensures !m.state.Open? ==> m' == m
  {
    if m.state.Open? then Lifecycle(Closed(m.state.id), m.created) else m
  }

  /** Both steps keep the slot consistent. */
  lemma StepsKeepConsistent(m: Lifecycle)
    requires Consistent(m)
    ensures Consistent(Acquire(m)) && Consistent(Release(m))
  {
  }

  /**
   * After `_get_session` the session is open; a second call with no `close` in
   * between returns the same session and makes none.
   */
  lemma AcquireReuses(m: Lifecycle)
    ensures Acquire(m).state.Open?
    ensures Acquire(Acquire(m)) == Acquire(m)
    ensures m.state.Open? ==> Acquire(m) == m
  {
  }

  /** `close` without an open session changes nothing, and after `close` no session is open. */
  lemma ReleaseSettles(m: Lifecycle)
    ensures !m.state.Open? ==> Release(m) == m
    ensures !Release(m).state.Open?
    ensures Release(Release(m)) == Release(m)
  {
  }

  /** After `close`, the next `_get_session` makes a new session, different from the closed one. */
  lemma ReacquireAfterRelease(m: Lifecycle)
    requires Consistent(m) && m.state.Open?
    ensures Acquire(Release(m)) == Lifecycle(Open(m.created + 1), m.created + 1)
    ensures Acquire(Release(m)).state.id != m.state.id
  {
  }

  class AsyncClient {
    var apiKey: string
    var baseUrl: string
    var session: Session?
    var sessionsCreated: nat
    var chat: AsyncChatHandler?
    var images: AsyncImageHandler?

    /** A constructed client: a non-empty key, handlers bound to it, and its last session carrying its headers. */
    ghost predicate Valid()
      reads this
    {
      apiKey != "" &&
      chat != null && chat.client == this &&
      images != null && images.client == this &&
      (session == null <==> sessionsCreated == 0) &&
      (session != null ==> session.id == sessionsCreated && session.headers == AuthHeaders(apiKey))
    }

    /** The session slot as a value of the lifecycle above. */
    ghost function State(): (m: Lifecycle)
      reads this, session
      requires Valid()
      ensures Consistent(m)
    {
      var state := if session == null then NoSession
                   else if session.closed then Closed(session.id)
                   else Open(session.id);
      Lifecycle(state, sessionsCreated)
    }

    /** `__init__` once the key is resolved: no session yet. */
    constructor (key: string, baseUrl: string)
      requires key != ""
      ensures Valid() && apiKey == key && this.baseUrl == baseUrl
      ensures State() == Lifecycle(NoSession, 0)
      ensures fresh(chat) && fresh(images)
    {
      apiKey := key;
      this.baseUrl := baseUrl;
      session := null;
      sessionsCreated := 0;
      chat := null;
      images := null;
      new;
      chat := new AsyncChatHandler(this);
      images := new AsyncImageHandler(this);
    }

    /** `_get_session`. */
    method GetSession() returns (s: Session)
      requires Valid()
      modifies this
      ensures Valid() && State() == Acquire(old(State()))
      ensures s == session && !s.closed && s.headers == AuthHeaders(apiKey)
      ensures old(session) != null && !old(session.closed) ==> s == old(session)
      ensures old(session) == null || old(session.closed) ==> fresh(s)
      ensures apiKey == old(apiKey) && baseUrl == old(baseUrl)
      ensures chat == old(chat) && images == old(images)
    {
      if session == null || session.closed {
        var headers := AuthHeaders(apiKey);
        sessionsCreated := sessionsCreated + 1;
        session := new Session(sessionsCreated, headers);
      }
      s := session;
    }

    /** `close`: closes the session if it is open. */
    method Close()
      requires Valid()
      modifies if session == null then {} else {session}
      ensures Valid() && State() == Release(old(State()))
      ensures session != null ==> session.closed
    {
      if session != null && !session.closed {
        session.Close();
      }
    }

    /** `__aenter__`. */
    method Enter() returns (c: AsyncClient)
      ensures c == this
    {
      c := this;
    }

    /** `__aexit__`: always closes, whatever ended the block. */
    method Exit()
      requires Valid()
      modifies if session == null then {} else {session}
      ensures Valid() && State() == Release(old(State()))
      ensures !State().state.Open?
    {
      Close();
    }

    /** `_request`: gets the session, then sends over it. */
    method Request(verb: string, endpoint: string, body: Dict, outcome: Http.Outcome)
      returns (sent: Http.Request, r: Result<Value, ApiError>)
      requires Valid()
      modifies this
      ensures Valid() && State() == Acquire(old(State()))
      ensures apiKey == old(apiKey) && baseUrl == old(baseUrl)
      ensures chat == old(chat) && images == old(images)
      ensures sent == Http.Request(verb, Join(baseUrl, endpoint), AuthHeaders(apiKey), body)
      ensures r == SettleAsync(outcome)
    {
      var s := GetSession();
      var url := Join(baseUrl, endpoint);
      sent := Http.Request(verb, url, s.headers, body);
      r := SettleAsync(outcome);
    }
  }

  /**
   * `AsyncXiocaAPI(api_key=..., base_url=...)` with `env` the value of
   * `XIOCA_API_KEY`: fails exactly when no usable key is found, and opens no session.
   */
  method NewAsyncClient(apiKey: Option<string>, env: Option<string>, baseUrl: string)
    returns (r: Result<AsyncClient, ApiError>)
    ensures r.Failure? <==> ResolveKey(apiKey, env).Failure?
    ensures r.Failure? ==> r.error == MissingKey
    ensures r.Success? ==> fresh(r.value) && r.value.Valid()
    ensures r.Success? ==> r.value.apiKey == ResolveKey(apiKey, env).value && r.value.baseUrl == baseUrl
    ensures r.Success? ==> r.value.session == null
  {
    var key := ResolveKey(apiKey, env);
    if key.Failure? {
      return Failure(key.error);
    }
    var c := new AsyncClient(key.value, baseUrl);
    return Success(c);
  }

  /** `AsyncChatHandler`. */
  class AsyncChatHandler {
    const client: AsyncClient

    constructor (client: AsyncClient)
      ensures this.client == client
    {
      this.client := client;
    }

    method Create(model: string, messages: seq<Value>, options: Dict, outcome: Http.Outcome)
      returns (sent: Http.Request, r: Result<Value, ApiError>)
      requires client.Valid()
      requires UniqueKeys(options) && "model" !in Keys(options) && "messages" !in Keys(options)
      modifies client
      ensures client.Valid() && client.State() == Acquire(old(client.State()))
      ensures client.apiKey == old(client.apiKey) && client.baseUrl == old(client.baseUrl)
      ensures client.chat == old(client.chat) && client.images == old(client.images)
      ensures sent.verb == "post" && sent.url == Join(client.baseUrl, ChatEndpoint)
      ensures sent.headers == AuthHeaders(client.apiKey)
      ensures sent.body == [("model", Str(model)), ("messages", Array(messages))] + options
      ensures r == SettleAsync(outcome)
    {
      var body := ChatPayload(model, messages, options);
      sent, r := client.Request("post", ChatEndpoint, body, outcome);
    }
  }

  /** `AsyncImageHandler`. */
  class AsyncImageHandler {
    const client: AsyncClient

    constructor (client: AsyncClient)
      ensures this.client == client
    {
      this.client := client;
    }

    method Generate(model: string, prompt: string, options: Dict, outcome: Http.Outcome)
      returns (sent: Http.Request, r: Result<Value, ApiError>)
      requires client.Valid()
      requires UniqueKeys(options) && "model" !in Keys(options)
      modifies client
      ensures client.Valid() && client.State() == Acquire(old(client.State()))
      ensures client.apiKey == old(client.apiKey) && client.baseUrl == old(client.baseUrl)
      ensures client.chat == old(client.chat) && client.images == old(client.images)
      ensures sent.verb == "post" && sent.url == Join(client.baseUrl, ChatEndpoint)
      ensures sent.headers == AuthHeaders(client.apiKey)
      ensures sent.body == ImagePayload(model, prompt, options)
      ensures r == SettleAsync(outcome)
    {
      var body := ImagePayload(model, prompt, options);
      sent, r := client.Request("post", ChatEndpoint, body, outcome);
    }
  }

  /**
   * A caller's view, from the contracts alone: two requests share one session,
   * leaving the `async with` block closes it, and the next request opens a new one.
   */
  method SessionScenario(key: string) returns (s1: Session, s2: Session, s3: Session)
    requires key != ""
    ensures s1 == s2 && s1.closed
    ensures s3 != s1 && !s3.closed && s3.id == s1.id + 1
  {
    var made := NewAsyncClient(Some(key), None, DefaultBaseUrl);
    var c := made.value;
    s1 := c.GetSession();
    s2 := c.GetSession();
    c.Exit();
    s3 := c.GetSession();
  }
}
