/**
 * The synchronous client `XiocaAPI` and its handlers (src/XiocaAPI/__init__.py:42-53,
 * :68-96). The session is made at construction; its headers carry the key.
 * The reply to each request is a parameter.
 */
module SyncClient {
  import opened Wrappers
  import opened Json
  import Http
  import opened Errors
  import opened Url
  import opened Auth
  import opened Payload

  class Client {
    var apiKey: string
    var baseUrl: string
    var sessionHeaders: map<string, string>
    var chat: ChatHandler?
    var images: ImageHandler?

    /** A constructed client: a non-empty key, its headers on the session, and handlers bound to it. */
    ghost predicate Valid()
      reads this
    {
      apiKey != "" && sessionHeaders == AuthHeaders(apiKey) &&
      chat != null && chat.client == this &&
      images != null && images.client == this
    }

    /** `__init__` once the key is resolved. */
    constructor (key: string, baseUrl: string)
      requires key != ""
      ensures Valid() && apiKey == key && this.baseUrl == baseUrl
      ensures fresh(chat) && fresh(images)
    {
      apiKey := key;
      this.baseUrl := baseUrl;
      sessionHeaders := AuthHeaders(key);
      chat := null;
      images := null;
      new;
      chat := new ChatHandler(this);
      images := new ImageHandler(this);
    }

    /** `_request`: the request sent over the session, and what the outcome is turned into. */
    method Request(verb: string, endpoint: string, body: Dict, outcome: Http.Outcome)
      returns (sent: Http.Request, r: Result<Value, ApiError>)
      requires Valid()
      ensures sent == Http.Request(verb, Join(baseUrl, endpoint), AuthHeaders(apiKey), body)
      ensures r == SettleSync(outcome)
    {
      var url := Join(baseUrl, endpoint);
      sent := Http.Request(verb, url, sessionHeaders, body);
      r := SettleSync(outcome);
    }
  }

  /**
   * `XiocaAPI(api_key=..., base_url=...)` with `env` the value of `XIOCA_API_KEY`:
   * fails with an authentication error exactly when no usable key is found.
   */
  method NewClient(apiKey: Option<string>, env: Option<string>, baseUrl: string)
    returns (r: Result<Client, ApiError>)
    ensures r.Failure? <==> ResolveKey(apiKey, env).Failure?
    ensures r.Failure? ==> r.error == MissingKey
    ensures r.Success? ==> fresh(r.value) && r.value.Valid()
    ensures r.Success? ==> r.value.apiKey == ResolveKey(apiKey, env).value && r.value.baseUrl == baseUrl
  {
    var key := ResolveKey(apiKey, env);
    if key.Failure? {
      return Failure(key.error);
    }
    var c := new Client(key.value, baseUrl);
    return Success(c);
  }

  /** `ChatHandler`: posts a conversation to the `ai` endpoint of its client. */
  class ChatHandler {
    const client: Client

    constructor (client: Client)
      ensures this.client == client
    {
      this.client := client;
    }

    method Create(model: string, messages: seq<Value>, options: Dict, outcome: Http.Outcome)
      returns (sent: Http.Request, r: Result<Value, ApiError>)
      requires client.Valid()
      requires UniqueKeys(options) && "model" !in Keys(options) && "messages" !in Keys(options)
      ensures sent.verb == "post" && sent.url == Join(client.baseUrl, ChatEndpoint)
      ensures sent.headers == AuthHeaders(client.apiKey)
      ensures sent.body == [("model", Str(model)), ("messages", Array(messages))] + options
      ensures r == SettleSync(outcome)
    {
      var body := ChatPayload(model, messages, options);
      sent, r := client.Request("post", ChatEndpoint, body, outcome);
    }
  }

  /** `ImageHandler`: posts a one-message conversation built from a prompt. */
  class ImageHandler {
    const client: Client

    constructor (client: Client)
      ensures this.client == client
    {
      this.client := client;
    }

    method Generate(model: string, prompt: string, options: Dict, outcome: Http.Outcome)
      returns (sent: Http.Request, r: Result<Value, ApiError>)
      requires client.Valid()
      requires UniqueKeys(options) && "model" !in Keys(options)
      ensures sent.verb == "post" && sent.url == Join(client.baseUrl, ChatEndpoint)
      ensures sent.headers == AuthHeaders(client.apiKey)
      ensures sent.body == ImagePayload(model, prompt, options)
      ensures r == SettleSync(outcome)
    {
      var body := ImagePayload(model, prompt, options);
      sent, r := client.Request("post", ChatEndpoint, body, outcome);
    }
  }
}
