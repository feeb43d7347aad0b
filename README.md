# XiocaAPI client: a verified model of its decision layer

XiocaAPI is a small Python client for one chat/image-generation endpoint
(`POST {base}/ai`). It has a synchronous client (`XiocaAPI`) and an
asynchronous one (`AsyncXiocaAPI`), each with a chat handler and an image
handler. This project models in Dafny what the client itself decides before
and after the HTTP library does the actual I/O:

- **URL joining** (`url.dfy`): trailing `/` are stripped from the base URL and
  leading `/` from the endpoint, then the two are joined with exactly one `/`.
- **Error classification** (`errors.dfy`): the exception hierarchy, and how an
  HTTP error status or a transport failure becomes an exception. 401, 403 and
  404 have their own classes. Every other status raises the generic
  `APIError`. So does any other error of the HTTP library's own exception
  family (`requests.RequestException`, `aiohttp.ClientError`), such as a
  refused connection. The sync client's message detail is the reply body. The
  async client's detail is aiohttp's `message`, the reason phrase. For every
  outcome of that kind, both clients pick the same class.
- **Key resolution and headers** (`auth.dfy`): an explicit key is used as
  given, even when it is empty. Only a missing key (`None`) falls back to the
  `XIOCA_API_KEY` environment value, which is a parameter here. An empty or
  missing result raises `AuthenticationError`. Every session sends
  `Authorization: Bearer <key>` and `Content-Type: application/json`.
- **Request bodies** (`payload.dfy`, over the ordered dictionary of
  `json.dfy`): `{"model": ..., "messages": ..., **kwargs}` with Python's dict
  semantics. Key order is insertion order. A later assignment to an existing
  key updates it in place. The image handler builds one user message from
  the prompt, and a `messages` option replaces it.
- **Clients and the async session lifecycle** (`sync_client.dfy`,
  `async_client.dfy`): the clients and handlers are classes. The async client
  keeps its session in a field. It makes the session on first use and reuses
  it while it is open. `close` closes it and `__aexit__` always calls `close`.
  After a close, the next use makes a new session. The class is proved
  against a pure state machine (`Acquire`, `Release`) whose properties are
  lemmas.
- **Response schema** (`schema.dfy`): the data model of a successful reply as
  datatypes, with `role` as a three-value enumeration.

The reply to each request is a parameter of type `Http.Outcome`. It is a
decoded 2xx body, an error status with the body text and reason phrase, or
another error of the library's exception family.

Python binds keyword-only parameters before it collects `**kwargs`. So the chat
handler's extra options can never hold `model` or `messages`, and the image
handler's can never hold `model`. The payload functions state this as their
`requires`. They also require the options' keys to be distinct, which holds
for every Python dict.

Where the code behaves differently from what its error messages and
parameter names suggest, the model follows the code:

- The async client's 404 and generic errors carry aiohttp's `message`, the
  reason phrase, not the reply body (`__init__.py:127-128`).
- An explicit empty key fails even when the environment holds a key, because
  the environment is consulted only for `None` (`__init__.py:73-74`).
- Nothing in the code enforces strict schema validation or raises a
  `ValidationError` of the library's own. That is left to the validation
  library.

## Model

| member | source | states |
|---|---|---|
| `Json.Set` | src/XiocaAPI/__init__.py:44 | `d[k] = v` loses no entry and adds at most one |
| `Json.SetGet` | src/XiocaAPI/__init__.py:44 | after a dict assignment, the assigned key maps to the new value and every other key keeps its old value |
| `Json.SetKeys` | src/XiocaAPI/__init__.py:44 | a dict assignment keeps an existing key in its place and appends a new key at the end |
| `Json.SetFresh` | src/XiocaAPI/__init__.py:44 | assigning a key that is not yet present appends exactly that entry |
| `Json.SetUnique` | src/XiocaAPI/__init__.py:44 | assignment keeps keys distinct |
| `Json.Spread` | src/XiocaAPI/__init__.py:51 | `{**d, **e}` loses no entry of `d` and adds at most one entry per entry of `e` |
| `Json.SpreadGet` | src/XiocaAPI/__init__.py:51 | in `{**d, **e}` later keys win: a key of `e` takes its value from `e`, any other key keeps its value from `d` |
| `Json.SpreadKeys` | src/XiocaAPI/__init__.py:51 | `{**d, **e}` keeps the keys of `d` first and in order, and holds exactly the keys of `d` and `e` |
| `Json.SpreadUnique` | src/XiocaAPI/__init__.py:51 | spreading a dict into a dict gives a dict with distinct keys |
| `Json.SpreadDisjoint` | src/XiocaAPI/__init__.py:44 | when `d` and `e` share no key, `{**d, **e}` is `d` followed by `e` |
| `Json.Get` | src/XiocaAPI/__init__.py:44 | a lookup finds a value exactly when the key is among the dict's keys |
| `Json.GetFound` | src/XiocaAPI/__init__.py:44 | the value a lookup finds is one stored under the looked-up key |
| `Schema.ParseRole` | src/XiocaAPI/__init__.py:11 | exactly the three role literals are accepted, and the accepted role is spelt as the input |
| `Schema.RoleRoundTrip` | src/XiocaAPI/__init__.py:11 | every role survives being written out and read back |
| `Errors.IsA` | src/XiocaAPI/__init__.py:33-36 | a class is a subclass only of itself and of `APIError` |
| `Errors.Kind` | src/XiocaAPI/__init__.py:33-36 | every raised error is an `APIError`; it is an `AuthenticationError` exactly for a missing key or a 401 |
| `Errors.Classify` | src/XiocaAPI/__init__.py:88-94 | 401, 403 and 404 give `AuthenticationError`, `PermissionError` and `NotFoundError`, each if and only if; every other status gives generic `APIError` with the status; 404 and other statuses carry the detail |
| `Errors.SettleSync` | src/XiocaAPI/__init__.py:84-96 | the sync client returns the decoded body exactly on success; an error status is classified with the body text as detail; any other library error becomes a connection error of generic class `APIError` carrying its description |
| `Errors.SettleAsync` | src/XiocaAPI/__init__.py:120-130 | the async client does the same, with the reason phrase as detail |
| `Errors.EveryKindIsAPIError` | src/XiocaAPI/__init__.py:33-36 | every exception class of the library is a subclass of `APIError` |
| `Errors.SubkindsUnrelated` | src/XiocaAPI/__init__.py:34-36 | a class is a proper subclass of another exactly when the other is `APIError` |
| `Errors.ClientsAgree` | src/XiocaAPI/__init__.py:124-130 | the two clients agree on success, on the body and on the class of every error; for statuses other than 401 and 403 their errors differ when body text and reason phrase differ |
| `Url.TrimTrailingSlashes` | src/XiocaAPI/__init__.py:83 | `rstrip('/')` leaves a prefix of the input that does not end in `/`, followed in the input only by slashes |
| `Url.TrimLeadingSlashes` | src/XiocaAPI/__init__.py:83 | `lstrip('/')` leaves a suffix of the input that does not start with `/`, preceded in the input only by slashes |
| `Url.TrimTrailingExact` | src/XiocaAPI/__init__.py:83 | a core not ending in `/` followed by slashes trims back to exactly that core |
| `Url.TrimLeadingExact` | src/XiocaAPI/__init__.py:83 | slashes followed by a core not starting with `/` trim back to exactly that core |
| `Url.JoinExact` | src/XiocaAPI/__init__.py:83 | the URL is the base's core, one `/`, and the endpoint's core, whatever slashes stood at the joint |
| `Url.Join` | src/XiocaAPI/__init__.py:83 | the URL begins with a prefix of the base and ends with a suffix of the endpoint (the parts the strips leave), and the inserted `/` has no `/` directly before or after it |
| `Url.TrimTrailingAbsorbs` | src/XiocaAPI/__init__.py:83 | extra trailing slashes on the base do not change the stripped base |
| `Url.TrimLeadingAbsorbs` | src/XiocaAPI/__init__.py:119 | extra leading slashes on the endpoint do not change the stripped endpoint |
| `Url.JoinIgnoresExtraSlashes` | src/XiocaAPI/__init__.py:83 | adding or removing slashes at the end of the base or the start of the endpoint does not change the URL |
| `Url.DefaultEndpointUrl` | src/XiocaAPI/__init__.py:72 | the default base URL with endpoint `ai` gives `https://xioca.live/api/ai` |
| `Auth.ResolveKey` | src/XiocaAPI/__init__.py:73-74 | an explicit key is kept as given; the environment is used only when the key is `None`; construction fails with `AuthenticationError` exactly when the resulting key is missing or empty |
| `Auth.ExplicitKeyIgnoresEnvironment` | src/XiocaAPI/__init__.py:103-104 | with an explicit key the environment does not matter, and an explicit `""` fails even when the environment holds a key |
| `Auth.AuthHeaders` | src/XiocaAPI/__init__.py:78 | the headers are exactly `Authorization` and `Content-Type`, the content type is JSON, and the bearer token read back is the key |
| `Auth.HeadersDetermineKey` | src/XiocaAPI/__init__.py:113 | different keys give different headers |
| `Payload.ChatPayload` | src/XiocaAPI/__init__.py:44 | the chat body is `model`, `messages` unchanged, then every option in order, with distinct keys |
| `Payload.ImagePayload` | src/XiocaAPI/__init__.py:50-51 | the image body has distinct keys with `model` and `messages` first; without a `messages` option it is exactly `model`, the one user message built from the prompt, then every option in order |
| `Payload.UserMessage` | src/XiocaAPI/__init__.py:50 | the synthesized message has exactly the keys `role` and `content`, the role is the user role's wire name, and the content is the prompt |
| `Payload.ChatPayloadFields` | src/XiocaAPI/__init__.py:57 | the chat body maps `model` to the model, `messages` to the messages, and every other key to the option's value |
| `Payload.ImagePayloadFields` | src/XiocaAPI/__init__.py:63-64 | the image body maps `messages` to the one user message built from the prompt unless a `messages` option overrides it; every other key maps to the option's value |
| `Payload.ImageScenario` | src/XiocaAPI/__init__.py:50-51 | `generate(model="m1", prompt="draw a cat")` posts exactly `{"model":"m1","messages":[{"role":"user","content":"draw a cat"}]}` |
| `SyncClient.Client.constructor` | src/XiocaAPI/__init__.py:75-80 | the client keeps the key and base URL, its session carries the auth headers, and both handlers are bound to it |
| `SyncClient.Client.Request` | src/XiocaAPI/__init__.py:82-96 | the request goes to the joined URL with the session's auth headers and the given body; the result is the sync settlement of the outcome |
| `SyncClient.NewClient` | src/XiocaAPI/__init__.py:72-74 | construction fails with `AuthenticationError` exactly when key resolution fails, and otherwise yields a client with the resolved key |
| `SyncClient.ChatHandler.constructor` | src/XiocaAPI/__init__.py:39-40 | a handler holds a reference to its client |
| `SyncClient.ChatHandler.Create` | src/XiocaAPI/__init__.py:43-46 | chat posts `model`, `messages` and the options to `{base}/ai` with the client's headers |
| `SyncClient.ImageHandler.constructor` | src/XiocaAPI/__init__.py:39-40 | a handler holds a reference to its client |
| `SyncClient.ImageHandler.Generate` | src/XiocaAPI/__init__.py:49-53 | image generation posts the image body to `{base}/ai` with the client's headers |
| `AsyncClient.Acquire` | src/XiocaAPI/__init__.py:111-115 | afterwards the session is open; an open session is kept; otherwise a new one numbered `created + 1` is made |
| `AsyncClient.Release` | src/XiocaAPI/__init__.py:132-134 | afterwards no session is open; an open session becomes closed; anything else is unchanged |
| `AsyncClient.StepsKeepConsistent` | src/XiocaAPI/__init__.py:111-115 | getting and closing the session keep the slot holding the last session made |
| `AsyncClient.AcquireReuses` | src/XiocaAPI/__init__.py:112 | after `_get_session` the session is open; a second call with no close in between changes nothing |
| `AsyncClient.ReleaseSettles` | src/XiocaAPI/__init__.py:133 | `close` without an open session changes nothing; after `close` no session is open; closing twice is closing once |
| `AsyncClient.ReacquireAfterRelease` | src/XiocaAPI/__init__.py:112-114 | after `close`, the next `_get_session` makes a new session with a new number |
| `AsyncClient.Session.constructor` | src/XiocaAPI/__init__.py:114 | a new session holds the given headers and is open |
| `AsyncClient.Session.Close` | src/XiocaAPI/__init__.py:134 | closing a session marks it closed |
| `AsyncClient.AsyncClient.State` | src/XiocaAPI/__init__.py:107 | the session field read as a lifecycle state is always consistent with the creation count |
| `AsyncClient.AsyncClient.constructor` | src/XiocaAPI/__init__.py:105-109 | the client keeps the key and base URL, has no session, and binds both handlers |
| `AsyncClient.AsyncClient.GetSession` | src/XiocaAPI/__init__.py:111-115 | returns an open session with the auth headers; an open session is returned again and the count is unchanged; otherwise a fresh one is made |
| `AsyncClient.AsyncClient.Close` | src/XiocaAPI/__init__.py:132-134 | closes an open session and changes nothing otherwise |
| `AsyncClient.AsyncClient.Enter` | src/XiocaAPI/__init__.py:136-137 | entering the block yields the client itself |
| `AsyncClient.AsyncClient.Exit` | src/XiocaAPI/__init__.py:139-140 | leaving the block closes the session, so none is open afterwards |
| `AsyncClient.AsyncClient.Request` | src/XiocaAPI/__init__.py:117-130 | gets the session first, then sends to the joined URL with the auth headers; the result is the async settlement |
| `AsyncClient.NewAsyncClient` | src/XiocaAPI/__init__.py:102-104 | construction fails with `AuthenticationError` exactly when key resolution fails, and otherwise opens no session |
| `AsyncClient.SessionScenario` | src/XiocaAPI/__init__.py:111-140 | two uses share one session, leaving the `async with` block closes it, and the next use opens a new, open session |
| `AsyncClient.AsyncChatHandler.constructor` | src/XiocaAPI/__init__.py:39-40 | a handler holds a reference to its client |
| `AsyncClient.AsyncChatHandler.Create` | src/XiocaAPI/__init__.py:56-59 | as the sync chat handler, over the lazily made session; the client's key, base URL and handlers are unchanged |
| `AsyncClient.AsyncImageHandler.constructor` | src/XiocaAPI/__init__.py:39-40 | a handler holds a reference to its client |
| `AsyncClient.AsyncImageHandler.Generate` | src/XiocaAPI/__init__.py:62-66 | as the sync image handler, over the lazily made session; the client's key, base URL and handlers are unchanged |

## Left out

- HTTP dispatch, `raise_for_status` and JSON decoding (`__init__.py:85-87`, `:121-123`) are library I/O. Their combined result is the `Http.Outcome` parameter. Which statuses count as errors is decided by the library, so it is not modelled.
- A body that fails to decode as JSON is not modelled. In `requests` the decode error is a `RequestException` and becomes a connection error. In aiohttp, a wrong content type raises a `ContentTypeError`, a response error classified by status. A malformed body with a JSON content type raises `json.JSONDecodeError`, which the client does not catch. An empty body decodes to `None`.
- Errors.SettleAsync, Errors.ClientsAgree: exceptions outside the HTTP library's family are not modelled. They escape the client unclassified. One example is aiohttp's total timeout, an `asyncio.TimeoutError`, whereas the sync client wraps `requests.Timeout` as `APIError`. So the two clients agree on the class only for outcomes inside that family.
- `APIResponse.model_validate` (`:46`, `:53`, `:59`, `:66`) belongs to the validation library. The handlers return the decoded JSON body, and the schema is only declared. Its one literal constraint, the role, is modelled as `Schema.ParseRole`.
- The `XIOCA_API_KEY` lookup is a parameter, the optional environment value.
- Async suspension and concurrent first calls to `_get_session` are not modelled. Calls are taken one at a time.
- The Russian message strings are not modelled. Errors carry their class, plus the status and detail text where the message embeds them. Exception chaining (`from err`) is not modelled.
- The `requests` session's own default headers (user agent and others) are not modelled. Only the headers the client sets are.
- JSON numbers are kept as their literal text, so floating-point options are passed through without interpretation.
- `api_key` is a public attribute that a caller could reassign after construction. The class invariants assume it stays as constructed, so an async session opened before such a reassignment is not modelled.
