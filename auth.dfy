/**
 * Credentials (src/XiocaAPI/__init__.py:73-78 and :103-113): which API key a
 * client ends up with, and the headers every request carries. The process
 * environment is a parameter: the value of `XIOCA_API_KEY`, if set.
 */
module Auth {
  import opened Wrappers
  import opened Errors

  const BearerPrefix: string := "Bearer "

  /**
   * An explicit key is kept as given; only a missing one (`None`) falls back to
   * the environment; an empty or missing result is refused.
   */
  function ResolveKey(explicit: Option<string>, env: Option<string>): (r: Result<string, ApiError>)
    ensures r.Success? <==> if explicit.Some? then explicit.value != "" else env.Some? && env.value != ""
    ensures r.Success? && explicit.Some? ==> r.value == explicit.value
    ensures r.Success? && explicit.None? ==> env.Some? && r.value == env.value
    ensures r.Success? ==> r.value != ""
    ensures r.Failure? ==> r.error == MissingKey && Kind(r.error) == AuthenticationError
  {
    var key := if explicit.None? then env else explicit;
    if key.None? || key.value == "" then Failure(MissingKey) else Success(key.value)
  }

  /** The environment is not consulted when a key is passed, even an empty one. */
  lemma ExplicitKeyIgnoresEnvironment(key: string, env1: Option<string>, env2: Option<string>)
    ensures ResolveKey(Some(key), env1) == ResolveKey(Some(key), env2)
    ensures key == "" ==> ResolveKey(Some(key), env1) == Failure(MissingKey)
  {
  }

  /** The token carried by an `Authorization: Bearer <token>` header, if there is one. */
  function BearerToken(headers: map<string, string>): Option<string>
  {
    if "Authorization" in headers && BearerPrefix <= headers["Authorization"]
    then Some(headers["Authorization"][|BearerPrefix|..])
    else None
  }

  /** The session headers: a bearer authorization carrying the key and a JSON content type, nothing else. */
  function AuthHeaders(key: string): (h: map<string, string>)
    ensures h.Keys == {"Authorization", "Content-Type"}
    ensures h["Content-Type"] == "application/json"
    ensures BearerToken(h) == Some(key)
  {
    map["Authorization" := BearerPrefix + key, "Content-Type" := "application/json"]
  }

  /** Different keys give different headers: the key can be read back from them. */
  lemma HeadersDetermineKey(key1: string, key2: string)
    requires AuthHeaders(key1) == AuthHeaders(key2)
    ensures key1 == key2
  {
    assert BearerToken(AuthHeaders(key1)) == Some(key1);
  }
}
