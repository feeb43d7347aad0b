/**
 * The response schema of src/XiocaAPI/__init__.py: the typed shape a successful
 * reply is validated into. Only the role literal is checked here; coercion of
 * the other fields belongs to the validation library and is not modelled.
 */
module Schema {
  import opened Wrappers

  /** `Literal["assistant", "user", "system"]`. */
  datatype Role = Assistant | User | System

  datatype ChatMessage = ChatMessage(role: Role, content: Option<string>, imageUrl: Option<string>)

  datatype Choice = Choice(index: int, message: ChatMessage, finishReason: Option<string>)

  datatype Usage = Usage(promptTokens: int, completionTokens: int, totalTokens: int)

  /** A missing `usage` (None) is distinct from a usage of zero tokens. */
  datatype APIResponse = APIResponse(
    id: string,
    object: string,
    created: int,
    model: string,
    choices: seq<Choice>,
    usage: Option<Usage>)

  /** The wire spelling of a role. */
  function RoleName(r: Role): string
  {
    match r
    case Assistant => "assistant"
    case User => "user"
    case System => "system"
  }

  /** Accepts exactly the three literals of the `role` field. */
  function ParseRole(s: string): (r: Option<Role>)
    ensures r.Some? <==> s in {"assistant", "user", "system"}
    ensures r.Some? ==> RoleName(r.value) == s
  {
    if s == "assistant" then Some(Assistant)
    else if s == "user" then Some(User)
    else if s == "system" then Some(System)
    else None
  }

  /** Every role survives being written out and read back. */
  lemma RoleRoundTrip(r: Role)
    ensures ParseRole(RoleName(r)) == Some(r)
  {
  }
}
