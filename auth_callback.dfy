/** The OAuth callback stub: a decision table over the `code`, `state` and `error` query
    parameters, and a `POST` that is not implemented. */
module AuthCallback {
  import opened Base

  datatype CallbackResponse =
    | AuthFailed(details: string)
    | AuthSucceeded(code: string, state: string)
    | MissingParameters
    | NotImplemented

  function Status(r: CallbackResponse): int
  {
    match r
    case AuthFailed(_) => 400
    case AuthSucceeded(_, _) => 200
    case MissingParameters => 400
    case NotImplemented => 200
  }

  /** A query parameter in a boolean context: absent and empty are false. */
  predicate Given(p: Option<string>)
  {
    p.Some? && p.value != ""
  }

  /** `GET`: an error parameter wins over everything; otherwise both `code` and `state`
      are needed, and the success response echoes them. */
  function Get(code: Option<string>, state: Option<string>, error: Option<string>): (r: CallbackResponse)
    ensures Given(error) <==> r.AuthFailed?
    ensures r.AuthFailed? ==> r.details == error.value
    ensures r.AuthSucceeded? <==> !Given(error) && Given(code) && Given(state)
    ensures r.AuthSucceeded? ==> r.code == code.value && r.state == state.value
    ensures r == MissingParameters <==> !Given(error) && !(Given(code) && Given(state))
    ensures Status(r) == 400 <==> !r.AuthSucceeded?
  {
    if Given(error) then AuthFailed(error.value)
    else if Given(code) && Given(state) then AuthSucceeded(code.value, state.value)
    else MissingParameters
  }

  /** `POST` answers the same for every request. */
  function Post(): (r: CallbackResponse)
    ensures r == NotImplemented && Status(r) == 200
  {
    NotImplemented
  }
}
