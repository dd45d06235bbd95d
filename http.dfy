/**
 * What a Flask handler sends back, and the `login_required` gate that runs
 * before every protected handler.
 */
module Http {
  import opened Runtime

  /** Why a handler refused, each with the status code and message the handler uses. */
  datatype Reason =
    | AuthenticationRequired
    | InvalidCredentials
    | ModelNotLoaded
    | PredictionError(cause: Cause)
    | CannotPredictTaskType
    | NoLogsFound
    | NoMachinesAvailable
    | NoOperatorsOrMachines
    | Unhandled(cause: Cause)   // an exception Flask turns into a 500 page

  datatype Reply<+T> = Ok(code: int, body: T) | Err(code: int, reason: Reason)

  /** The `message` (or `error`) text of a refusal, for the refusals that carry a fixed one. */
  function Message(r: Reason): string {
    match r
    case AuthenticationRequired => "Authentication required"
    case InvalidCredentials => "Invalid credentials"
    case ModelNotLoaded => "Model not loaded"
    case PredictionError(_) => "Prediction error: "
    case CannotPredictTaskType => "Cannot predict for this task type."
    case NoLogsFound => "No logs found"
    case NoMachinesAvailable => "No machines available in the system."
    case NoOperatorsOrMachines => "No operators or machines available to assign."
    case Unhandled(_) => "Internal Server Error"
  }

  /** What `login_required` lets through, or what it answers instead. */
  datatype Gate = Proceed(userId: string) | Refuse(reply: Reply<bool>) | RedirectToLogin

  /**
   * `login_required`: a request whose session holds a user id goes on to
   * the handler with that user; any other request gets 401 when its path
   * starts with "/api/" and a redirect to the login page otherwise.
   */
  function LoginRequired(sessionUser: Option<string>, path: string): (g: Gate)
    ensures g.Proceed? <==> sessionUser.Some?
    ensures g.Proceed? ==> g.userId == sessionUser.value
    ensures g.Refuse? <==> sessionUser.None? && "/api/" <= path
    ensures g.Refuse? ==> g.reply == Err(401, AuthenticationRequired)
  {
    match sessionUser
    case Some(u) => Proceed(u)
    case None => if "/api/" <= path then Refuse(Err(401, AuthenticationRequired)) else RedirectToLogin
  }
}
