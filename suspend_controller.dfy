// The HTTP routes over the suspend engine,
// packages/backend/src/ssh-suspend/ssh-suspend.controller.ts. Each handler is
// a guard chain from the session's user, the route parameter, the body and
// the engine's outcome to one reply; the engine's outcome is an argument,
// and a handler whose guards refuse the request does not look at it.
module SuspendController {
  import opened Wrappers
  import opened WsTypes

  datatype Body =
    | Message(message: string)
    | Failure(message: string, error: string)
    | Sessions(sessions: seq<SuspendedSessionInfo>)
    | Renamed(message: string, customName: string)

  datatype Reply = Reply(status: int, body: Body)

  const UNAUTHORIZED := Reply(401, Message("Unauthorized. User ID not found in session."))
  const MISSING_ID := Reply(400, Message("Bad Request. suspendSessionId parameter is missing."))
  const BAD_NAME := Reply(400, Message("Bad Request. customName must be a string and is missing or invalid."))

  /** `!suspendSessionId`: the parameter is absent or empty. */
  predicate Missing(param: Option<string>)
  {
    param.None? || param.value == ""
  }

  /** The 500 reply: an `Error`'s message, or 'Unknown error'. */
  function ServerError(message: string, thrown: Option<string>): (r: Reply)
    ensures r.status == 500 && r.body.Failure? && r.body.message == message
  {
    Reply(500, Failure(message, if thrown.Some? then thrown.value else "Unknown error"))
  }

  /** Whether a request gets past the guards to the engine (handlers taking a suspend id). */
  predicate ReachesEngine(userId: Option<int>, suspendSessionId: Option<string>)
  {
    !NoUser(userId) && !Missing(suspendSessionId)
  }

  /** getSuspendedSshSessions (ssh-suspend.controller.ts:17-38). */
  function ListSessions(userId: Option<int>, outcome: Outcome<seq<SuspendedSessionInfo>>): (r: Reply)
    ensures NoUser(userId) ==> r == UNAUTHORIZED
    ensures !NoUser(userId) && outcome.Returned? ==> r == Reply(200, Sessions(outcome.value))
    ensures !NoUser(userId) && outcome.Threw? ==> r.status == 500
  {
    if NoUser(userId) then UNAUTHORIZED
    else match outcome
      case Returned(sessions) => Reply(200, Sessions(sessions))
      case Threw(m) => ServerError("Failed to fetch suspended SSH sessions", m)
  }

  /**
   * The reply of a handler that reports the engine's boolean: 200 for true,
   * 404 for false, 500 when the engine threw.
   */
  function BooleanReply(outcome: Outcome<bool>, ok: string, notFound: string, failed: string): (r: Reply)
    ensures r.status == (if outcome.Threw? then 500 else if outcome.value then 200 else 404)
  {
    match outcome
    case Returned(true) => Reply(200, Message(ok))
    case Returned(false) => Reply(404, Message(notFound))
    case Threw(m) => ServerError(failed, m)
  }

  /** terminateAndRemoveSession (ssh-suspend.controller.ts:40-73). */
  function TerminateSession(userId: Option<int>, suspendSessionId: Option<string>, outcome: Outcome<bool>): (r: Reply)
    ensures NoUser(userId) ==> r == UNAUTHORIZED
    ensures !NoUser(userId) && Missing(suspendSessionId) ==> r == MISSING_ID
    ensures ReachesEngine(userId, suspendSessionId) ==>
      r.status == (if outcome.Threw? then 500 else if outcome.value then 200 else 404)
  {
    if NoUser(userId) then UNAUTHORIZED
    else if Missing(suspendSessionId) then MISSING_ID
    else
      var id := suspendSessionId.value;
      BooleanReply(outcome,
        "Suspended session " + id + " terminated and removed successfully.",
        "Failed to terminate and remove session " + id + ". It might not exist or not be in a 'hanging' state.",
        "Failed to terminate suspended session")
  }

  /** removeSessionEntry (ssh-suspend.controller.ts:75-107). */
  function RemoveSessionEntry(userId: Option<int>, suspendSessionId: Option<string>, outcome: Outcome<bool>): (r: Reply)
    ensures NoUser(userId) ==> r == UNAUTHORIZED
    ensures !NoUser(userId) && Missing(suspendSessionId) ==> r == MISSING_ID
    ensures ReachesEngine(userId, suspendSessionId) ==>
      r.status == (if outcome.Threw? then 500 else if outcome.value then 200 else 404)
  {
    if NoUser(userId) then UNAUTHORIZED
    else if Missing(suspendSessionId) then MISSING_ID
    else
      var id := suspendSessionId.value;
      BooleanReply(outcome,
        "Suspended session entry " + id + " removed successfully.",
        "Failed to remove session entry " + id + ". It might not exist or was still 'hanging'.",
        "Failed to remove suspended session entry")
  }

  /**
   * editSessionNameHttp (ssh-suspend.controller.ts:109-145); `customName`
   * is `None` when the body's field is not a string.
   */
  function EditSessionName(userId: Option<int>, suspendSessionId: Option<string>, customName: Option<string>,
                           outcome: Outcome<bool>): (r: Reply)
    ensures NoUser(userId) ==> r == UNAUTHORIZED
    ensures !NoUser(userId) && Missing(suspendSessionId) ==> r == MISSING_ID
    ensures ReachesEngine(userId, suspendSessionId) && customName.None? ==> r == BAD_NAME
    ensures ReachesEngine(userId, suspendSessionId) && customName.Some? ==>
      r.status == (if outcome.Threw? then 500 else if outcome.value then 200 else 404)
    ensures r.status == 200 <==> r.body.Renamed?
    ensures r.body.Renamed? ==> customName.Some? && r.body.customName == customName.value
  {
    if NoUser(userId) then UNAUTHORIZED
    else if Missing(suspendSessionId) then MISSING_ID
    else if customName.None? then BAD_NAME
    else
      var id := suspendSessionId.value;
      var name := customName.value;
      match outcome
      case Returned(true) => Reply(200, Renamed("Suspended session " + id + " name updated to \"" + name + "\".", name))
      case Returned(false) => Reply(404, Message("Failed to update name for session " + id + ". It might not exist."))
      case Threw(m) => ServerError("Failed to edit suspended session name", m)
  }

  /** A refused request's reply does not depend on the engine: the engine is not called. */
  lemma RefusedRequestsIgnoreEngine(userId: Option<int>, suspendSessionId: Option<string>, customName: Option<string>,
                                    a: Outcome<bool>, b: Outcome<bool>)
    ensures !ReachesEngine(userId, suspendSessionId) ==>
      && TerminateSession(userId, suspendSessionId, a) == TerminateSession(userId, suspendSessionId, b)
      && RemoveSessionEntry(userId, suspendSessionId, a) == RemoveSessionEntry(userId, suspendSessionId, b)
    ensures !ReachesEngine(userId, suspendSessionId) || customName.None? ==>
      EditSessionName(userId, suspendSessionId, customName, a) == EditSessionName(userId, suspendSessionId, customName, b)
  {
  }

  /** The 401 check comes first: without a user nothing else is looked at. */
  lemma UnauthorizedFirst(suspendSessionId: Option<string>, customName: Option<string>, o: Outcome<bool>,
                          sessions: Outcome<seq<SuspendedSessionInfo>>)
    ensures ListSessions(None, sessions).status == 401
    ensures TerminateSession(None, suspendSessionId, o).status == 401
    ensures RemoveSessionEntry(None, suspendSessionId, o).status == 401
    ensures EditSessionName(None, suspendSessionId, customName, o).status == 401
  {
  }
}
