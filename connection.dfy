// The message handler of packages/backend/src/websocket/connection.ts, as far
// as the suspended-session protocol goes: the JSON guard, the SSH_SUSPEND_*
// cases of the switch, the socket's close/error cleanup and the fan-out of
// the engine's `sessionAutoTerminated` event to the user's open sockets.
//
// A request arrives already decoded (`None` when JSON.parse fails). The
// engine's log-store awaits are the only calls of the suspend cases that can
// raise; their outcomes during one request are a `LogStore` argument, and a
// raise happens at the await it names, after whatever the engine did before
// it. The remove-entry case catches its `deleteLog` failure inside the engine,
// and the list and rename cases await nothing that can raise; for these three
// a `failure` argument stands for a raise before any change, so that their
// catch branches are covered too. A suspend request without a payload throws
// at its first line, outside those catches, and reaches the listener's
// top-level catch.
module Gateway {
  import opened Wrappers
  import opened Strings
  import opened WsTypes
  import opened GatewayUtils
  import opened Heartbeat
  import opened SshSuspend

  /** The decoded `{ type, payload }` of a client message. */
  datatype Request =
    | SuspendStart(sessionId: string)
    | SuspendList
    | SuspendResume(suspendSessionId: string, newFrontendSessionId: string)
    | SuspendTerminate(suspendSessionId: string)
    | SuspendRemoveEntry(suspendSessionId: string)
    | SuspendEditName(suspendSessionId: string, customName: string)
    /** A type none of the switch's cases names. */
    | Unsupported(msgType: string)
    /**
     * An SSH_SUSPEND_START, _RESUME_REQUEST, _TERMINATE_REQUEST, _REMOVE_ENTRY
     * or _EDIT_NAME message whose payload is null or missing: destructuring
     * it throws a TypeError, with this message, before the case does
     * anything else.
     */
    | MissingPayload(errorMessage: string)

  /**
   * The outcome of each awaited log-store call during one request, `Some`
   * carrying the message of the error it raises: `ensureLogDirectoryExists`
   * in startSuspend, `readLog` in resumeSession, and `deleteLog` in
   * resumeSession, terminateSuspendedSession and
   * removeDisconnectedSessionEntry.
   */
  datatype LogStore = LogStore(ensureDirFailure: Option<string>, readLogFailure: Option<string>, deleteLogFailure: Option<string>)

  const INVALID_JSON := "无效的消息格式 (非 JSON)"
  const UNSUPPORTED_PREFIX := "不支持的消息类型: "
  const INTERNAL_ERROR_PREFIX := "处理消息时发生内部错误: "
  const AUTH_FAILED := "用户认证失败"
  const NO_ACTIVE_SESSION := "未找到活动的SSH会话"
  const UNKNOWN_CONNECTION := "未知连接"
  const START_FAILED := "启动挂起失败"
  const RESUME_IMPOSSIBLE := "无法恢复会话，或会话不存在/状态不正确。"
  const RESUME_FAILED := "恢复会话失败"
  const TERMINATE_FAILED := "终止会话失败"
  const REMOVE_FAILED := "移除条目失败"
  const EDIT_FAILED := "编辑名称失败"

  /** What `if (ws.readyState === WebSocket.OPEN) ws.send(...)` adds to the socket's output. */
  function IfOpen(open: bool, ms: seq<ServerMessage>): seq<ServerMessage>
  {
    if open then ms else []
  }

  /** `error.message || fallback`. */
  function MessageOr(message: string, fallback: string): string
  {
    if message == "" then fallback else message
  }

  /** `connectionName || '未知连接'`. */
  function NameOrUnknown(name: Option<string>): string
  {
    if name.None? || name.value == "" then UNKNOWN_CONNECTION else name.value
  }

  /** `String(dbConnectionId)`, the id being a number or NaN (written `None`). */
  function IdString(id: Option<int>): string
  {
    if id.None? then "NaN" else IntToString(id.value)
  }

  // ------------------------------------------------------------ the replies

  function ErrorReply(text: string): ServerMessage
  {
    ServerMessage(ERROR, Text(text))
  }

  function StartFailure(frontendSessionId: string, error: string): ServerMessage
  {
    ServerMessage(SSH_SUSPEND_STARTED_RESP, Started(frontendSessionId, "", false, Some(error)))
  }

  function StartSuccess(frontendSessionId: string, suspendSessionId: string): ServerMessage
  {
    ServerMessage(SSH_SUSPEND_STARTED, Started(frontendSessionId, suspendSessionId, true, None))
  }

  function ListReply(infos: seq<SuspendedSessionInfo>): ServerMessage
  {
    ServerMessage(SSH_SUSPEND_LIST_RESPONSE, SessionList(infos))
  }

  function ResumeFailure(suspendSessionId: string, newFrontendSessionId: string, error: string): ServerMessage
  {
    ServerMessage(SSH_SUSPEND_RESUMED_NOTIF, Resumed(suspendSessionId, newFrontendSessionId, false, Some(error)))
  }

  function ResumeReplies(suspendSessionId: string, newFrontendSessionId: string, logData: string): seq<ServerMessage>
  {
    [ServerMessage(SSH_OUTPUT_CACHED_CHUNK, CachedChunk(newFrontendSessionId, logData, true)),
     ServerMessage(SSH_SUSPEND_RESUMED, Resumed(suspendSessionId, newFrontendSessionId, true, None))]
  }

  function OutcomeReply(msgType: string, suspendSessionId: string, success: bool, error: Option<string>): ServerMessage
  {
    ServerMessage(msgType, Outcome(suspendSessionId, success, error))
  }

  function EditReply(suspendSessionId: string, success: bool, customName: string): ServerMessage
  {
    ServerMessage(SSH_SUSPEND_NAME_EDITED, NameEdited(suspendSessionId, success, if success then Some(customName) else None, None))
  }

  function EditFailure(suspendSessionId: string, error: string): ServerMessage
  {
    ServerMessage(SSH_SUSPEND_NAME_EDITED_RESP, NameEdited(suspendSessionId, false, None, Some(error)))
  }

  function AutoTerminatedNotice(e: AutoTerminatedEvent): ServerMessage
  {
    ServerMessage(SSH_SUSPEND_AUTO_TERMINATED, AutoTerminated(e.suspendSessionId, e.reason))
  }

  /** The name is echoed exactly when the rename succeeded (connection.ts:313). */
  lemma EditReplyEchoesOnSuccess(suspendSessionId: string, success: bool, customName: string)
    ensures EditReply(suspendSessionId, success, customName).payload.customName.Some? <==> success
    ensures success ==> EditReply(suspendSessionId, success, customName).payload.customName == Some(customName)
  {
  }

  /**
   * Why SSH_SUSPEND_START does not reach the engine, if it does not
   * (connection.ts:135-145): no user, or no registered session with both an
   * ssh client and a shell stream.
   */
  function StartRefusal(userId: Option<int>, state: Option<ClientState>): (r: Option<string>)
    ensures r.None? <==> !NoUser(userId) && state.Some? && state.value.sshClient.Some? && state.value.sshShellStream.Some?
    ensures NoUser(userId) ==> r == Some(AUTH_FAILED)
  {
    if NoUser(userId) then Some(AUTH_FAILED)
    else if state.None? || state.value.sshClient.None? || state.value.sshShellStream.None? then Some(NO_ACTIVE_SESSION)
    else None
  }

  /** The handles a state lends to the engine. */
  function HandlesIn(state: Option<ClientState>): set<object>
  {
    if state.None? then {}
    else
      (if state.value.sshClient.Some? then {state.value.sshClient.value} else {})
      + (if state.value.sshShellStream.Some? then {state.value.sshShellStream.value} else {})
  }

  function SocketSet(clients: seq<Socket>): set<Socket>
  {
    set ws | ws in clients
  }

  function SentLogs(clients: seq<Socket>): (r: seq<seq<ServerMessage>>)
    reads clients
    ensures |r| == |clients| && forall i :: 0 <= i < |clients| ==> r[i] == clients[i].sent
  {
    seq(|clients|, i reads clients requires 0 <= i < |clients| => clients[i].sent)
  }

  /** Whether the fan-out of an event reaches a socket (connection.ts:351). */
  predicate Notified(isOpen: bool, userId: Option<int>, e: AutoTerminatedEvent)
  {
    userId == Some(e.userId) && isOpen
  }

  /** The replies to SSH_SUSPEND_START (connection.ts:135-168). */
  function StartReplies(sid: string, userId: Option<int>, ensureDirFailure: Option<string>, counter: nat,
                        states: map<string, ClientState>): seq<ServerMessage>
  {
    var refusal := StartRefusal(userId, if sid in states then Some(states[sid]) else None);
    if refusal.Some? then [StartFailure(sid, refusal.value)]
    else if ensureDirFailure.Some? then [StartFailure(sid, MessageOr(ensureDirFailure.value, START_FAILED))]
    else [StartSuccess(sid, Uuid(counter))]
  }

  /** The replies to SSH_SUSPEND_LIST_REQUEST (connection.ts:172-187). */
  function ListReplies(userId: Option<int>, failure: Option<string>, sessions: Sessions): seq<ServerMessage>
    requires forall u | u in sessions :: sessions[u].Valid()
  {
    if NoUser(userId) || failure.Some? then [ListReply([])]
    else [ListReply(InfosOf(UserMap(sessions, userId.value)))]
  }

  /** The replies to SSH_SUSPEND_RESUME_REQUEST (connection.ts:193-257). */
  function ResumeRepliesTo(id: string, newId: string, userId: Option<int>, readLogFailure: Option<string>,
                           deleteLogFailure: Option<string>, sessions: Sessions, logs: map<string, string>): seq<ServerMessage>
  {
    if NoUser(userId) then [ResumeFailure(id, newId, AUTH_FAILED)]
    else
      var entry := UserMap(sessions, userId.value).Get(id);
      if entry.None? || entry.value.backendSshStatus != Hanging then [ResumeFailure(id, newId, RESUME_IMPOSSIBLE)]
      else if readLogFailure.Some? then [ResumeFailure(id, newId, MessageOr(readLogFailure.value, RESUME_FAILED))]
      else if deleteLogFailure.Some? then [ResumeFailure(id, newId, MessageOr(deleteLogFailure.value, RESUME_FAILED))]
      else ResumeReplies(id, newId, if id in logs then logs[id] else "")
  }

  /** The replies to SSH_SUSPEND_TERMINATE_REQUEST (connection.ts:263-278). */
  function TerminateReplies(id: string, userId: Option<int>, deleteLogFailure: Option<string>, sessions: Sessions): seq<ServerMessage>
  {
    if NoUser(userId) then [OutcomeReply(SSH_SUSPEND_TERMINATED_RESP, id, false, Some(AUTH_FAILED))]
    else
      var found := UserMap(sessions, userId.value).Get(id).Some?;
      if found && deleteLogFailure.Some?
      then [OutcomeReply(SSH_SUSPEND_TERMINATED_RESP, id, false, Some(MessageOr(deleteLogFailure.value, TERMINATE_FAILED)))]
      else [OutcomeReply(SSH_SUSPEND_TERMINATED, id, found, None)]
  }

  /** The replies to SSH_SUSPEND_REMOVE_ENTRY (connection.ts:284-299). */
  function RemoveEntryReplies(id: string, userId: Option<int>, failure: Option<string>, deleteLogFails: bool, sessions: Sessions): seq<ServerMessage>
  {
    if NoUser(userId) || failure.Some?
    then [OutcomeReply(SSH_SUSPEND_ENTRY_REMOVED_RESP, id, false,
            Some(if NoUser(userId) then AUTH_FAILED else MessageOr(failure.value, REMOVE_FAILED)))]
    else
      var entry := UserMap(sessions, userId.value).Get(id);
      var hanging := entry.Some? && entry.value.backendSshStatus == Hanging;
      [OutcomeReply(SSH_SUSPEND_ENTRY_REMOVED, id, !hanging && !deleteLogFails, None)]
  }

  /** The replies to SSH_SUSPEND_EDIT_NAME (connection.ts:304-319). */
  function EditNameReplies(id: string, name: string, userId: Option<int>, failure: Option<string>, sessions: Sessions): seq<ServerMessage>
  {
    if NoUser(userId) || failure.Some?
    then [EditFailure(id, if NoUser(userId) then AUTH_FAILED else MessageOr(failure.value, EDIT_FAILED))]
    else [EditReply(id, UserMap(sessions, userId.value).Get(id).Some?, name)]
  }

  /**
   * The replies one message gets (connection.ts:57-330), computed from the
   * engine's map, its log store, its uuid counter and the registry as they
   * were before the message: each request is answered by its own case, from
   * its own payload fields.
   */
  function RepliesTo(parsed: Option<Request>, userId: Option<int>, failure: Option<string>, io: LogStore,
                     sessions: Sessions, logs: map<string, string>, counter: nat, states: map<string, ClientState>): seq<ServerMessage>
    requires forall u | u in sessions :: sessions[u].Valid()
  {
    match parsed
    case None => [ErrorReply(INVALID_JSON)]
    case Some(SuspendStart(sid)) => StartReplies(sid, userId, io.ensureDirFailure, counter, states)
    case Some(SuspendList) => ListReplies(userId, failure, sessions)
    case Some(SuspendResume(id, newId)) => ResumeRepliesTo(id, newId, userId, io.readLogFailure, io.deleteLogFailure, sessions, logs)
    case Some(SuspendTerminate(id)) => TerminateReplies(id, userId, io.deleteLogFailure, sessions)
    case Some(SuspendRemoveEntry(id)) => RemoveEntryReplies(id, userId, failure, io.deleteLogFailure.Some?, sessions)
    case Some(SuspendEditName(id, name)) => EditNameReplies(id, name, userId, failure, sessions)
    case Some(Unsupported(t)) => [ErrorReply(UNSUPPORTED_PREFIX + t)]
    case Some(MissingPayload(e)) => [ErrorReply(INTERNAL_ERROR_PREFIX + e)]
  }

  /** The connection handler: the engine, the registry and the server's sockets. */
  class ConnectionHandler {
    const service: SshSuspendService
    const registry: ClientRegistry
    /** `wss.clients`. */
    var clients: seq<Socket>

    ghost predicate Valid()
      reads this, service
    {
      service.Valid() && service.registry == registry
    }

    /** initializeConnectionHandler (connection.ts:44, 345): the handler shares the engine's registry. */
    constructor (service: SshSuspendService)
      requires service.Valid()
      ensures Valid() && this.service == service && this.registry == service.registry && clients == []
    {
      this.service := service;
      this.registry := service.registry;
      clients := [];
    }

    /** The handles of the session a user's request names in the engine. */
    function ResumeHandles(userId: Option<int>, suspendSessionId: string): set<object>
      reads service
    {
      if NoUser(userId) then {} else service.HandlesOf(userId.value, suspendSessionId)
    }

    /** Everything a request may change besides the socket, the engine and the registry. */
    function Touched(ws: Socket, parsed: Option<Request>): set<object>
      reads this, registry, service, ws
    {
      match parsed
      case Some(SuspendStart(sid)) => HandlesIn(StateOf(registry, Some(sid)))
      case Some(SuspendResume(id, _)) => ResumeHandles(ws.userId, id)
      case Some(SuspendTerminate(id)) => ResumeHandles(ws.userId, id)
      case _ => {}
    }

    /**
     * The 'message' listener (connection.ts:57-330) on the requests of the
     * suspended-session protocol: every message gets exactly the replies
     * RepliesTo gives for it from the state before it, so each request
     * reaches its own case with its own payload fields. A message that is
     * not JSON, has an unsupported type or lacks its payload (the top-level
     * catch of connection.ts:325-328) changes nothing else.
     */
    method OnMessage(ws: Socket, parsed: Option<Request>, failure: Option<string>, io: LogStore, now: nat, clientIp: string)
      requires Valid()
      modifies ws`sent, ws`sessionId, service`suspendedSessions, service`uuidCounter, service`logs
      modifies registry, Touched(ws, parsed)
      ensures Valid()
      ensures ws.sent == old(ws.sent) + IfOpen(ws.isOpen, RepliesTo(parsed, ws.userId, failure, io,
        old(service.suspendedSessions), old(service.logs), old(service.uuidCounter), old(registry.states)))
      ensures parsed.None? || parsed.value.Unsupported? || parsed.value.MissingPayload? ==>
        && ws.sessionId == old(ws.sessionId) && registry.states == old(registry.states)
        && service.suspendedSessions == old(service.suspendedSessions)
        && service.logs == old(service.logs) && service.uuidCounter == old(service.uuidCounter)
    {
      if parsed.None? {
        ws.SendIfOpen(ErrorReply(INVALID_JSON));
        return;
      }
      match parsed.value
      case SuspendStart(sid) =>
        HandleStart(ws, sid, io.ensureDirFailure, now);
      case SuspendList =>
        HandleList(ws, failure);
      case SuspendEditName(id, name) =>
        HandleEditName(ws, id, name, failure);
      case Unsupported(t) =>
        ws.SendIfOpen(ErrorReply(UNSUPPORTED_PREFIX + t));
      case MissingPayload(e) =>
        ws.SendIfOpen(ErrorReply(INTERNAL_ERROR_PREFIX + e));
      case _ =>
        HandleLogRequest(ws, parsed.value, failure, io, clientIp);
    }

    /** The requests that read or delete a session's log: resume, terminate and remove-entry. */
    method HandleLogRequest(ws: Socket, req: Request, failure: Option<string>, io: LogStore, clientIp: string)
      requires Valid()
      requires req.SuspendResume? || req.SuspendTerminate? || req.SuspendRemoveEntry?
      modifies ws`sent, ws`sessionId, service`suspendedSessions, service`logs
      modifies registry, Touched(ws, Some(req))
      ensures Valid()
      ensures ws.sent == old(ws.sent) + IfOpen(ws.isOpen, RepliesTo(Some(req), ws.userId, failure, io,
        old(service.suspendedSessions), old(service.logs), old(service.uuidCounter), old(registry.states)))
    {
      match req
      case SuspendResume(id, newId) =>
        HandleResume(ws, id, newId, io.readLogFailure, io.deleteLogFailure, clientIp);
      case SuspendTerminate(id) =>
        HandleTerminate(ws, id, io.deleteLogFailure);
      case SuspendRemoveEntry(id) =>
        HandleRemoveEntry(ws, id, failure, io.deleteLogFailure.Some?);
    }

    /**
     * SSH_SUSPEND_START (connection.ts:129-170): refused without a user or
     * without a complete registered session, in which case the engine is not
     * called; otherwise the session's handles are suspended under the caller.
     * The new id is reported unless the log directory could not be made; the
     * suspension has happened either way, and in that case the handles are
     * left without any listener.
     */
    method HandleStart(ws: Socket, sessionId: string, ensureDirFailure: Option<string>, now: nat)
      requires Valid()
      modifies ws`sent, service`suspendedSessions, service`uuidCounter, registry
      modifies HandlesIn(StateOf(registry, Some(sessionId)))
      ensures Valid()
      ensures ws.sent == old(ws.sent) + IfOpen(ws.isOpen, StartReplies(sessionId, ws.userId, ensureDirFailure,
        old(service.uuidCounter), old(registry.states)))
      ensures service.logs == old(service.logs) && service.emitted == old(service.emitted)
      ensures var refusal := old(StartRefusal(ws.userId, StateOf(registry, Some(sessionId))));
        refusal.Some? ==>
          && ws.sent == old(ws.sent) + IfOpen(ws.isOpen, [StartFailure(sessionId, refusal.value)])
          && service.suspendedSessions == old(service.suspendedSessions)
          && service.uuidCounter == old(service.uuidCounter)
          && registry.states == old(registry.states)
      ensures old(StartRefusal(ws.userId, StateOf(registry, Some(sessionId)))).None? ==>
        var st := old(registry.states[sessionId]);
        var u := ws.userId.value;
        var id := Uuid(old(service.uuidCounter));
        && service.suspendedSessions == old(service.suspendedSessions)[u := old(service.SessionsOf(u)).Put(id,
             SuspendDetails(st.sshClient.value, st.sshShellStream.value, TempLogPath(id), NameOrUnknown(st.connectionName),
               IdString(st.dbConnectionId), now, None, Hanging, sessionId, u, None))]
        && service.uuidCounter == old(service.uuidCounter) + 1
        && registry.states == old(registry.states)[sessionId := st.(isSuspendedByService := true)]
        && (ensureDirFailure.None? ==>
              && st.sshShellStream.value.DataConsumers() == {AppendToLog(u, id)}
              && ws.sent == old(ws.sent) + IfOpen(ws.isOpen, [StartSuccess(sessionId, id)]))
        && (ensureDirFailure.Some? ==>
              && st.sshShellStream.value.listeners == {} && st.sshClient.value.listeners == {}
              && ws.sent == old(ws.sent) + IfOpen(ws.isOpen, [StartFailure(sessionId, MessageOr(ensureDirFailure.value, START_FAILED))]))
    {
      var state := StateOf(registry, Some(sessionId));
      var refusal := StartRefusal(ws.userId, state);
      if refusal.Some? {
        ws.SendIfOpen(StartFailure(sessionId, refusal.value));
        return;
      }
      var st := state.value;
      var id, thrown := service.StartSuspend(ws.userId.value, sessionId, st.sshClient.value, st.sshShellStream.value,
        NameOrUnknown(st.connectionName), IdString(st.dbConnectionId), None, now, ensureDirFailure);
      if thrown.Some? {
        ws.SendIfOpen(StartFailure(sessionId, MessageOr(thrown.value, START_FAILED)));
      } else {
        ws.SendIfOpen(StartSuccess(sessionId, id));
      }
    }

    /**
     * SSH_SUSPEND_LIST_REQUEST (connection.ts:171-189): the caller's
     * sessions, or an empty list without a user or when the engine raises.
     */
    method HandleList(ws: Socket, failure: Option<string>)
      requires Valid()
      modifies ws`sent, service`suspendedSessions
      ensures Valid()
      ensures ws.sent == old(ws.sent) + IfOpen(ws.isOpen, ListReplies(ws.userId, failure, old(service.suspendedSessions)))
      ensures NoUser(ws.userId) || failure.Some? ==>
        && ws.sent == old(ws.sent) + IfOpen(ws.isOpen, [ListReply([])])
        && service.suspendedSessions == old(service.suspendedSessions)
      ensures !NoUser(ws.userId) && failure.None? ==>
        && service.suspendedSessions == WithUser(old(service.suspendedSessions), ws.userId.value)
        && old(service.SessionsOf(ws.userId.value)).Valid()
        && ws.sent == old(ws.sent) + IfOpen(ws.isOpen, [ListReply(InfosOf(old(service.SessionsOf(ws.userId.value))))])
    {
      if NoUser(ws.userId) || failure.Some? {
        ws.SendIfOpen(ListReply([]));
        return;
      }
      WithUserValid(service.suspendedSessions, service.logs, service.emitted, service.uuidCounter, ws.userId.value);
      var infos := service.ListSuspendedSessions(ws.userId.value);
      ws.SendIfOpen(ListReply(infos));
    }

    /**
     * SSH_SUSPEND_RESUME_REQUEST (connection.ts:190-259). On success the
     * handles come back under a brand-new registry entry for the new
     * frontend session, the socket is bound to it, the channel's output goes
     * to this socket only, and the socket gets the whole log as one last
     * chunk followed by the success notice. Otherwise one failure notice.
     */
    method HandleResume(ws: Socket, suspendSessionId: string, newId: string,
                        readLogFailure: Option<string>, deleteLogFailure: Option<string>, clientIp: string)
      requires Valid()
      modifies ws`sent, ws`sessionId, service`suspendedSessions, service`logs, registry
      modifies ResumeHandles(ws.userId, suspendSessionId)
      ensures Valid()
      ensures ws.sent == old(ws.sent) + IfOpen(ws.isOpen, ResumeRepliesTo(suspendSessionId, newId, ws.userId,
        readLogFailure, deleteLogFailure, old(service.suspendedSessions), old(service.logs)))
      ensures service.emitted == old(service.emitted) && service.uuidCounter == old(service.uuidCounter)
      ensures NoUser(ws.userId) ==>
        && ws.sent == old(ws.sent) + IfOpen(ws.isOpen, [ResumeFailure(suspendSessionId, newId, AUTH_FAILED)])
        && service.suspendedSessions == old(service.suspendedSessions) && service.logs == old(service.logs)
        && registry.states == old(registry.states) && ws.sessionId == old(ws.sessionId)
      ensures !NoUser(ws.userId) ==>
        var u := ws.userId.value;
        var hanging := old(service.IsHanging(u, suspendSessionId));
        var thrown := if readLogFailure.Some? then readLogFailure else deleteLogFailure;
        && (!hanging ==>
              && ws.sent == old(ws.sent) + IfOpen(ws.isOpen, [ResumeFailure(suspendSessionId, newId, RESUME_IMPOSSIBLE)])
              && service.suspendedSessions == WithUser(old(service.suspendedSessions), u)
              && service.logs == old(service.logs))
        && (!hanging || thrown.Some? ==>
              registry.states == old(registry.states) && ws.sessionId == old(ws.sessionId))
        && (hanging ==>
              var d := old(service.Lookup(u, suspendSessionId)).value;
              && (readLogFailure.Some? ==> service.suspendedSessions == WithUser(old(service.suspendedSessions), u))
              && (readLogFailure.None? ==>
                    service.suspendedSessions == old(service.suspendedSessions)[u := old(service.SessionsOf(u)).Remove(suspendSessionId)])
              && (thrown.Some? ==>
                    && service.logs == old(service.logs)
                    && d.channel.listeners == WithoutEvents(old(d.channel.listeners), DETACHED_CHANNEL_EVENTS)
                    && d.sshClient.listeners == WithoutEvents(old(d.sshClient.listeners), CLIENT_EVENTS)
                    && ws.sent == old(ws.sent) + IfOpen(ws.isOpen, [ResumeFailure(suspendSessionId, newId, MessageOr(thrown.value, RESUME_FAILED))]))
              && (thrown.None? ==>
                    && service.logs == old(service.logs) - {suspendSessionId}
                    && registry.states == old(registry.states)[newId := ClientState(ws, Some(d.sshClient), Some(d.channel),
                         ParseInt(d.connectionId), Some(d.connectionName), Some(clientIp), true, false, false)]
                    && ws.sessionId == Some(newId)
                    && d.channel.listeners == WithoutEvents(old(d.channel.listeners), DETACHED_CHANNEL_EVENTS)
                         + {(ChannelData, ForwardOutput(newId, ws)), (ChannelClose, ReportDisconnected(newId, ws))}
                    && d.sshClient.listeners == WithoutEvents(old(d.sshClient.listeners), CLIENT_EVENTS)
                         + {(ClientError, ReportClientError(newId, ws))}
                    && d.channel.DataConsumers() == {ForwardOutput(newId, ws)}
                    && ws.sent == old(ws.sent) + IfOpen(ws.isOpen, ResumeReplies(suspendSessionId, newId, old(service.LogOf(suspendSessionId))))))
    {
      if NoUser(ws.userId) {
        ws.SendIfOpen(ResumeFailure(suspendSessionId, newId, AUTH_FAILED));
        return;
      }
      ResumeFor(ws, ws.userId.value, suspendSessionId, newId, readLogFailure, deleteLogFailure, clientIp);
    }

    /**
     * What a resume by an authenticated user does (connection.ts:196-257):
     * an id that is not hanging gets the failure notice and changes nothing;
     * a log-store raise gets a failure notice carrying its message, after the
     * engine has detached the handles (and, when the raise is the log's
     * deletion, dropped the entry); otherwise the session is bound to the
     * socket.
     */
    method ResumeFor(ws: Socket, u: int, suspendSessionId: string, newId: string,
                     readLogFailure: Option<string>, deleteLogFailure: Option<string>, clientIp: string)
      requires Valid()
      modifies ws`sent, ws`sessionId, service`suspendedSessions, service`logs, registry
      modifies service.HandlesOf(u, suspendSessionId)
      ensures Valid()
      ensures service.emitted == old(service.emitted) && service.uuidCounter == old(service.uuidCounter)
      ensures
        var hanging := old(service.IsHanging(u, suspendSessionId));
        var thrown := if readLogFailure.Some? then readLogFailure else deleteLogFailure;
        && (!hanging ==>
              && ws.sent == old(ws.sent) + IfOpen(ws.isOpen, [ResumeFailure(suspendSessionId, newId, RESUME_IMPOSSIBLE)])
              && service.suspendedSessions == WithUser(old(service.suspendedSessions), u)
              && service.logs == old(service.logs))
        && (!hanging || thrown.Some? ==>
              registry.states == old(registry.states) && ws.sessionId == old(ws.sessionId))
        && (hanging ==>
              var d := old(service.Lookup(u, suspendSessionId)).value;
              && (readLogFailure.Some? ==> service.suspendedSessions == WithUser(old(service.suspendedSessions), u))
              && (readLogFailure.None? ==>
                    service.suspendedSessions == old(service.suspendedSessions)[u := old(service.SessionsOf(u)).Remove(suspendSessionId)])
              && (thrown.Some? ==>
                    && service.logs == old(service.logs)
                    && d.channel.listeners == WithoutEvents(old(d.channel.listeners), DETACHED_CHANNEL_EVENTS)
                    && d.sshClient.listeners == WithoutEvents(old(d.sshClient.listeners), CLIENT_EVENTS)
                    && ws.sent == old(ws.sent) + IfOpen(ws.isOpen, [ResumeFailure(suspendSessionId, newId, MessageOr(thrown.value, RESUME_FAILED))]))
              && (thrown.None? ==>
                    && service.logs == old(service.logs) - {suspendSessionId}
                    && registry.states == old(registry.states)[newId := ClientState(ws, Some(d.sshClient), Some(d.channel),
                         ParseInt(d.connectionId), Some(d.connectionName), Some(clientIp), true, false, false)]
                    && ws.sessionId == Some(newId)
                    && d.channel.listeners == WithoutEvents(old(d.channel.listeners), DETACHED_CHANNEL_EVENTS)
                         + {(ChannelData, ForwardOutput(newId, ws)), (ChannelClose, ReportDisconnected(newId, ws))}
                    && d.sshClient.listeners == WithoutEvents(old(d.sshClient.listeners), CLIENT_EVENTS)
                         + {(ClientError, ReportClientError(newId, ws))}
                    && d.channel.DataConsumers() == {ForwardOutput(newId, ws)}
                    && ws.sent == old(ws.sent) + IfOpen(ws.isOpen, ResumeReplies(suspendSessionId, newId, old(service.LogOf(suspendSessionId))))))
    {
      var result, thrown := service.ResumeSession(u, suspendSessionId, readLogFailure, deleteLogFailure);
      if thrown.Some? {
        ws.SendIfOpen(ResumeFailure(suspendSessionId, newId, MessageOr(thrown.value, RESUME_FAILED)));
        return;
      }
      if result.None? {
        ws.SendIfOpen(ResumeFailure(suspendSessionId, newId, RESUME_IMPOSSIBLE));
        return;
      }
      BindResumed(ws, suspendSessionId, newId, result.value, clientIp);
    }

    /** What the gateway does with a resumed session (connection.ts:203-249). */
    method BindResumed(ws: Socket, suspendSessionId: string, newId: string, r: ResumeResult, clientIp: string)
      modifies ws`sent, ws`sessionId, registry, r.channel`listeners, r.sshClient`listeners
      ensures registry.states == old(registry.states)[newId := ClientState(ws, Some(r.sshClient), Some(r.channel),
        ParseInt(r.originalConnectionId), Some(r.connectionName), Some(clientIp), true, false, false)]
      ensures ws.sessionId == Some(newId)
      ensures r.channel.listeners == WithoutEvents(old(r.channel.listeners), {ChannelData})
        + {(ChannelData, ForwardOutput(newId, ws)), (ChannelClose, ReportDisconnected(newId, ws))}
      ensures r.sshClient.listeners == old(r.sshClient.listeners) + {(ClientError, ReportClientError(newId, ws))}
      ensures r.channel.DataConsumers() == {ForwardOutput(newId, ws)}
      ensures ws.sent == old(ws.sent) + IfOpen(ws.isOpen, ResumeReplies(suspendSessionId, newId, r.logData))
    {
      registry.states := registry.states[newId := ClientState(ws, Some(r.sshClient), Some(r.channel),
        ParseInt(r.originalConnectionId), Some(r.connectionName), Some(clientIp), true, false, false)];
      ws.sessionId := Some(newId);
      RewireToSocket(ws, newId, r.channel, r.sshClient);
      SendResumeReplies(ws, suspendSessionId, newId, r.logData);
    }

    /** The cached output, then the resumed notice (connection.ts:234-248). */
    static method SendResumeReplies(ws: Socket, suspendSessionId: string, newId: string, logData: string)
      modifies ws`sent
      ensures ws.sent == old(ws.sent) + IfOpen(ws.isOpen, ResumeReplies(suspendSessionId, newId, logData))
    {
      ws.SendIfOpen(ResumeReplies(suspendSessionId, newId, logData)[0]);
      ws.SendIfOpen(ResumeReplies(suspendSessionId, newId, logData)[1]);
    }

    /**
     * The listeners a resumed session gets (connection.ts:216-232): the
     * channel's remaining data listeners are dropped, then its output and
     * close and the client's errors are reported to this socket.
     */
    static method RewireToSocket(ws: Socket, newId: string, channel: SshChannel, sshClient: SshClient)
      modifies channel`listeners, sshClient`listeners
      ensures channel.listeners == WithoutEvents(old(channel.listeners), {ChannelData})
        + {(ChannelData, ForwardOutput(newId, ws)), (ChannelClose, ReportDisconnected(newId, ws))}
      ensures sshClient.listeners == old(sshClient.listeners) + {(ClientError, ReportClientError(newId, ws))}
      ensures channel.DataConsumers() == {ForwardOutput(newId, ws)}
    {
      channel.listeners := WithoutEvents(channel.listeners, {ChannelData});
      channel.listeners := channel.listeners + {(ChannelData, ForwardOutput(newId, ws)), (ChannelClose, ReportDisconnected(newId, ws))};
      sshClient.listeners := sshClient.listeners + {(ClientError, ReportClientError(newId, ws))};
    }

    /**
     * SSH_SUSPEND_TERMINATE_REQUEST (connection.ts:260-280): the engine's
     * result is reported, unless deleting the log raised, in which case the
     * error is reported although the entry is already gone.
     */
    method HandleTerminate(ws: Socket, suspendSessionId: string, deleteLogFailure: Option<string>)
      requires Valid()
      modifies ws`sent, service`suspendedSessions, service`logs, ResumeHandles(ws.userId, suspendSessionId)
      ensures Valid()
      ensures ws.sent == old(ws.sent) + IfOpen(ws.isOpen, TerminateReplies(suspendSessionId, ws.userId, deleteLogFailure, old(service.suspendedSessions)))
      ensures service.emitted == old(service.emitted) && service.uuidCounter == old(service.uuidCounter)
      ensures NoUser(ws.userId) ==>
        && ws.sent == old(ws.sent) + IfOpen(ws.isOpen, [OutcomeReply(SSH_SUSPEND_TERMINATED_RESP, suspendSessionId, false, Some(AUTH_FAILED))])
        && service.suspendedSessions == old(service.suspendedSessions) && service.logs == old(service.logs)
      ensures !NoUser(ws.userId) ==>
        var found := old(service.Lookup(ws.userId.value, suspendSessionId)).Some?;
        && ws.sent == old(ws.sent) + IfOpen(ws.isOpen, [
             if found && deleteLogFailure.Some?
             then OutcomeReply(SSH_SUSPEND_TERMINATED_RESP, suspendSessionId, false, Some(MessageOr(deleteLogFailure.value, TERMINATE_FAILED)))
             else OutcomeReply(SSH_SUSPEND_TERMINATED, suspendSessionId, found, None)])
        && (found ==> service.Lookup(ws.userId.value, suspendSessionId).None?)
        && (found && deleteLogFailure.None? ==> suspendSessionId !in service.logs)
        && (!found || deleteLogFailure.Some? ==> service.logs == old(service.logs))
    {
      if NoUser(ws.userId) {
        ws.SendIfOpen(OutcomeReply(SSH_SUSPEND_TERMINATED_RESP, suspendSessionId, false, Some(AUTH_FAILED)));
        return;
      }
      var ok, thrown := service.TerminateSuspendedSession(ws.userId.value, suspendSessionId, deleteLogFailure);
      if thrown.Some? {
        ws.SendIfOpen(OutcomeReply(SSH_SUSPEND_TERMINATED_RESP, suspendSessionId, false, Some(MessageOr(thrown.value, TERMINATE_FAILED))));
      } else {
        ws.SendIfOpen(OutcomeReply(SSH_SUSPEND_TERMINATED, suspendSessionId, ok, None));
      }
    }

    /** SSH_SUSPEND_REMOVE_ENTRY (connection.ts:281-301). */
    method HandleRemoveEntry(ws: Socket, suspendSessionId: string, failure: Option<string>, deleteLogFails: bool)
      requires Valid()
      modifies ws`sent, service`suspendedSessions, service`logs
      ensures Valid()
      ensures ws.sent == old(ws.sent) + IfOpen(ws.isOpen, RemoveEntryReplies(suspendSessionId, ws.userId, failure, deleteLogFails, old(service.suspendedSessions)))
      ensures NoUser(ws.userId) || failure.Some? ==>
        && ws.sent == old(ws.sent) + IfOpen(ws.isOpen, [OutcomeReply(SSH_SUSPEND_ENTRY_REMOVED_RESP, suspendSessionId, false,
             Some(if NoUser(ws.userId) then AUTH_FAILED else MessageOr(failure.value, REMOVE_FAILED)))])
        && service.suspendedSessions == old(service.suspendedSessions) && service.logs == old(service.logs)
      ensures !NoUser(ws.userId) && failure.None? ==>
        var hanging := old(service.IsHanging(ws.userId.value, suspendSessionId));
        && ws.sent == old(ws.sent) + IfOpen(ws.isOpen, [OutcomeReply(SSH_SUSPEND_ENTRY_REMOVED, suspendSessionId,
             !hanging && !deleteLogFails, None)])
        && (hanging ==> service.IsHanging(ws.userId.value, suspendSessionId) && service.logs == old(service.logs))
        && (!hanging ==> service.Lookup(ws.userId.value, suspendSessionId).None?)
    {
      if NoUser(ws.userId) || failure.Some? {
        var error := if NoUser(ws.userId) then AUTH_FAILED else MessageOr(failure.value, REMOVE_FAILED);
        ws.SendIfOpen(OutcomeReply(SSH_SUSPEND_ENTRY_REMOVED_RESP, suspendSessionId, false, Some(error)));
        return;
      }
      var ok := service.RemoveDisconnectedSessionEntry(ws.userId.value, suspendSessionId, deleteLogFails);
      ws.SendIfOpen(OutcomeReply(SSH_SUSPEND_ENTRY_REMOVED, suspendSessionId, ok, None));
    }

    /** SSH_SUSPEND_EDIT_NAME (connection.ts:302-321): the new name is echoed only on success. */
    method HandleEditName(ws: Socket, suspendSessionId: string, customName: string, failure: Option<string>)
      requires Valid()
      modifies ws`sent, service`suspendedSessions
      ensures Valid()
      ensures ws.sent == old(ws.sent) + IfOpen(ws.isOpen, EditNameReplies(suspendSessionId, customName, ws.userId, failure, old(service.suspendedSessions)))
      ensures NoUser(ws.userId) || failure.Some? ==>
        && ws.sent == old(ws.sent) + IfOpen(ws.isOpen, [EditFailure(suspendSessionId,
             if NoUser(ws.userId) then AUTH_FAILED else MessageOr(failure.value, EDIT_FAILED))])
        && service.suspendedSessions == old(service.suspendedSessions)
      ensures !NoUser(ws.userId) && failure.None? ==>
        var found := old(service.Lookup(ws.userId.value, suspendSessionId)).Some?;
        && ws.sent == old(ws.sent) + IfOpen(ws.isOpen, [EditReply(suspendSessionId, found, customName)])
        && (found ==> service.Lookup(ws.userId.value, suspendSessionId)
                      == Some(old(service.Lookup(ws.userId.value, suspendSessionId)).value.(customSuspendName := Some(customName))))
    {
      if NoUser(ws.userId) || failure.Some? {
        var error := if NoUser(ws.userId) then AUTH_FAILED else MessageOr(failure.value, EDIT_FAILED);
        ws.SendIfOpen(EditFailure(suspendSessionId, error));
        return;
      }
      var ok := service.EditSuspendedSessionName(ws.userId.value, suspendSessionId, customName);
      ws.SendIfOpen(EditReply(suspendSessionId, ok, customName));
    }

    /** The socket's 'close' and 'error' listeners (connection.ts:332-340): its session is cleaned up. */
    method OnSocketClosed(ws: Socket)
      modifies registry`states, SocketsOf(registry, ws.sessionId)`sessionId
      modifies ChannelsOf(registry, ws.sessionId)`endCalled, ClientsOf(registry, ws.sessionId)`endCalled
      ensures Truthy(old(ws.sessionId)).None? ==> registry.states == old(registry.states)
      ensures Truthy(old(ws.sessionId)).Some? ==> registry.states == old(registry.states) - {old(ws.sessionId).value}
    {
      CleanupClientConnection(registry, ws.sessionId);
    }

    /**
     * The `sessionAutoTerminated` listener (connection.ts:345-363): every
     * open socket of the event's user gets exactly one notice, and no other
     * socket gets anything.
     */
    method NotifyAutoTerminated(e: AutoTerminatedEvent)
      requires DistinctSockets(clients)
      modifies SocketSet(clients)`sent
      ensures forall i :: 0 <= i < |clients| ==>
        clients[i].sent == old(clients[i].sent) + IfOpen(Notified(clients[i].isOpen, clients[i].userId, e), [AutoTerminatedNotice(e)])
    {
      ghost var sent0 := SentLogs(clients);
      var i := 0;
      while i < |clients|
        invariant 0 <= i <= |clients|
        invariant forall j :: 0 <= j < |clients| ==>
          clients[j].sent == sent0[j] + (if j < i then IfOpen(Notified(clients[j].isOpen, clients[j].userId, e), [AutoTerminatedNotice(e)]) else [])
      {
        var ws := clients[i];
        if ws.userId == Some(e.userId) && ws.isOpen {
          ws.sent := ws.sent + [AutoTerminatedNotice(e)];
        }
        i := i + 1;
      }
    }
  }
}
