# nexus-terminal: suspended SSH sessions, transfers, import/export and settings, in Dafny

This project models the core of nexus-terminal, a web SSH/RDP client. It has a
Node backend (Express plus a WebSocket gateway) and a Vue frontend. The model
covers these parts of it:

- **The SSH suspend engine** (`ssh-suspend.service.ts`). It takes over the
  ssh2 client and shell channel of a live terminal session and keeps the
  session "hanging" under a fresh suspend id, logging its output. It turns the
  entry into "disconnected" when the channel or client fails, and emits
  `sessionAutoTerminated` once. It hands the handles back on resume, and it
  terminates, removes and renames entries. It is the class
  `SshSuspend.SshSuspendService`. Its fields are the per-user ordered maps of
  entries, the log store, the list of emitted events and the id counter, and
  the invariant `Valid()` ties them together.
- **The WebSocket gateway**. This covers `connection.ts` (the suspend part of
  the message switch, socket close and the auto-terminated broadcast),
  `heartbeat.ts` (the ping/terminate timer) and `utils.ts` (`parsePortsString`
  and `cleanupClientConnection`). Sockets, ssh2 handles and the `clientStates`
  registry are classes, and event-emitter listeners are sets of
  (event, listener) pairs.
- **The REST controllers**: suspended sessions (`ssh-suspend.controller.ts`)
  and CAPTCHA credential checks (`captcha.controller.ts`), as functions from a
  request and the engine's outcome to a status and body.
- **The transfers service** (`transfers.service.ts`). It builds a task as the
  cross product of connections and source items, updates sub-task status and
  progress, aggregates the overall status and progress, and builds the
  rsync/scp command line with its shell quoting.
- **Import/export of connections** (`import-export.service.ts`). The model
  covers the connection-script builder with its CLI-argument escaping, and the
  import fold over connection records. That fold resolves proxies with a
  cache and counts successes and failures. Each inserted connection is then
  linked to its positive tag ids, and no tag is created.
- **The passkey service** (`passkey.service.ts`). The model covers its
  base64url decoder, proved against a base64 encoder, and the WebAuthn
  registration, authentication and deletion bookkeeping, with the library's
  verdicts as parameters.
- **The frontend session store**:
  - the session actions and getters (`sessionActions.ts`, `getters.ts`);
  - the suspended-session actions and their WebSocket message handlers
    (`sshSuspendActions.ts`);
  - the file uploader (`useFileUploader.ts`);
  - the file-manager context menu (`useFileManagerContextMenu.ts`);
  - the CAPTCHA and system settings forms (`useCaptchaSettings.ts`,
    `useSystemSettings.ts`).

Code that updates objects in place is modelled as classes. Their methods are
proved against pure step functions on an abstract value
(`ensures Abs() == Step(old(Abs()), ...)`), and the lemmas about those step
functions state the properties. Results of I/O (HTTP calls, WebSocket
replies, database writes, library verdicts) are modelled as parameters of
type `Outcome<T>`, either `Returned(value)` or `Threw(message)`. Generated ids
(`uuidv4`, `generateSessionId`, `Date.now()`-based upload ids) are drawn from
counters, which makes their freshness provable.

Files: `wrappers.dfy`, `strings.dfy`, `seqs.dfy` and `ordered_maps.dfy` are
shared definitions. JavaScript objects with insertion order are modelled as
`OrderedMaps.OMap`, and JavaScript's `parseInt`, `split` and `join` are in
`Strings`. Every other file models one source file.

## Model

| member | source | states |
|---|---|---|
| SshSuspend.UuidFresh | packages/backend/src/services/ssh-suspend.service.ts:59 | the suspend id drawn from the counter was never issued before, and issuing it adds exactly that id (the model's uuidv4 is unique) |
| SshSuspend.UuidInjective | packages/backend/src/services/ssh-suspend.service.ts:59 | distinct counter values give distinct suspend ids |
| SshSuspend.InfosOf | packages/backend/src/services/ssh-suspend.service.ts:172-190 | the listing of a user's entries has one info per entry, in insertion order, each carrying its own id and the entry's fields |
| SshSuspend.WithUserValid | packages/backend/src/services/ssh-suspend.service.ts:32-37 | creating a user's empty map keeps the engine invariant and changes no user's entries |
| SshSuspend.StoreValid | packages/backend/src/services/ssh-suspend.service.ts:76-92 | storing a well-formed entry under its user keeps the invariant when no other user holds the id and a hanging entry was never auto-terminated |
| SshSuspend.RemoveValid | packages/backend/src/services/ssh-suspend.service.ts:198-226 | removing an entry keeps the invariant, also with its log deleted, and afterwards no user holds that id |
| SshSuspend.EmitValid | packages/backend/src/services/ssh-suspend.service.ts:117-134 | emitting the auto-terminated event of an id that is stored as disconnected and was never emitted keeps the invariant |
| SshSuspend.SuspendValid | packages/backend/src/services/ssh-suspend.service.ts:59-92 | the next id is held by no user and has no log, and storing a hanging entry under it keeps the invariant |
| SshSuspend.DisconnectValid | packages/backend/src/services/ssh-suspend.service.ts:117-134 | marking a hanging entry disconnected and emitting its event keeps the invariant, and the event's user is the key the entry sits under |
| SshSuspend.SshSuspendService.constructor | packages/backend/src/services/ssh-suspend.service.ts:16-25 | the engine starts with no entries, no logs, no events, counter 0, and shares the gateway's registry |
| SshSuspend.SshSuspendService.GetUserSessions | packages/backend/src/services/ssh-suspend.service.ts:32-37 | returns the user's map, creating an empty one if it was missing, and changes nothing else |
| SshSuspend.SshSuspendService.RemoveChannelListeners | packages/backend/src/services/ssh-suspend.service.ts:157-163 | exactly the channel's data/close/error listeners and the client's error/end listeners are removed, and the channel's output then has no consumer |
| SshSuspend.SshSuspendService.DetachAllListeners | packages/backend/src/services/ssh-suspend.service.ts:64-73 | after the takeover every channel and client event has no listener left |
| SshSuspend.SshSuspendService.MarkSuspendedByService | packages/backend/src/services/ssh-suspend.service.ts:94-100 | only the original session's registry entry changes, and only its isSuspendedByService flag, which becomes true; an unregistered id changes nothing |
| SshSuspend.SshSuspendService.StoreHanging | packages/backend/src/services/ssh-suspend.service.ts:59-92 | the next id is spent, it was held by no user and has no log, and the hanging entry is stored under it in the caller's map |
| SshSuspend.SshSuspendService.StartSuspendBegin | packages/backend/src/services/ssh-suspend.service.ts:59-106 | startSuspend up to its await: a fresh id, all listeners detached, a hanging entry with an empty log under the caller, and the original session marked as taken over |
| SshSuspend.SshSuspendService.AttachSuspendListeners | packages/backend/src/services/ssh-suspend.service.ts:109-148 | adds exactly the logging listener on channel data and the failure observer on channel close/error and client error/end |
| SshSuspend.SshSuspendService.StartSuspend | packages/backend/src/services/ssh-suspend.service.ts:50-152 | the entry is always stored hanging under a fresh id, with every listener detached and the original session marked as taken over; if creating the log directory then raises, that error is passed on and the handles keep no listener; otherwise the engine's logger is the channel's only data consumer; the invariant holds either way |
| SshSuspend.SshSuspendService.AppendToSuspendLog | packages/backend/src/services/ssh-suspend.service.ts:109-115 | output is appended to the id's log exactly while its entry is hanging; otherwise the logs are unchanged |
| SshSuspend.SshSuspendService.Disconnect | packages/backend/src/services/ssh-suspend.service.ts:117-351 | a hanging entry becomes disconnected at `now`, loses its listeners, and one event with its stored user id is emitted; any other state is left alone |
| SshSuspend.SshSuspendService.HandleUnexpectedClose | packages/backend/src/services/ssh-suspend.service.ts:117-134 | the channel/client failure turns a hanging entry into a disconnected one with one event; a second failure emits nothing more |
| SshSuspend.SshSuspendService.HandleUnexpectedDisconnection | packages/backend/src/services/ssh-suspend.service.ts:333-351 | the same transition for the public entry point, which first ensures that the user's map exists |
| SshSuspend.SshSuspendService.ListSuspendedSessions | packages/backend/src/services/ssh-suspend.service.ts:172-190 | returns every entry of the user in insertion order and changes nothing else |
| SshSuspend.SshSuspendService.ResumeSession | packages/backend/src/services/ssh-suspend.service.ts:198-226 | a non-hanging id changes nothing; a hanging entry of this user has its listeners detached and its log read; if the read raises, the entry and log stay; otherwise the entry is removed, then the log unless its deletion raises; the handles and the whole log are returned exactly when neither raised |
| SshSuspend.SshSuspendService.TerminateSuspendedSession | packages/backend/src/services/ssh-suspend.service.ts:234-268 | a hanging entry is detached, its channel closed and its client ended; an existing entry of either kind is removed even when deleting its log then raises, and the log is deleted otherwise; true exactly for an existing entry whose log deletion did not raise; no event is emitted |
| SshSuspend.SshSuspendService.CloseHandles | packages/backend/src/services/ssh-suspend.service.ts:250-261 | a terminated session's listeners are detached, then its channel is closed and its client ended |
| SshSuspend.SshSuspendService.DeleteEntry | packages/backend/src/services/ssh-suspend.service.ts:215 | `userSessions.delete`: only the caller's map loses the id, afterwards no user holds it, and the invariant holds |
| SshSuspend.SshSuspendService.DeleteLog | packages/backend/src/services/ssh-suspend.service.ts:216 | `deleteLog` removes exactly that id's log and keeps the invariant |
| SshSuspend.SshSuspendService.RemoveDisconnectedSessionEntry | packages/backend/src/services/ssh-suspend.service.ts:276-301 | refuses a hanging entry; otherwise deletes the entry if present and the log, and reports true exactly when deleting the log succeeded |
| SshSuspend.SshSuspendService.EditSuspendedSessionName | packages/backend/src/services/ssh-suspend.service.ts:311-325 | true exactly for an existing entry, whose customSuspendName alone changes |
| WsTypes.WithoutEvents | packages/backend/src/services/ssh-suspend.service.ts:64-73 | `removeAllListeners` for a set of events keeps exactly the listeners of the other events |
| WsTypes.Socket.constructor | packages/backend/src/websocket/connection.ts:46 | a newly accepted socket is alive and open, has no session, has not been pinged and has sent nothing |
| WsTypes.Socket.SendIfOpen | packages/backend/src/websocket/connection.ts:64 | a message is appended to what the socket sent exactly when it is open |
| GatewayUtils.IndexOf | packages/backend/src/websocket/utils.ts:12-27 | the first occurrence of a character, or none when it does not occur |
| GatewayUtils.LastIndexOf | packages/backend/src/websocket/utils.ts:12-27 | the last occurrence of a character, or none when it does not occur |
| GatewayUtils.PrivateMatchSound | packages/backend/src/websocket/utils.ts:29-35 | whatever the private-port matcher returns matches the regex `^(\d+)\/(tcp\|udp\|\w+)$` with those captures |
| GatewayUtils.PrivateMatchComplete | packages/backend/src/websocket/utils.ts:29-35 | every string of the regex's shape is matched, with the same captures |
| GatewayUtils.PublicMatchSound | packages/backend/src/websocket/utils.ts:41-50 | whatever the public-part matcher returns matches `^(?:([\d.:a-fA-F]+):)?(\d+)$` with those captures |
| GatewayUtils.PublicMatchComplete | packages/backend/src/websocket/utils.ts:41-50 | every public part of that shape is matched, with the same captures |
| GatewayUtils.PartsOf | packages/backend/src/websocket/utils.ts:12-27 | `split('->')` read as a (public, private) pair; none exactly when the entry has three or more pieces |
| GatewayUtils.PartsOfNoArrow | packages/backend/src/websocket/utils.ts:18-20 | an entry without "->" is a private part only |
| GatewayUtils.EntryToPortPrivate | packages/backend/src/websocket/utils.ts:12-59 | an entry with at most one arrow whose private part matches is kept, with its number and protocol, and the isNaN guard never drops it |
| GatewayUtils.EntryToPortSkipped | packages/backend/src/websocket/utils.ts:22-35 | any other entry is skipped |
| GatewayUtils.EntryToPortPublic | packages/backend/src/websocket/utils.ts:41-50 | a matching public part gives the entry's IP (if any) and its public port |
| GatewayUtils.EntryToPortNoPublic | packages/backend/src/websocket/utils.ts:41-50 | an empty or unmatched public part leaves IP and public port undefined but keeps the entry |
| GatewayUtils.FilterMapOrigins | packages/backend/src/websocket/utils.ts:8-62 | the kept ports are an order-preserving selection of the entries |
| GatewayUtils.PortsOfAppend | packages/backend/src/websocket/utils.ts:8-62 | parsing distributes over concatenating entry lists |
| GatewayUtils.PortsOfSelection | packages/backend/src/websocket/utils.ts:8-62 | every port comes from its own entry, in entry order, so there are at most as many ports as entries |
| GatewayUtils.ParsePortsString | packages/backend/src/websocket/utils.ts:7-62 | no ports for a missing or empty string; otherwise the port of every entry of the string split on ", " that yields one, in order |
| GatewayUtils.CleanupClientConnection | packages/backend/src/websocket/utils.ts:69-110 | for a registered id: ends the shell stream and the client unless the suspend engine took them over, deletes the entry, and clears the socket's session id if it still names this session; an undefined, empty or unknown id changes nothing |
| Heartbeat.OnPong | packages/backend/src/websocket/connection.ts:52 | a pong marks the socket alive |
| Heartbeat.AnsweringSocketSurvives | packages/backend/src/websocket/heartbeat.ts:8-18 | a live socket that answers every ping is never terminated and is pinged once per tick |
| Heartbeat.SilentSocketTerminated | packages/backend/src/websocket/heartbeat.ts:8-18 | a socket that stops answering survives one tick and is terminated at the second, after exactly one more ping |
| Heartbeat.DeadSocketStaysDead | packages/backend/src/websocket/heartbeat.ts:8-18 | a terminated socket that never answers stays terminated and is not pinged again |
| Heartbeat.DeadSessionsMeaning | packages/backend/src/websocket/heartbeat.ts:11-15 | the sessions cleaned up are exactly those of sockets that were not alive and had a non-empty session id |
| Heartbeat.HeartbeatServer.constructor | packages/backend/src/websocket/heartbeat.ts:7-29 | initializeHeartbeat starts the timer over the server's clients and the registry |
| Heartbeat.HeartbeatServer.OnServerClose | packages/backend/src/websocket/heartbeat.ts:22-25 | the server's close handler clears the timer |
| Heartbeat.HeartbeatServer.Tick | packages/backend/src/websocket/heartbeat.ts:5-18 | while the timer runs, each socket takes one step (terminated if it was not alive, else marked not alive and pinged), and exactly the dead sockets' sessions are cleaned up; a cleared timer changes nothing |
| Heartbeat.HeartbeatServer.TickAll | packages/backend/src/websocket/heartbeat.ts:8-18 | the loop over all clients: every socket takes its step, a socket stays open only if it was open and alive, and the registry loses exactly the dead sessions |
| Heartbeat.HeartbeatServer.TickLoop | packages/backend/src/websocket/heartbeat.ts:8-18 | after the loop every socket has taken exactly its one step from the state it had before the tick, and the registry has lost exactly the sessions of the sockets that were not alive |
| Heartbeat.HeartbeatServer.TickSocket | packages/backend/src/websocket/heartbeat.ts:9-17 | one socket's step and the cleanup of its session if it was not alive; no other socket changes |
| Gateway.StartRefusal | packages/backend/src/websocket/connection.ts:135-145 | a start request reaches the engine exactly when there is a user and a registered session with both an ssh client and a shell stream; without a user the reply is the authentication error |
| Gateway.EditReplyEchoesOnSuccess | packages/backend/src/websocket/connection.ts:313 | the edit reply carries the new name exactly when the rename succeeded |
| Gateway.ConnectionHandler.constructor | packages/backend/src/websocket/connection.ts:44-345 | the handler shares the engine's registry and has no clients yet |
| Gateway.ConnectionHandler.OnMessage | packages/backend/src/websocket/connection.ts:57-330 | every message gets exactly the replies its own case gives from the state before it: a non-JSON message, an unsupported type and a suspend request without a payload (the top-level catch, :325-328) one error reply each, with no other effect; start, list, resume, terminate, remove-entry and rename the replies of their handlers (the functions StartReplies … EditNameReplies, joined in RepliesTo) |
| Gateway.ConnectionHandler.HandleLogRequest | packages/backend/src/websocket/connection.ts:190-301 | resume, terminate and remove-entry requests get the replies of their own case |
| Gateway.ConnectionHandler.HandleStart | packages/backend/src/websocket/connection.ts:129-170 | a refused request sends one failure reply and leaves the engine untouched; otherwise the session is always suspended under the caller, and the new id is reported unless creating the log directory raised, in which case a failure with that error's message is sent and the handles keep no listener; logs and events are unchanged |
| Gateway.ConnectionHandler.HandleList | packages/backend/src/websocket/connection.ts:171-189 | the caller's sessions in insertion order, or an empty list without a user or when the engine throws |
| Gateway.ConnectionHandler.HandleResume | packages/backend/src/websocket/connection.ts:190-259 | on success the handles are registered under the new frontend session id, the socket is bound to it and receives the whole log as one last chunk, followed by the success notice; a log-store raise gets one failure notice with its message, after the handles were detached (and, when the log's deletion raised, the entry removed); any other failure gets exactly one failure notice and changes nothing |
| Gateway.ConnectionHandler.ResumeFor | packages/backend/src/websocket/connection.ts:196-257 | for an authenticated caller: a non-hanging id gets the failure notice and changes nothing; a log-store raise is reported with its message and the registry and socket are untouched; otherwise the session is resumed and bound |
| Gateway.ConnectionHandler.BindResumed | packages/backend/src/websocket/connection.ts:203-249 | the new registry entry holds the resumed handles, the connection id parsed from the stored string, the name and the client IP, and the socket's session id becomes the new id |
| Gateway.ConnectionHandler.SendResumeReplies | packages/backend/src/websocket/connection.ts:234-248 | the cached log chunk and then the resumed notice are sent, if the socket is open |
| Gateway.ConnectionHandler.RewireToSocket | packages/backend/src/websocket/connection.ts:216-232 | the channel's remaining data listeners are dropped; its output and close, and the client's errors, are then reported to this socket |
| Gateway.ConnectionHandler.HandleTerminate | packages/backend/src/websocket/connection.ts:260-280 | without a user, the authentication failure and no change; an existing entry is removed, and is reported terminated unless deleting its log raised, which gets a failure reply with that error's message and keeps the log; an unknown id is reported as not terminated |
| Gateway.ConnectionHandler.HandleRemoveEntry | packages/backend/src/websocket/connection.ts:281-301 | without a user or on a thrown error, a failure reply and no change; otherwise the engine's remove result is reported |
| Gateway.ConnectionHandler.HandleEditName | packages/backend/src/websocket/connection.ts:302-321 | without a user or on a thrown error, a failure reply; otherwise the engine's rename result is reported, and the name is echoed only on success |
| Gateway.ConnectionHandler.OnSocketClosed | packages/backend/src/websocket/connection.ts:332-340 | a closed or failed socket's session, if it has a non-empty id, is removed from the registry and nothing else is |
| Gateway.ConnectionHandler.NotifyAutoTerminated | packages/backend/src/websocket/connection.ts:345-363 | every open socket of the event's user gets exactly one notice, and no other socket gets anything |
| SuspendController.ServerError | packages/backend/src/ssh-suspend/ssh-suspend.controller.ts:33-36 | a 500 reply carries the error's message or 'Unknown error' |
| SuspendController.ListSessions | packages/backend/src/ssh-suspend/ssh-suspend.controller.ts:17-38 | 401 without a user, 200 with the engine's list, 500 when the engine throws |
| SuspendController.BooleanReply | packages/backend/src/ssh-suspend/ssh-suspend.controller.ts:56-72 | the engine's boolean maps to 200 for true and 404 for false, and a thrown error maps to 500 |
| SuspendController.TerminateSession | packages/backend/src/ssh-suspend/ssh-suspend.controller.ts:40-73 | 401 without a user, 400 without an id, otherwise the engine's answer as 200/404/500 |
| SuspendController.RemoveSessionEntry | packages/backend/src/ssh-suspend/ssh-suspend.controller.ts:75-107 | 401 without a user, 400 without an id, otherwise the engine's answer as 200/404/500 |
| SuspendController.EditSessionName | packages/backend/src/ssh-suspend/ssh-suspend.controller.ts:109-145 | 401 without a user, 400 without an id or when the name is not a string, otherwise the engine's answer as 200/404/500 |
| SuspendController.RefusedRequestsIgnoreEngine | packages/backend/src/ssh-suspend/ssh-suspend.controller.ts:40-145 | a refused request's reply does not depend on the engine's outcome: the engine is not called |
| SuspendController.UnauthorizedFirst | packages/backend/src/ssh-suspend/ssh-suspend.controller.ts:17-145 | without a user every handler answers 401, whatever else the request holds |
| CaptchaController.VerifyCredentials | packages/backend/src/captcha/captcha.controller.ts:11-46 | 400 for an invalid provider, 400 naming the missing keys, otherwise 200 or 400 from the service's verdict and 500 when it throws |
| CaptchaController.MissingKeyMessageNamesMissingKeys | packages/backend/src/captcha/captcha.controller.ts:22-31 | the missing-key message names exactly the missing keys, and the generic "or" message is never sent |
| CaptchaController.ServiceOnlyWithCompleteRequest | packages/backend/src/captcha/captcha.controller.ts:17-33 | the reply to an invalid provider or a missing key does not depend on the service: the service is not consulted |
| Transfers.CrossProductLength | packages/backend/src/transfers/transfers.service.ts:26-37 | a new transfer has one sub-task per (connection, item) pair |
| Transfers.CrossProductAt | packages/backend/src/transfers/transfers.service.ts:26-37 | the pair (i, j) sits at index i·|items|+j, connection-major, and takes the id at that offset |
| Transfers.CrossProductFresh | packages/backend/src/transfers/transfers.service.ts:28-36 | every new sub-task is queued and has no progress, message or end time |
| Transfers.CrossProductIdAt | packages/backend/src/transfers/transfers.service.ts:26-37 | sub-task k of a new transfer takes the k-th id drawn after the task's |
| Transfers.NewTransferIds | packages/backend/src/transfers/transfers.service.ts:21-37 | the ids of a new transfer are distinct, and all were drawn before the counter's new value |
| Transfers.BuildSubTasks | packages/backend/src/transfers/transfers.service.ts:26-37 | the nested loops build exactly the connection-major cross product |
| Transfers.Clamp | packages/backend/src/transfers/transfers.service.ts:567 | progress is clamped into [0, 100] and a value already in range is unchanged |
| Transfers.ApplyUpdate | packages/backend/src/transfers/transfers.service.ts:566-571 | an accepted update gives the new status and the clamped progress and message if given, and sets the end time on the first entry into a final status |
| Transfers.FindSubTask | packages/backend/src/transfers/transfers.service.ts:558 | the first sub-task with the id, or none when no sub-task has it |
| Transfers.TallyPartition | packages/backend/src/transfers/transfers.service.ts:625-646 | every sub-task is counted in exactly one of the four counters |
| Transfers.CountAll | packages/backend/src/transfers/transfers.service.ts:648-658 | a counter equals the number of sub-tasks exactly when every sub-task is in that state |
| Transfers.CountPositive | packages/backend/src/transfers/transfers.service.ts:648-658 | a counter is positive exactly when some sub-task is in that state |
| Transfers.TallyFacts | packages/backend/src/transfers/transfers.service.ts:625-658 | what each counter of the tally says about the sub-tasks |
| Transfers.CountSubTasks | packages/backend/src/transfers/transfers.service.ts:625-646 | the forEach loop computes the tally of all sub-tasks |
| Transfers.RoundDiv | packages/backend/src/transfers/transfers.service.ts:647 | `Math.round(total / n)` is the nearest integer, with halves rounded up |
| Transfers.TotalBounds | packages/backend/src/transfers/transfers.service.ts:647 | with every progress in [0, 100], the total lies between 0 and 100 per sub-task |
| Transfers.OverallProgressInRange | packages/backend/src/transfers/transfers.service.ts:647 | the overall progress is a percentage |
| Transfers.AggregateStatusMeaning | packages/backend/src/transfers/transfers.service.ts:648-668 | a non-empty task is failed when every sub-task failed, completed when every one completed, partially completed when all are final with both outcomes present, queued when all are queued, and in progress otherwise; the fallback branch is never taken |
| Transfers.Guarded | packages/backend/src/transfers/transfers.service.ts:586-594 | a final overall status is never replaced by a transient one, and every other change goes through |
| Transfers.FinalizeRevertsFailedTask | packages/backend/src/transfers/transfers.service.ts:155-683 | as written: a task marked failed while its sub-tasks are still queued is put back to queued by the finalization that follows |
| Transfers.TransferIdInjective | packages/backend/src/transfers/transfers.service.ts:21 | the uuid generator never returns the same id twice |
| Transfers.Recomputed | packages/backend/src/transfers/transfers.service.ts:607-683 | the aggregation with the status passed through the final-status guard: the same progress, and a task that reached a final status keeps one |
| Transfers.RecomputedValid | packages/backend/src/transfers/transfers.service.ts:607-676 | re-aggregation keeps the transfer-task invariant: every progress value is in range, and no two sub-tasks share an id |
| Transfers.SubTaskUpdateMeaning | packages/backend/src/transfers/transfers.service.ts:549-581 | an update is refused exactly when no sub-task has the id, or when the first one with it is final and the new status is transient; an accepted update changes that sub-task alone and never takes a final sub-task out of its final state |
| Transfers.SubTaskUpdateValid | packages/backend/src/transfers/transfers.service.ts:549-581 | an accepted update keeps the transfer-task invariant and leaves the task id and every sub-task id as they were |
| Transfers.OwnedBy | packages/backend/src/transfers/transfers.service.ts:542-547 | the tasks of one user and no others, never more than the input |
| Transfers.OwnedByAppend | packages/backend/src/transfers/transfers.service.ts:545 | the filter keeps insertion order: filtering two lists joined is joining their filters |
| Transfers.TransfersService.constructor | packages/backend/src/transfers/transfers.service.ts:12-18 | the service starts with no tasks |
| Transfers.TransfersService.InitiateNewTransfer | packages/backend/src/transfers/transfers.service.ts:20-58 | a new task, put in progress by processTransferTask's synchronous start (:85-90) before it is returned, owned by the caller, whose sub-tasks are the connection-major cross product. Its id is no stored task's and no stored sub-task's id, and its sub-task ids are distinct from each other and from it. No existing task changes, and the invariant holds: every task sits under its own id and holds only ids already handed out |
| Transfers.TransfersService.UpdateSubTaskStatus | packages/backend/src/transfers/transfers.service.ts:549-581 | corrected (the re-aggregation goes through the final-status guard, see Findings): an unknown task or sub-task, or a final sub-task asked to take a transient status, changes nothing. Otherwise the first sub-task with the id takes the update and the transfer task is re-aggregated. A task in a final status stays final |
| Transfers.TransfersService.UpdateOverallTaskStatus | packages/backend/src/transfers/transfers.service.ts:583-605 | only the named task changes, and a final status is never replaced by a transient one |
| Transfers.TransfersService.UpdateOverallTaskStatusBasedOnSubTasks | packages/backend/src/transfers/transfers.service.ts:607-676 | corrected (the status goes through the final-status guard, see Findings): the task becomes Recomputed of itself, with the counting loop's rounded average and the status chain (AggregateStatusMeaning), and a final status stays final |
| Transfers.TransfersService.FinalizeOverallTaskStatus | packages/backend/src/transfers/transfers.service.ts:678-683 | corrected (the same guarded aggregation): the named task becomes Recomputed of itself, and nothing else changes |
| Transfers.TransfersService.AbortTask | packages/backend/src/transfers/transfers.service.ts:155-164 | corrected (the finalization keeps the failed status, see Findings): a task that fails before any sub-task is attempted ends in a final status |
| Transfers.TransfersService.GetTransferTaskDetails | packages/backend/src/transfers/transfers.service.ts:529-540 | a task is returned exactly when it exists and belongs to the caller |
| Transfers.TransfersService.GetAllTransferTasks | packages/backend/src/transfers/transfers.service.ts:542-547 | exactly the caller's tasks, as the filter of the stored tasks in insertion order (OwnedBy, whose order OwnedByAppend states) |
| Transfers.RemoteBase | packages/backend/src/transfers/transfers.service.ts:282-288 | the target path with exactly one trailing '/' added when it lacks one |
| Transfers.CommandEndsWithDestination | packages/backend/src/transfers/transfers.service.ts:269-321 | every command ends with the destination `user@host:'<target>/'`, after at least the program |
| Transfers.DestinationIsDirectory | packages/backend/src/transfers/transfers.service.ts:282-319 | the shell reads the destination back as the target directory with its trailing '/' |
| Transfers.ScpDirectoryIsRecursive | packages/backend/src/transfers/transfers.service.ts:307-319 | scp copies a directory recursively: `-r` follows the scp program (and sshpass, when there is one) |
| Transfers.RsyncSourceReads | packages/backend/src/transfers/transfers.service.ts:290-305 | rsync receives a directory as its contents: the shell reads the source as the path with a trailing '/', and a file as the path itself |
| ShellQuote.EscapeShellArg | packages/backend/src/transfers/transfers.service.ts:264-267 | the escaped argument starts and ends with a single quote |
| ShellQuote.ReadQuotedBody | packages/backend/src/transfers/transfers.service.ts:264-267 | inside a quote, the escaped body of a string reads back as that string |
| ShellQuote.ReadEscapedQuote | packages/backend/src/transfers/transfers.service.ts:266 | inside a quote, `'\''` reads as one literal quote |
| ShellQuote.EscapeShellArgRoundTrip | packages/backend/src/transfers/transfers.service.ts:264-267 | POSIX shell word reading of the escaped argument gives back exactly the argument, whatever quotes it contains |
| ShellQuote.EscapeWithSuffixReads | packages/backend/src/transfers/transfers.service.ts:290-305 | a quote-free suffix placed before the closing quote is appended to the word read |
| ShellQuote.QuoteBodyEndsWithSlash | packages/backend/src/transfers/transfers.service.ts:290-305 | the escaped body ends with '/' exactly when the argument does |
| ImportExport.EscapeCliArgumentQuotesWhenNeeded | packages/backend/src/services/import-export.service.ts:213-224 | a missing or blank value becomes `""`. Otherwise the argument is quoted exactly when the value holds a space or a `"`. A quoted argument has every inner `"` preceded by a backslash, and its inside reads back as the value. A value that needs no quotes is passed unchanged |
| ImportExport.DropEscapesOfEscapeQuotes | packages/backend/src/services/import-export.service.ts:221 | removing the backslashes before quotes undoes the escaping of quotes |
| ImportExport.CliArgumentRoundTrip | packages/backend/src/services/import-export.service.ts:213-224 | unquoting an escaped argument gives back every non-blank value exactly, and the empty string for a missing or blank one |
| ImportExport.TagNames | packages/backend/src/services/import-export.service.ts:285-286 | the tag names of a connection are exactly the known, non-empty names of its tag ids |
| ImportExport.ExportLines | packages/backend/src/services/import-export.service.ts:238-298 | the script has one line per connection |
| ImportExport.ExportLinesAt | packages/backend/src/services/import-export.service.ts:238-298 | line i of the script is the line of connection i |
| ImportExport.ExportLineHead | packages/backend/src/services/import-export.service.ts:239-241 | every line starts with `username@host:port -type TYPE` |
| ImportExport.AuthFlags | packages/backend/src/services/import-export.service.ts:246-262 | an SSH line carries `-p` for a password login with a password, or `-k` for a key login whose key id is known; RDP and VNC lines carry `-p` when there is a password |
| ImportExport.TagFlags | packages/backend/src/services/import-export.service.ts:285-290 | `-tags` appears exactly when some tag id has a known, non-empty name |
| ImportExport.OptionFlags | packages/backend/src/services/import-export.service.ts:242-295 | a line's options are its name, authentication, proxy, tag and note blocks, in that order |
| ImportExport.ExportLineOptions | packages/backend/src/services/import-export.service.ts:242-295 | which options a line carries, block by block, each as an if-and-only-if |
| ImportExport.NameFlagIff | packages/backend/src/services/import-export.service.ts:242-244 | `-name` appears exactly for a non-empty name other than `username@host` |
| ImportExport.PasswordFlagIff | packages/backend/src/services/import-export.service.ts:246-262 | `-p` appears exactly for an SSH password login with a password, or for RDP/VNC with a password |
| ImportExport.KeyFlagIff | packages/backend/src/services/import-export.service.ts:249-252 | `-k` appears exactly for an SSH key login (without a password login) whose non-zero key id names a known key |
| ImportExport.ProxyFlagIff | packages/backend/src/services/import-export.service.ts:264-283 | `-proxy-name` appears exactly when the connection has a proxy |
| ImportExport.TagsFlagIff | packages/backend/src/services/import-export.service.ts:285-290 | `-tags` appears exactly when some tag id has a known, non-empty name |
| ImportExport.InOptions | packages/backend/src/services/import-export.service.ts:242-295 | a flag is in a line exactly when it is in one of the line's blocks |
| ImportExport.NameFlags | packages/backend/src/services/import-export.service.ts:242-244 | the name block is `-name` exactly under the name condition |
| ImportExport.NoteFlags | packages/backend/src/services/import-export.service.ts:292-295 | the note block is `-note` exactly for a non-empty note |
| ImportExport.ProxyFlags | packages/backend/src/services/import-export.service.ts:264-283 | the proxy block holds only proxy flags, and `-proxy-name` exactly when there is a proxy |
| ImportExport.ExportScript | packages/backend/src/services/import-export.service.ts:231-300 | the script is the connections' lines, in order, joined with newlines; key names are only known when keys are included |
| ImportExport.NoKeysNoKeyOption | packages/backend/src/services/import-export.service.ts:231-251 | without included keys no line carries `-k` |
| ImportExport.Problem | packages/backend/src/services/import-export.service.ts:384-399 | the reason a record is refused, checked in the source's order. A record with no problem has a type among SSH/RDP/VNC, a name, host, port and username, an auth method of password or key for SSH, and a complete proxy if it has one. Whether a secret is present is not checked |
| ImportExport.ResolveProxy | packages/backend/src/services/import-export.service.ts:402-430 | corrected (the cache keyed by the identity itself, see Findings): the proxy id comes from the cache, or from the repository's proxy with the same name, type, host and port, or from a new proxy. The id always stands for a proxy with the record's own identity, and the cache stays sound |
| ImportExport.Step | packages/backend/src/services/import-export.service.ts:380-450 | corrected (proxies resolved by ResolveProxy): one turn of the import loop. A refused record adds one failure and one error naming the record (or its placeholder name). An accepted one queues one connection, whose proxy id stands for a proxy with the record's own identity |
| ImportExport.InitialState | packages/backend/src/services/import-export.service.ts:370-377 | the loop starts with an empty cache, which is sound |
| ImportExport.Fold | packages/backend/src/services/import-export.service.ts:380-450 | corrected (proxies resolved by ResolveProxy): after the loop has seen the records, every cached proxy id stands for a proxy with the identity it is cached under |
| ImportExport.FoldAccounting | packages/backend/src/services/import-export.service.ts:380-450 | each record either fails once with one error entry or is queued for insertion once |
| ImportExport.FoldInsertsWellFormed | packages/backend/src/services/import-export.service.ts:384-450 | only complete records are inserted: RDP and VNC always with password authentication, SSH with its own password or key method |
| ImportExport.ValidTagIds | packages/backend/src/services/import-export.service.ts:470-472 | the tag ids kept by the filter are exactly the positive ones among a connection's tag ids |
| ImportExport.TagLinks | packages/backend/src/services/import-export.service.ts:462-475 | the `connection_tags` rows pair exactly each inserted connection with each of its positive tag ids |
| ImportExport.ImportConnections | packages/backend/src/services/import-export.service.ts:355-494 | corrected (proxies resolved by ResolveProxy): a file that is not a JSON array fails outright. Otherwise every record is validated in turn. A failed transaction keeps nothing, no connection or tag link, and counts every record as failed; a failure at BEGIN TRANSACTION reports only the transaction error, a later one the records' errors followed by it. Otherwise every queued connection is inserted and linked to its tags (TagLinks) |
| ImportExport.ImportCountsCoverRecords | packages/backend/src/services/import-export.service.ts:481-492 | either way the success and failure counts add up to the number of records |
| ImportExport.CacheKeyCollides | packages/backend/src/services/import-export.service.ts:403 | as written: two different proxy identities give the same cache key |
| ImportExport.ResolveProxyAsWritten | packages/backend/src/services/import-export.service.ts:403-426 | as written, with the string cache key: a cache hit returns the cached id unchanged, and a miss gives an id standing for a proxy with the record's identity |
| ImportExport.CacheKeyMisattaches | packages/backend/src/services/import-export.service.ts:403-426 | as written: when two records carry such colliding proxies, the second record gets the proxy created for the first, which does not have its identity |
| Base64.SextetOf | packages/backend/src/services/passkey.service.ts:36 | a character of the base64 alphabet (section 4 of RFC 4648, Table 1) has a value below 64 |
| Base64.CharOfSextet | packages/backend/src/services/passkey.service.ts:36 | the alphabet is a bijection between 0..63 and its 64 characters |
| Base64.DecodedLength | packages/backend/src/services/passkey.service.ts:36 | a decoding has three octets per four characters, and one fewer for each character short of a group |
| Base64.EncodeCharsBase64 | packages/backend/src/services/passkey.service.ts:128 | the unpadded encoding uses only alphabet characters |
| Base64.EncodeCharsLength | packages/backend/src/services/passkey.service.ts:128 | the unpadded encoding never leaves a lone character in its last group |
| Base64.GroupArith | packages/backend/src/services/passkey.service.ts:36-128 | splitting three octets into four sextets and joining them back is the identity |
| Base64.DecodeEncodeChars | packages/backend/src/services/passkey.service.ts:36-128 | decoding undoes the unpadded encoding |
| Base64.StripEncoded | packages/backend/src/services/passkey.service.ts:36-128 | the padded encoding's length is a multiple of four, and decoding strips exactly its padding |
| Base64.RemoveKeepsOthers | packages/backend/src/services/passkey.service.ts:36 | the first step of `atob` (the forgiving-base64 decode of the HTML standard) removes exactly the ASCII whitespace and keeps every other character |
| Base64.RemoveAppend | packages/backend/src/services/passkey.service.ts:36 | removing whitespace from two joined strings is removing it from each |
| Base64.AtobEncode | packages/backend/src/services/passkey.service.ts:36-128 | `atob` reads back as a binary string what `Buffer.toString('base64')` wrote |
| Passkey.PadLengthMeaning | packages/backend/src/services/passkey.service.ts:33-34 | the padding brings the length to the next multiple of four with fewer than four '=' |
| Passkey.StandardAlphabetAt | packages/backend/src/services/passkey.service.ts:32 | after the replacement no URL-safe character remains and nothing else changes |
| Passkey.StandardOfUrl | packages/backend/src/services/passkey.service.ts:32 | the URL-safe and standard replacements undo each other on strings without '-' and '_' |
| Passkey.PaddedLength | packages/backend/src/services/passkey.service.ts:32-34 | the padded string's length is a multiple of four and exceeds the input's by fewer than four |
| Passkey.OneModFourRejected | packages/backend/src/services/passkey.service.ts:36-45 | an input whose length is 1 modulo 4 cannot be decoded, so the call throws |
| Passkey.DecodedSize | packages/backend/src/services/passkey.service.ts:36-40 | the byte array has three octets per four characters that `atob` keeps after removing whitespace and padding, one fewer per character short of a group; for an input without whitespace, three per four padded characters minus one for each '=' |
| Passkey.Uint8sOfBinary | packages/backend/src/services/passkey.service.ts:37-40 | copying the char codes of a binary string gives back its octets |
| Passkey.NoUrlChars | packages/backend/src/services/passkey.service.ts:32-128 | an encoding, padded or not, contains neither character of the URL-safe alphabet |
| Passkey.DecodesUnpadded | packages/backend/src/services/passkey.service.ts:31-46 | a credential id in the unpadded base64url form (section 5 of RFC 4648) decodes back to the octets it was made from |
| Passkey.PadUnpadded | packages/backend/src/services/passkey.service.ts:33-34 | padding the unpadded base64url form restores the padded encoding |
| Passkey.DecodesPadded | packages/backend/src/services/passkey.service.ts:31-46 | the padded base64url form decodes back to its octets too |
| Passkey.Base64UrlToUint8Array | packages/backend/src/services/passkey.service.ts:31-46 | throws `Invalid base64url string` when `atob` rejects the padded standard-alphabet string; otherwise returns a new array holding the octets `atob` decoded |
| Passkey.PasskeyService.constructor | packages/backend/src/services/passkey.service.ts:48-52 | the service starts over the given users and stored passkeys |
| Passkey.PasskeyService.GenerateRegistrationOptions | packages/backend/src/services/passkey.service.ts:54-86 | refused unless the user exists under that name; otherwise the options name the user, carry its id as a string that parses back to the id, exclude exactly the user's existing passkeys, and use the source's timeout, attestation and algorithms |
| Passkey.PasskeyService.VerifyRegistration | packages/backend/src/services/passkey.service.ts:88-141 | the user handle must parse to a known user; a verified response with complete information proposes a new row for that user, whose stored public key decodes back to the key sent; incomplete information throws |
| Passkey.PasskeyService.VerifyAuthentication | packages/backend/src/services/passkey.service.ts:169-209 | refused for a missing credential id, an unknown passkey, a stored id that is not base64url, or a failed verification, changing nothing; on success only that passkey's counter and last use change, and its owner is returned |
| Passkey.PasskeyService.DeletePasskey | packages/backend/src/services/passkey.service.ts:223-234 | only the owner of a known passkey deletes it; any other request throws and deletes nothing |
| SessionStore.SessionIdInjective | packages/frontend/src/stores/session/actions/sessionActions.ts:40 | session ids are never handed out twice |
| SessionStore.UuidInjective | packages/frontend/src/stores/session/actions/sshSuspendActions.ts:203 | nor are the uuids that name resumed sessions |
| SessionStore.UuidNotSessionId | packages/frontend/src/stores/session/actions/sshSuspendActions.ts:203 | a uuid is never a generated session id |
| SessionStore.TabsFollowKeys | packages/frontend/src/stores/session/getters.ts:7-22 | the tabs are the sessions in map order, each carrying its own key, connection name, status and suspend mark |
| SessionStore.ActiveSessionMeaning | packages/frontend/src/stores/session/getters.ts:24-27 | the active session is present exactly when an id is active and is the session under that id; the falsy-id test only ever catches null |
| SessionStore.PutSameIdValid | packages/frontend/src/stores/session/actions/sshSuspendActions.ts:386-402 | replacing a session's record under the same id keeps the store valid and the map's order |
| SessionStore.FindConnection | packages/frontend/src/stores/session/actions/sessionActions.ts:19-21 | the connection with that id, or none when no connection has it |
| SessionStore.OpenUnknownConnection | packages/frontend/src/stores/session/actions/sessionActions.ts:33-38 | opening a session for an unknown connection changes nothing |
| SessionStore.OpenAddsOneFreshSession | packages/frontend/src/stores/session/actions/sessionActions.ts:24-92 | opening a session for a known connection adds exactly one session, under an id no session had, at the end of the map, and makes it active; the store stays valid |
| SessionStore.ActivateMeaning | packages/frontend/src/stores/session/actions/sessionActions.ts:94-105 | the active id changes exactly when the id names a session, and nothing else changes |
| SessionStore.CloseMeaning | packages/frontend/src/stores/session/actions/sessionActions.ts:107-143 | closing removes exactly that session and keeps the others in order; closing the active session activates the last remaining one (none when nothing remains); otherwise the active id is kept; an unknown id changes nothing |
| SessionStore.ConnectRequestPaths | packages/frontend/src/stores/session/actions/sessionActions.ts:145-190 | RDP and VNC only open their modal; an SSH click on the active tab's own connection while it is disconnected or failed reconnects that tab in place; any other click opens a new session |
| SessionStore.GenerateSessionId | packages/frontend/src/stores/session/actions/sessionActions.ts:40 | each call returns a new id from the counter |
| SessionStore.OpenNewSession | packages/frontend/src/stores/session/actions/sessionActions.ts:24-92 | the store moves by the open step, so OpenUnknownConnection and OpenAddsOneFreshSession hold of the method |
| SessionStore.ActivateSession | packages/frontend/src/stores/session/actions/sessionActions.ts:94-105 | the store moves by the activate step (ActivateMeaning) |
| SessionStore.CloseSession | packages/frontend/src/stores/session/actions/sessionActions.ts:107-143 | the store moves by the close step (CloseMeaning) |
| SessionStore.HandleConnectRequest | packages/frontend/src/stores/session/actions/sessionActions.ts:145-190 | the store moves by the connect-request step (ConnectRequestPaths) |
| SessionStore.CleanupAllSessions | packages/frontend/src/stores/session/actions/sessionActions.ts:203-214 | every session is closed in map order, the map ends empty and no session is active |
| SessionStore.CloseFirstSession | packages/frontend/src/stores/session/actions/sessionActions.ts:205-207 | one round of the loop closes the session that is now first |
| SessionStore.CloseFirst | packages/frontend/src/stores/session/actions/sessionActions.ts:205-207 | closing the first session drops exactly the first key and records its closing |
| SuspendActions.FirstIndexFrom | packages/frontend/src/stores/session/actions/sshSuspendActions.ts:281 | `findIndex` by suspend id: the first match, or none when no entry matches |
| SuspendActions.RemoveFirstMeaning | packages/frontend/src/stores/session/actions/sshSuspendActions.ts:281-285 | removing the first entry with an id deletes that one entry and keeps the rest in order; an unknown id leaves the list unchanged |
| SuspendActions.MarkDisconnectedMeaning | packages/frontend/src/stores/session/actions/sshSuspendActions.ts:591-595 | the notice marks the first entry with that id as disconnected by the backend at `now` and changes nothing else; an unknown id is a no-op |
| SuspendActions.FirstConnectedMeaning | packages/frontend/src/stores/session/actions/sshSuspendActions.ts:37-66 | the manager chosen is connected and no earlier session has a connected one; none is chosen only when no session is connected |
| SuspendActions.GetActiveWsManager | packages/frontend/src/stores/session/actions/sshSuspendActions.ts:37-66 | the first session when its manager is connected, else the first connected one in map order, else none |
| SuspendActions.WithNewlinesJoin | packages/frontend/src/stores/session/actions/sshSuspendActions.ts:82-93 | lines each followed by a newline are the lines joined by newlines plus one trailing newline |
| SuspendActions.BuildInitialBuffer | packages/frontend/src/stores/session/actions/sshSuspendActions.ts:82-93 | the loop builds the terminal's lines joined by newlines |
| SuspendActions.MarkRequestMeaning | packages/frontend/src/stores/session/actions/sshSuspendActions.ts:73-152 | a mark request goes out only for a present, connected session, on that session's own manager, with the terminal's lines and no buffer when the text is empty; an unmark request also needs the session to be marked; nothing else in the store changes |
| SuspendActions.RequestStartSshSuspend | packages/frontend/src/stores/session/actions/sshSuspendActions.ts:73-121 | the store moves by the mark-request step (MarkRequestMeaning) |
| SuspendActions.RequestUnmarkSshSuspend | packages/frontend/src/stores/session/actions/sshSuspendActions.ts:123-152 | the store moves by the unmark-request step (MarkRequestMeaning) |
| SuspendActions.FetchSuspendedSshSessions | packages/frontend/src/stores/session/actions/sshSuspendActions.ts:154-179 | on success the list becomes the fetched one; on failure the old list is kept and an error notice is shown; loading ends either way |
| SuspendActions.DeleteEntryFailureKeepsList | packages/frontend/src/stores/session/actions/sshSuspendActions.ts:272-584 | the failure paths of the delete calls and replies leave the list and the sessions as they were |
| SuspendActions.DeleteEntry | packages/frontend/src/stores/session/actions/sshSuspendActions.ts:272-325 | the shared body of both delete actions: the store moves by the delete step (RemoveFirstMeaning, DeleteEntryFailureKeepsList) |
| SuspendActions.TerminateAndRemoveSshSession | packages/frontend/src/stores/session/actions/sshSuspendActions.ts:272-296 | on success the first entry with the id is removed; on failure the list is kept and an error is shown |
| SuspendActions.RemoveSshSessionEntry | packages/frontend/src/stores/session/actions/sshSuspendActions.ts:302-325 | on success the first entry with the id is removed; on failure the list is kept and an error is shown |
| SuspendActions.EditNameMeaning | packages/frontend/src/stores/session/actions/sshSuspendActions.ts:332-370 | a successful rename changes only the custom name of the first entry with that id; a failed one changes nothing in the list |
| SuspendActions.EditSshSessionName | packages/frontend/src/stores/session/actions/sshSuspendActions.ts:332-370 | the store moves by the rename step (EditNameMeaning) |
| SuspendActions.DrawUuid | packages/frontend/src/stores/session/actions/sshSuspendActions.ts:203 | the uuid drawn is fresh: no session, and no session id still to be generated, uses it |
| SuspendActions.OpenAddsValid | packages/frontend/src/stores/session/actions/sessionActions.ts:24-92 | opening a session keeps the store invariant |
| SuspendActions.OpenWithFreshId | packages/frontend/src/stores/session/actions/sshSuspendActions.ts:209-215 | opening a session under a fresh id keeps the store valid and puts the id last in the map, active |
| SuspendActions.ResumeGuards | packages/frontend/src/stores/session/actions/sshSuspendActions.ts:186-201 | an entry that is not listed, or whose connection id is not a number, gives an error notice before anything is opened |
| SuspendActions.ResumeAsWrittenNeverSends | packages/frontend/src/stores/session/actions/sshSuspendActions.ts:203-220 | as written: the lookup by the uuid never finds the session just opened under a generated id, so no resume request is sent and that session stays open and active |
| SuspendActions.ResumeSendsRequest | packages/frontend/src/stores/session/actions/sshSuspendActions.ts:203-249 | with the id passed through, a known connection whose socket connects in time gets the resume request for that suspended session, on the new session's own manager; the session is active and last in the map |
| SuspendActions.ResumeTimeoutCloses | packages/frontend/src/stores/session/actions/sshSuspendActions.ts:222-266 | when the new socket does not connect in time, the resumed session is closed again and the map is as before |
| SuspendActions.ContinueMeaning | packages/frontend/src/stores/session/actions/sshSuspendActions.ts:216-249 | the rest of a resume on a present session: either it is connected and sent the request, or it is closed |
| SuspendActions.ResumeSshSessionAsWritten | packages/frontend/src/stores/session/actions/sshSuspendActions.ts:181-266 | as written: the store moves by the as-written resume step (ResumeGuards, ResumeAsWrittenNeverSends) |
| SuspendActions.ResumeSshSession | packages/frontend/src/stores/session/actions/sshSuspendActions.ts:181-266 | corrected: the store moves by the resume step with the new id passed through (ResumeGuards, ResumeSendsRequest, ResumeTimeoutCloses) |
| SuspendActions.ResumeAsWrittenFrom | packages/frontend/src/stores/session/actions/sshSuspendActions.ts:209-266 | as written, once the new id is drawn: the session is opened under a generated id and the rest of the resume follows (ResumeAsWrittenNeverSends) |
| SuspendActions.OpenWithId | packages/frontend/src/stores/session/actions/sessionActions.ts:24-92 | opening under a given fresh id: a known connection adds that session last, makes it active and connects it, and the store stays valid (OpenWithFreshId) |
| SuspendActions.ResumeContinue | packages/frontend/src/stores/session/actions/sshSuspendActions.ts:216-249 | the store moves by the continuation step (ContinueMeaning) |
| SuspendActions.MarkedAckMeaning | packages/frontend/src/stores/session/actions/sshSuspendActions.ts:373-404 | the mark acknowledgement sets the named session's flag to the reply's success; no other session changes and the map keeps its order |
| SuspendActions.UnmarkedAckMeaning | packages/frontend/src/stores/session/actions/sshSuspendActions.ts:406-431 | a successful unmark acknowledgement clears the named session's flag and a failed one leaves the sessions unchanged; no other session changes and the map keeps its order |
| SuspendActions.HandleMarkedForSuspendAck | packages/frontend/src/stores/session/actions/sshSuspendActions.ts:373-404 | the store moves by the mark-acknowledgement step (MarkedAckMeaning) |
| SuspendActions.HandleUnmarkedForSuspendAck | packages/frontend/src/stores/session/actions/sshSuspendActions.ts:406-431 | the store moves by the unmark-acknowledgement step (UnmarkedAckMeaning) |
| SuspendActions.HandleListResponse | packages/frontend/src/stores/session/actions/sshSuspendActions.ts:433-437 | the list becomes the reply's list and loading ends |
| SuspendActions.ResumedNotifMeaning | packages/frontend/src/stores/session/actions/sshSuspendActions.ts:439-509 | a successful notice flags the named session as resuming, makes it active and asks for the list again; a failed one closes that session; the store stays valid |
| SuspendActions.HandleResumedNotif | packages/frontend/src/stores/session/actions/sshSuspendActions.ts:439-509 | the store moves by the resumed-notice step (ResumedNotifMeaning) |
| SuspendActions.CachedChunkStep | packages/frontend/src/stores/session/actions/sshSuspendActions.ts:511-542 | a chunk is written when the terminal exists and held back otherwise; the sessions stay a valid map |
| SuspendActions.ChunkMeaning | packages/frontend/src/stores/session/actions/sshSuspendActions.ts:513-526 | one chunk lands at the end of the session's written or pending output, and nothing else changes |
| SuspendActions.ChunksInOrder | packages/frontend/src/stores/session/actions/sshSuspendActions.ts:511-542 | cached chunks reach the terminal, or its pending output, whole and in arrival order; an unknown session ignores them |
| SuspendActions.HandleOutputCachedChunk | packages/frontend/src/stores/session/actions/sshSuspendActions.ts:511-542 | the store moves by the chunk step (ChunkMeaning, ChunksInOrder) |
| SuspendActions.HandleDeleteResp | packages/frontend/src/stores/session/actions/sshSuspendActions.ts:544-584 | the terminated and removed replies remove the entry on success, like the HTTP actions |
| SuspendActions.HandleAutoTerminatedNotif | packages/frontend/src/stores/session/actions/sshSuspendActions.ts:588-602 | the entry is marked disconnected, and a warning is shown exactly when the entry was listed |
| FileUploader.JoinPathMeaning | packages/frontend/src/composables/useFileUploader.ts:17-21 | joinPath puts exactly one separator between base and name: the base's own trailing '/', or one added |
| FileUploader.CollapseEnds | packages/frontend/src/composables/useFileUploader.ts:130-144 | collapsing repeated slashes keeps the first and last characters and never lengthens the path |
| FileUploader.CollapseNoDoubleSlash | packages/frontend/src/composables/useFileUploader.ts:130-144 | the collapsed path never contains "//" |
| FileUploader.CollapseFixes | packages/frontend/src/composables/useFileUploader.ts:130-144 | a path without "//" is left as it is |
| FileUploader.CollapseIdempotent | packages/frontend/src/composables/useFileUploader.ts:130-144 | collapsing twice is the same as collapsing once |
| FileUploader.CollapseAppend | packages/frontend/src/composables/useFileUploader.ts:130-144 | text without '/' after a path survives collapsing unchanged |
| FileUploader.RawPathSplit | packages/frontend/src/composables/useFileUploader.ts:130-144 | before collapsing, the file name follows a folder ending in '/' |
| FileUploader.RemotePathShape | packages/frontend/src/composables/useFileUploader.ts:130-144 | the remote path never contains "//", and a plain file name ends it right after a '/', under the current directory or the relative folder inside it |
| FileUploader.UploadIdInjective | packages/frontend/src/composables/useFileUploader.ts:12 | upload ids are never handed out twice |
| FileUploader.ChunkCountMeaning | packages/frontend/src/composables/useFileUploader.ts:44-76 | an index is below the chunk count exactly when its chunk starts inside the file |
| FileUploader.ChunksTile | packages/frontend/src/composables/useFileUploader.ts:44-76 | the chunks tile the file: numbered from 0 at offset 0, each starting where the previous one ended, the last ending at the file's size, none longer than 64 KiB and none empty unless the file is, and only the last flagged as last |
| FileUploader.StartAddsOnePending | packages/frontend/src/composables/useFileUploader.ts:121-164 | starting while disconnected does nothing; otherwise one entry is added, under an id no entry had, pending at progress 0, the start message carries the computed path, and every other entry is left alone |
| FileUploader.StatusTransitions | packages/frontend/src/composables/useFileUploader.ts:187-287 | ready moves pending to uploading, pause moves uploading to paused, resume moves paused to uploading, cancel moves pending, uploading or paused to cancelled; a message for an entry in any other status leaves it as it is, and no handler creates an entry |
| FileUploader.UnknownIdIgnored | packages/frontend/src/composables/useFileUploader.ts:166-321 | every handler for an id with no entry changes nothing |
| FileUploader.SuccessAndError | packages/frontend/src/composables/useFileUploader.ts:201-246 | success removes the entry at once; an error keeps it in status error, with the payload's text when there is one |
| FileUploader.ReadyAndResumeSendFromStart | packages/frontend/src/composables/useFileUploader.ts:187-267 | when connected, a ready upload starts reading its file at byte 0 as chunk 0, and resuming a paused upload starts again at byte 0, not where it stopped; a zero-byte file sends its one empty last chunk at once and shows 100%; disconnected, nothing is sent or read |
| FileUploader.ChunkLoadedSends | packages/frontend/src/composables/useFileUploader.ts:50-84 | one load sends at most one message: the chunk of the tiling its read was for, sent exactly when the socket is connected and the upload still in progress; the reader then moves to the following chunk if there is one |
| FileUploader.ReadFailureMarksError | packages/frontend/src/composables/useFileUploader.ts:78-95 | a read error, or a result that is not a data URL while uploading, marks the upload failed with the read-error message and sends nothing |
| FileUploader.PumpSendsInOrder | packages/frontend/src/composables/useFileUploader.ts:50-104 | with one read in flight at chunk i and no other event, n loads send chunks i to i+n-1 in order |
| FileUploader.ReadySendsPrefix | packages/frontend/src/composables/useFileUploader.ts:36-199 | the chunks an upload sends are a prefix of its tiling: m loads after a ready message the first m chunks are sent, all of them after the last load; a pause or lost connection after m chunks stops the upload there, the next load sending nothing and ending the reader |
| FileUploader.SameIdsValid | packages/frontend/src/composables/useFileUploader.ts:166-321 | a handler that only edits or removes entries under their own ids keeps the uploader's invariant |
| FileUploader.SendChunksKeepsValid | packages/frontend/src/composables/useFileUploader.ts:36-118 | starting to send keeps the invariant: the first read is at chunk 0 of a non-empty file |
| FileUploader.ReadsKeepValid | packages/frontend/src/composables/useFileUploader.ts:50-104 | after a load or a read error every read in flight is still at the start of a chunk of its file |
| FileUploader.ProgressMeaning | packages/frontend/src/composables/useFileUploader.ts:289-321 | progress is set only while uploading and lies in 0..100; below 100 it is 100·bytesWritten/totalSize rounded to the nearest integer, halves up, computed exactly (the source's doubles can round an exact half down, see Left out) |
| FileUploader.ExpireMeaning | packages/frontend/src/composables/useFileUploader.ts:177-280 | a delayed removal deletes an entry only if it is still in the status it was scheduled for |
| FileUploader.Uploader.constructor | packages/frontend/src/composables/useFileUploader.ts:31 | no uploads, nothing sent, no read in flight; the invariant holds |
| FileUploader.Uploader.SendFileChunks | packages/frontend/src/composables/useFileUploader.ts:36-118 | refused unless connected and uploading; a zero-byte file sends its empty last chunk, any other starts the read of chunk 0; the invariant is kept |
| FileUploader.Uploader.ReadNextChunk | packages/frontend/src/composables/useFileUploader.ts:97-104 | a read starts only inside the file and while the upload is in progress |
| FileUploader.Uploader.OnChunkLoaded | packages/frontend/src/composables/useFileUploader.ts:50-84 | the load step (ChunkLoadedSends, ReadFailureMarksError): the connection and the status are checked again before each chunk; the invariant is kept |
| FileUploader.Uploader.OnReadError | packages/frontend/src/composables/useFileUploader.ts:87-95 | the read-error step (ReadFailureMarksError); the invariant is kept |
| FileUploader.Uploader.StartFileUpload | packages/frontend/src/composables/useFileUploader.ts:121-164 | the state moves by the start step (StartAddsOnePending) |
| FileUploader.Uploader.CancelUpload | packages/frontend/src/composables/useFileUploader.ts:166-185 | the state moves by the cancel step (StatusTransitions) |
| FileUploader.Uploader.OnUploadReady | packages/frontend/src/composables/useFileUploader.ts:187-199 | the state moves by the ready step (StatusTransitions, ReadyAndResumeSendFromStart, ReadySendsPrefix); the invariant is kept |
| FileUploader.Uploader.OnUploadSuccess | packages/frontend/src/composables/useFileUploader.ts:201-220 | the state moves by the success step (SuccessAndError) |
| FileUploader.Uploader.OnUploadError | packages/frontend/src/composables/useFileUploader.ts:222-246 | the state moves by the error step (SuccessAndError) |
| FileUploader.Uploader.OnUploadPause | packages/frontend/src/composables/useFileUploader.ts:248-256 | the state moves by the pause step (StatusTransitions) |
| FileUploader.Uploader.OnUploadResume | packages/frontend/src/composables/useFileUploader.ts:258-267 | the state moves by the resume step (ReadyAndResumeSendFromStart) |
| FileUploader.Uploader.OnUploadCancelled | packages/frontend/src/composables/useFileUploader.ts:269-287 | the state moves by the cancelled step (StatusTransitions) |
| FileUploader.Uploader.OnUploadProgress | packages/frontend/src/composables/useFileUploader.ts:289-321 | the state moves by the progress step (ProgressMeaning), with its exact rounding |
| FileUploader.Uploader.Expire | packages/frontend/src/composables/useFileUploader.ts:177-280 | the timer callback moves the state by the expire step (ExpireMeaning) |
| FileContextMenu.Lower | packages/frontend/src/composables/file-manager/useFileManagerContextMenu.ts:56-60 | `toLowerCase` keeps the length and lower-cases each ASCII letter |
| FileContextMenu.ArchiveIgnoresCase | packages/frontend/src/composables/file-manager/useFileManagerContextMenu.ts:56-60 | the archive check ignores letter case, and any name ending in one of the five extensions, in any case, is an archive |
| FileContextMenu.FindIndex | packages/frontend/src/composables/file-manager/useFileManagerContextMenu.ts:97-105 | `findIndex` by name: the first match, or -1 exactly when no file has the name |
| FileContextMenu.Find | packages/frontend/src/composables/file-manager/useFileManagerContextMenu.ts:117-138 | `find` by name returns the entry at the first matching index, or nothing |
| FileContextMenu.AllFilesResolvedMeaning | packages/frontend/src/composables/file-manager/useFileManagerContextMenu.ts:117-138 | the multi-download condition as written is the same as: every selected name resolves to a file |
| FileContextMenu.MultiMenu | packages/frontend/src/composables/file-manager/useFileManagerContextMenu.ts:117-138 | the multi-item menu offers download exactly when every selected item is a file, never offers decompress or paste, and disables every entry except compress when SFTP is not ready |
| FileContextMenu.ItemMenuHead | packages/frontend/src/composables/file-manager/useFileManagerContextMenu.ts:141-150 | the download, cut, copy and paste entries of one item keep the single-target rules and offer no decompress |
| FileContextMenu.ItemMenu | packages/frontend/src/composables/file-manager/useFileManagerContextMenu.ts:139-173 | decompress is offered exactly for a file with a supported archive name while SFTP is ready, and the single-target rules hold |
| FileContextMenu.BuildMenu | packages/frontend/src/composables/file-manager/useFileManagerContextMenu.ts:107-187 | the menu built for the selection satisfies every rule of the menu (which entries appear, which are disabled, for the background, '..', one item or several) |
| FileContextMenu.SftpInstanceIdMeaning | packages/frontend/src/composables/file-manager/useFileManagerContextMenu.ts:189-190 | the id is absent only when the connection id is, and a numeric id reads back as the same number |
| FileContextMenu.FileSelection.constructor | packages/frontend/src/composables/file-manager/useFileManagerContextMenu.ts:26-27 | nothing selected (so no name twice), no anchor, nothing emitted |
| FileContextMenu.FileSelection.AdjustSelection | packages/frontend/src/composables/file-manager/useFileManagerContextMenu.ts:97-105 | an unselected item clicked without ctrl, meta or shift becomes the only selected item and the range anchor; a click on the background clears the selection; anything else leaves it; the selection keeps holding no name twice |
| FileContextMenu.FileSelection.ShowContextMenu | packages/frontend/src/composables/file-manager/useFileManagerContextMenu.ts:92-204 | an unselected item clicked without ctrl, meta or shift becomes the only selected item and the range anchor, a click on the background clears the selection, and a modifier click or a click on a selected item leaves selection and anchor as they were; the selection never holds a name twice; the one menu emitted satisfies the menu rules for that selection, names the clicked item, lists the selected items and carries the current directory and SFTP instance id |
| CaptchaSettings.DecideMeaning | packages/frontend/src/composables/settings/useCaptchaSettings.ts:68-116 | nothing is checked when CAPTCHA is off or the provider is none, or when the site key is the stored one and no secret key is entered; otherwise both keys of the chosen provider must be entered, and then exactly those two are sent for verification |
| CaptchaSettings.SyncedFormNeedsNoVerification | packages/frontend/src/composables/settings/useCaptchaSettings.ts:37-116 | right after the form follows the stored settings, saving needs no verification |
| CaptchaSettings.DtoMeaning | packages/frontend/src/composables/settings/useCaptchaSettings.ts:133-140 | the saved object drops exactly the empty keys, and the form's keys can be read back from it |
| CaptchaSettings.UpdateMeaning | packages/frontend/src/composables/settings/useCaptchaSettings.ts:57-156 | a save always ends with loading off; it succeeds exactly when the keys were complete, the verification (if any) passed and the save returned; the saved object is then the form's, both secret keys are cleared and nothing else changes; otherwise the form is unchanged |
| CaptchaSettings.CaptchaSettingsForm.constructor | packages/frontend/src/composables/settings/useCaptchaSettings.ts:24-35 | the form starts disabled, without a provider or keys, and not loading |
| CaptchaSettings.CaptchaSettingsForm.Sync | packages/frontend/src/composables/settings/useCaptchaSettings.ts:37-55 | the form follows the stored settings, and both secret keys are blank |
| CaptchaSettings.CaptchaSettingsForm.HandleUpdate | packages/frontend/src/composables/settings/useCaptchaSettings.ts:57-156 | the form moves by the save step (UpdateMeaning) |
| CaptchaSettings.CaptchaSettingsForm.PlanVerification | packages/frontend/src/composables/settings/useCaptchaSettings.ts:67-116 | the keys to verify are exactly those the decision picks (DecideMeaning) |
| CaptchaSettings.CaptchaSettingsForm.Save | packages/frontend/src/composables/settings/useCaptchaSettings.ts:143-155 | the form moves by the save step: on success the secrets are cleared and the saved message shown |
| SystemSettings.StatusIntervalValidMeaning | packages/frontend/src/composables/settings/useSystemSettings.ts:92 | the status-monitor interval is accepted exactly when it is a whole number of at least one second |
| SystemSettings.DockerGuardIsWeaker | packages/frontend/src/composables/settings/useSystemSettings.ts:92-120 | every interval the status monitor accepts, the Docker section accepts too, but 1.5 is accepted only by Docker |
| SystemSettings.PlainSaveMeaning | packages/frontend/src/composables/settings/useSystemSettings.ts:28-78 | every save ends with loading off; the language and time-zone saves send the selected value; the section succeeds exactly when the store returned, and a failure shows the error's own text or the generic one; nothing else changes |
| SystemSettings.StatusSaveMeaning | packages/frontend/src/composables/settings/useSystemSettings.ts:86-105 | the interval's decimal text is sent exactly when the interval is a whole number of at least one; otherwise the invalid-interval message is shown; the section succeeds exactly when the interval is valid and the store returned |
| SystemSettings.DockerSaveMeaning | packages/frontend/src/composables/settings/useSystemSettings.ts:114-136 | the interval and the expand flag as 'true' or 'false' are sent exactly when the interval is a number of at least one; the section succeeds exactly when they were sent and the store returned |
| SystemSettings.SettingOr | packages/frontend/src/composables/settings/useSystemSettings.ts:139-149 | `settings[key] \|\| fallback`: a missing or empty setting takes the fallback |
| SystemSettings.WatchDefaults | packages/frontend/src/composables/settings/useSystemSettings.ts:139-149 | with none of its settings stored the form shows en-US, UTC, 3 seconds, 2 seconds and collapsed |
| SystemSettings.SavedSettingsReadBack | packages/frontend/src/composables/settings/useSystemSettings.ts:86-149 | what a save writes, the watcher reads back: a whole status interval, a whole Docker interval and the expand flag return to the form unchanged |
| SystemSettings.SystemSettingsForm.constructor | packages/frontend/src/composables/settings/useSystemSettings.ts:18-112 | the form starts with the store's language and the default values |
| SystemSettings.SystemSettingsForm.HandleUpdateLanguage | packages/frontend/src/composables/settings/useSystemSettings.ts:28-45 | the form moves by the language save (PlainSaveMeaning) |
| SystemSettings.SystemSettingsForm.HandleUpdateTimezone | packages/frontend/src/composables/settings/useSystemSettings.ts:63-78 | the form moves by the time-zone save (PlainSaveMeaning) |
| SystemSettings.SystemSettingsForm.HandleUpdateStatusMonitorInterval | packages/frontend/src/composables/settings/useSystemSettings.ts:86-105 | the form moves by the status-monitor save (StatusSaveMeaning) |
| SystemSettings.SystemSettingsForm.HandleUpdateDockerSettings | packages/frontend/src/composables/settings/useSystemSettings.ts:114-136 | the form moves by the Docker save (DockerSaveMeaning) |
| SystemSettings.SystemSettingsForm.OnSettingsChanged | packages/frontend/src/composables/settings/useSystemSettings.ts:139-149 | the form moves by the watcher step (WatchDefaults, SavedSettingsReadBack) |
| SystemSettings.SystemSettingsForm.OnDockerDefaultExpandChanged | packages/frontend/src/composables/settings/useSystemSettings.ts:152-154 | the local expand flag follows the store's |
| SystemSettings.SystemSettingsForm.OnStatusMonitorIntervalChanged | packages/frontend/src/composables/settings/useSystemSettings.ts:157-159 | the local interval follows the store's |
| SystemSettings.SystemSettingsForm.OnStoreLanguageChanged | packages/frontend/src/composables/settings/useSystemSettings.ts:162-164 | the selected language follows the store's |
| Strings.ParseIntOfIntToString | packages/backend/src/services/passkey.service.ts:93-96 | the decimal text of an integer, as sent in the registration options, is read back by `parseInt(_, 10)` as that integer |

## Left out

- ssh2, WebSocket and HTTP I/O. Network traffic, socket buffers and library calls are not modelled. Their results are `Outcome` parameters, and what is sent is recorded in `sent` and `effects` sequences.
- The body of processTransferTask (SFTP staging, key files, remote command execution). Only its status path is modelled: the in-progress step before its first await is part of `Transfers.TransfersService.InitiateNewTransfer`, and an early failure after it is `Transfers.TransfersService.AbortTask`.
- The temporary log store (`temporary-log-storage.service.ts`), which is not part of this model. It is a map from suspend id to text. Reading a missing log gives "". Whether `ensureLogDirectoryExists`, `readLog` or `deleteLog` raises is a parameter, and a raise happens at its own await, after whatever the engine changed before it. A failure of the appends done by the data listener is not modelled.
- The WebAuthn checks of `@simplewebauthn/server`. Their verdicts (`verified`, registration info, new counter) are parameters, and challenges and origins are not modelled.
- The repositories, SQLite transactions, encryption, `archiver` zip output and settings persistence. The repositories are maps passed in, and how the transaction ends (committed, failed at BEGIN, or failed later) is a parameter of `ImportExport.ImportConnections`.
- Vue reactivity, i18n texts, console logging and the order of watcher callbacks. Each watcher is a method called with the new value, and notices are kept as their level only.
- `setTimeout` delays. A delayed removal in the uploader is the separate step `FileUploader.Uploader.Expire`, and the heartbeat's 5000 ms interval is one call of `Heartbeat.HeartbeatServer.Tick` per firing.
- The file's bytes and the chunk payloads in the uploader. A chunk is its byte range (offset, end, index, isLast) rather than base64 data. Each `readAsDataURL` in flight is a `Reader` value; its `onload` or `onerror` is a step that the caller picks, so any order of loads and other messages can be expressed. The `nextTick` before the next read is folded into the load, since no message handler can run between the two.
- `generateSessionId` (`stores/session/utils.ts`), `uuidv4` and `Date.now()`/`Math.random()`, which are not part of this model. Each is drawn from a counter with a fixed prefix, which keeps the one property the code relies on: an id is never handed out twice.
- The internals of `useWebSocketConnection` and the terminal, SFTP, status-monitor and Docker managers. A session's manager is its `isConnected` flag, and creating and cleaning up the managers are the `Connect` and `Closed` effects.
- `registerSshSuspendHandlers` (sshSuspendActions.ts:609), which only wires message types to the handlers that are modelled. Its tag mismatch is described below.
- The `onUnmounted` cleanup of the uploader, which cancels every upload. It is a loop of `CancelUpload` calls with nothing new to state.
- The rest of the repository: RDP/VNC proxying (guacamole), version checks, Electron packaging, configuration, other services and views.
- Integer widths. JavaScript numbers are modelled as unbounded integers. Floating point appears only in the settings intervals (`real`, with NaN as a constructor) and in the upload progress, which is computed exactly in integers; where that differs from the source's double arithmetic is stated under FileUploader.ProgressMeaning below.
- User ids in the transfers service. The source's `string | number` user id is modelled as one numeric type (`int`), so its strict `===` comparison cannot tell a task owned by "1" from one owned by 1; in the source such a task is not listed for, or reachable by, caller 1.
- Transfers.TransfersService.UpdateSubTaskStatus: models the corrected code, in which the re-aggregation goes through the final-status guard. The source stores the aggregate unguarded; that behaviour is `Transfers.FinalizeRevertsFailedTask` (see Findings).
- Transfers.TransfersService.UpdateOverallTaskStatusBasedOnSubTasks: models the corrected code, in which the recomputed status goes through the final-status guard; the source stores it unguarded (see Findings).
- Transfers.TransfersService.FinalizeOverallTaskStatus: models the corrected, guarded recomputation, for the same reason.
- Transfers.TransfersService.AbortTask: models the corrected code, in which the failed status is kept. In the source the finalization can turn it back into a transient status, which `Transfers.FinalizeRevertsFailedTask` exhibits.
- ImportExport.ResolveProxy: models the corrected proxy cache, keyed by the proxy's identity itself. The source keys it by the '-'-joined text, which `ImportExport.ResolveProxyAsWritten` and `ImportExport.CacheKeyMisattaches` model (see Findings).
- ImportExport.Step: resolves proxies through the corrected `ImportExport.ResolveProxy`.
- ImportExport.Fold: folds the corrected `ImportExport.Step`.
- ImportExport.ImportConnections: runs the corrected `ImportExport.Fold`. Where the transaction fails is one of three cases: at BEGIN, reporting only the transaction error; later, after the records' own errors; or not at all. A failing ROLLBACK, the console logging and a failure of `getDbInstance` are not modelled.
- SuspendActions.ResumeSshSession: the loop that polls the new socket up to 25 times, 200 ms apart, is one boolean parameter, `connectedInTime`.
- FileUploader.ProgressMeaning: a progress payload of 0 bytes out of 0 is ignored. The source stores NaN as the progress in that case. A positive count over a total of 0 is modelled as 100, as `Math.min(100, Infinity)` gives. The model rounds with exact arithmetic, every half up. The source computes `bytesWritten / totalSize * 100` in doubles, where an exact half can come out just below it and round down: 23 of 40 bytes gives 57 in the source and 58 in the model, and 29 of 200 gives 14 and 15. Floating-point rounding is not modelled.
- FileUploader.Uploader.OnUploadProgress: stores the progress of `FileUploader.ProgressMeaning`, so it shares that rounding difference at exact halves.
- FileContextMenu.ArchiveIgnoresCase: `toLowerCase` is modelled for ASCII letters only. Only the positive direction is stated (a name with one of the five extensions is an archive). The lemma does not prove that no other name is an archive.
- SystemSettings.DockerSaveMeaning: the request carries the Docker interval as a number rather than as `String(x)`'s decimal text. Only the status-monitor interval, which is always a whole number, is sent as text.
- Gateway.ConnectionHandler.OnMessage: only the suspend cases of the switch are modelled. SSH, SFTP, Docker and status messages are not. The frontend's `SSH_MARK_FOR_SUSPEND` and `SSH_UNMARK_FOR_SUSPEND` have no case in `connection.ts`, so they get the unsupported-type reply.
- SuspendActions.HandleDeleteResp: the frontend registers handlers for `SSH_SUSPEND_TERMINATED_RESP` and `SSH_SUSPEND_ENTRY_REMOVED_RESP`. `connection.ts` uses these tags only for failures, and answers a success with `SSH_SUSPEND_TERMINATED` or `SSH_SUSPEND_ENTRY_REMOVED`, which no frontend handler receives. The model's handler follows the payload's success flag, whichever way it arrives.

## Findings

| source | as written | input that shows it | evidently intended | confidence | as-written member | corrected member |
|---|---|---|---|---|---|---|
| packages/frontend/src/stores/session/actions/sshSuspendActions.ts:203-220 | `resumeSshSession` draws a uuid for the new session, but `openNewSession` registers the session under its own generated id. The lookup by the uuid then finds nothing, so the resume request is never sent and the opened session stays open. | any listed suspended session whose connection exists | the session is opened under the uuid, which is then found, and the resume request is sent on its manager | medium, not executed | SuspendActions.ResumeAsWrittenNeverSends | SuspendActions.ResumeSendsRequest |
| packages/backend/src/transfers/transfers.service.ts:155-164 | after the major-error path sets a task to `failed`, `finalizeOverallTaskStatus` recomputes the status from the sub-tasks, bypassing the final-status guard of `updateOverallTaskStatus` | a task with one sub-task still queued when processing fails before any transfer | the failed status is final and is kept by the finalization | medium, not executed | Transfers.FinalizeRevertsFailedTask | Transfers.Recomputed |
| packages/backend/src/services/import-export.service.ts:404-407 | the proxy cache key is `name-type-host-port` joined by '-', and different proxies can share it | proxies ("a-HTTP", "SOCKS5", "h", 1) and ("a", "HTTP", "SOCKS5-h", 1) in one import | each distinct proxy identity gets its own cache entry | low, not executed | ImportExport.CacheKeyMisattaches | ImportExport.ResolveProxy |
