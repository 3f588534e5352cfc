// The objects the WebSocket gateway and the suspend engine share, after
// packages/backend/src/websocket/types.ts: the authenticated socket, the
// ssh2 client and shell-channel handles with their listener sets, the
// per-session ClientState and the server-to-client messages.
module WsTypes {
  import opened Wrappers

  // ------------------------------------------------------------ ssh2 handles

  /** Events of an ssh2 `ClientChannel` that the model listens to. */
  datatype ChannelEvent = ChannelData | ChannelClose | ChannelError | ChannelEnd | ChannelExit

  /** Events of an ssh2 `Client` that the model listens to. */
  datatype ClientEvent = ClientError | ClientEnd

  /** The side of the backend a listener belongs to. */
  datatype Consumer = Gateway | Engine

  /**
   * The listeners attached to the handles, named by what they do and the ids
   * their closures capture.
   */
  datatype Handler =
    | ForwardOutput(sessionId: string, ws: Socket)        // channel 'data' -> 'ssh:output'
    | ReportDisconnected(sessionId: string, ws: Socket)   // channel 'close' -> 'ssh:disconnected', cleanup
    | ReportClientError(sessionId: string, ws: Socket)    // client 'error' -> 'ssh:error', cleanup
    | AppendToLog(userId: int, suspendSessionId: string)  // engine: channel 'data' -> suspend log
    | ObserveFailure(userId: int, suspendSessionId: string) // engine: handleUnexpectedClose
  {
    function Owner(): Consumer
    {
      if AppendToLog? || ObserveFailure? then Engine else Gateway
    }
  }

  /** An ssh2 shell `ClientChannel`: its listeners and whether close()/end() was called on it. */
  class SshChannel {
    var listeners: set<(ChannelEvent, Handler)>
    var closeCalled: bool
    var endCalled: bool

    constructor ()
      ensures listeners == {} && !closeCalled && !endCalled
    {
      listeners := {};
      closeCalled := false;
      endCalled := false;
    }

    /** The handlers that receive this channel's output. */
    function DataConsumers(): set<Handler>
      reads this
    {
      set p | p in listeners && p.0 == ChannelData :: p.1
    }
  }

  /** An ssh2 `Client`: its listeners and whether end() was called on it. */
  class SshClient {
    var listeners: set<(ClientEvent, Handler)>
    var endCalled: bool

    constructor ()
      ensures listeners == {} && !endCalled
    {
      listeners := {};
      endCalled := false;
    }
  }

  /** `emitter.removeAllListeners(e)` for each event in `events`. */
  function WithoutEvents<E(==)>(listeners: set<(E, Handler)>, events: set<E>): (r: set<(E, Handler)>)
    ensures r <= listeners
    ensures forall p | p in r :: p.0 !in events
    ensures forall p | p in listeners && p.0 !in events :: p in r
  {
    set p | p in listeners && p.0 !in events
  }

  // ---------------------------------------------------------------- messages

  datatype SuspendStatus = Hanging | DisconnectedByBackend

  /** `SuspendedSessionInfo` (types.ts:116-124); timestamps are opaque numbers. */
  datatype SuspendedSessionInfo = SuspendedSessionInfo(
    suspendSessionId: string,
    connectionName: string,
    connectionId: string,
    suspendStartTime: nat,
    customSuspendName: Option<string>,
    backendSshStatus: SuspendStatus,
    disconnectionTimestamp: Option<nat>)

  /** The payload shapes of the server-to-client messages. */
  datatype Payload =
    | Text(text: string)
    | Started(frontendSessionId: string, suspendSessionId: string, success: bool, error: Option<string>)
    | SessionList(suspendSessions: seq<SuspendedSessionInfo>)
    | Resumed(suspendSessionId: string, newFrontendSessionId: string, success: bool, error: Option<string>)
    | CachedChunk(frontendSessionId: string, data: string, isLastChunk: bool)
    | Outcome(suspendSessionId: string, success: bool, error: Option<string>)
    | NameEdited(suspendSessionId: string, success: bool, customName: Option<string>, error: Option<string>)
    | AutoTerminated(suspendSessionId: string, reason: string)
    | ShellOutput(sessionId: string, data: string)
    | ShellEvent(sessionId: string, error: Option<string>)

  /** One JSON message `{ type, payload }` sent on a socket. */
  datatype ServerMessage = ServerMessage(msgType: string, payload: Payload)

  const ERROR := "error"
  const SSH_SUSPEND_STARTED := "SSH_SUSPEND_STARTED"
  const SSH_SUSPEND_STARTED_RESP := "SSH_SUSPEND_STARTED_RESP"
  const SSH_SUSPEND_LIST_RESPONSE := "SSH_SUSPEND_LIST_RESPONSE"
  const SSH_SUSPEND_RESUMED := "SSH_SUSPEND_RESUMED"
  const SSH_SUSPEND_RESUMED_NOTIF := "SSH_SUSPEND_RESUMED_NOTIF"
  const SSH_OUTPUT_CACHED_CHUNK := "SSH_OUTPUT_CACHED_CHUNK"
  const SSH_SUSPEND_TERMINATED := "SSH_SUSPEND_TERMINATED"
  const SSH_SUSPEND_TERMINATED_RESP := "SSH_SUSPEND_TERMINATED_RESP"
  const SSH_SUSPEND_ENTRY_REMOVED := "SSH_SUSPEND_ENTRY_REMOVED"
  const SSH_SUSPEND_ENTRY_REMOVED_RESP := "SSH_SUSPEND_ENTRY_REMOVED_RESP"
  const SSH_SUSPEND_NAME_EDITED := "SSH_SUSPEND_NAME_EDITED"
  const SSH_SUSPEND_NAME_EDITED_RESP := "SSH_SUSPEND_NAME_EDITED_RESP"
  const SSH_SUSPEND_AUTO_TERMINATED := "SSH_SUSPEND_AUTO_TERMINATED"
  const SSH_OUTPUT := "ssh:output"
  const SSH_DISCONNECTED := "ssh:disconnected"
  const SSH_ERROR := "ssh:error"

  // ------------------------------------------------------------------ socket

  /**
   * `AuthenticatedWebSocket` (types.ts:5-10) with the parts of a `ws` socket
   * the gateway uses: whether it is OPEN, whether terminate() was called, the
   * pings sent and the messages sent.
   */
  class Socket {
    var isAlive: bool
    const userId: Option<int>
    var sessionId: Option<string>
    var isOpen: bool
    var terminated: bool
    var pingsSent: nat
    var sent: seq<ServerMessage>

    /** A freshly accepted connection: `ws.isAlive = true` (connection.ts:46). */
    constructor (userId: Option<int>)
      ensures this.userId == userId && isAlive && isOpen
      ensures sessionId == None && !terminated && pingsSent == 0 && sent == []
    {
      this.userId := userId;
      isAlive := true;
      isOpen := true;
      sessionId := None;
      terminated := false;
      pingsSent := 0;
      sent := [];
    }

    /** `if (ws.readyState === WebSocket.OPEN) ws.send(JSON.stringify(m))`. */
    method SendIfOpen(m: ServerMessage)
      modifies this`sent
      ensures sent == if isOpen then old(sent) + [m] else old(sent)
    {
      if isOpen {
        sent := sent + [m];
      }
    }
  }

  /** `!ws.userId`: no user, or the falsy id 0. */
  predicate NoUser(userId: Option<int>)
  {
    userId.None? || userId.value == 0
  }

  // ------------------------------------------------------------ client state

  /** `ClientState` (types.ts:13-25), without the SFTP and status-poll handles. */
  datatype ClientState = ClientState(
    ws: Socket,
    sshClient: Option<SshClient>,
    sshShellStream: Option<SshChannel>,
    dbConnectionId: Option<int>,
    connectionName: Option<string>,
    ipAddress: Option<string>,
    isShellReady: bool,
    isSuspendedByService: bool,
    hasDockerStatusInterval: bool)
  {
    /** The objects a cleanup of this state may change. */
    function Footprint(): set<object>
    {
      {ws}
      + (if sshClient.Some? then {sshClient.value} else {})
      + (if sshShellStream.Some? then {sshShellStream.value} else {})
    }
  }

  /** The gateway's `clientStates` map, keyed by frontend session id. */
  class ClientRegistry {
    var states: map<string, ClientState>

    constructor ()
      ensures states == map[]
    {
      states := map[];
    }

    /** Every object some registered state refers to. */
    function Footprints(): set<object>
      reads this
    {
      FootprintsOf(states)
    }
  }

  function FootprintsOf(states: map<string, ClientState>): set<object>
  {
    set sid, o | sid in states && o in states[sid].Footprint() :: o
  }

  lemma StateInFootprints(states: map<string, ClientState>, sid: string)
    requires sid in states
    ensures states[sid].Footprint() <= FootprintsOf(states)
  {
  }

  /** Dropping entries from the registry only shrinks what it refers to. */
  lemma FootprintsShrink(states: map<string, ClientState>, removed: set<string>)
    ensures FootprintsOf(states - removed) <= FootprintsOf(states)
  {
    forall o | o in FootprintsOf(states - removed)
      ensures o in FootprintsOf(states)
    {
      var sid :| sid in states - removed && o in (states - removed)[sid].Footprint();
      assert states[sid] == (states - removed)[sid];
    }
  }
}
