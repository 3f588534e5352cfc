// The frontend's session store: the tab map and the active tab of
// packages/frontend/src/stores/session (the state refs, getters.ts and
// actions/sessionActions.ts). Each session is one tab bound to a saved
// connection and to its own WebSocket manager; what the managers do on the
// wire is recorded as effects in the order the actions cause them.
module SessionStore {
  import opened Wrappers
  import opened Strings
  import opened OrderedMaps
  import opened Seqs
  import WsTypes

  /** A saved connection as the connections store lists it. */
  datatype ConnectionInfo = ConnectionInfo(id: int, name: string, host: string, connType: string)

  /** `wsManager.connectionStatus`. */
  datatype ConnStatus = Disconnected | Connecting | Connected | ConnError

  /**
   * `SessionState`: the tab's ids and name, its WebSocket manager's status
   * and `isConnected`, its terminal (the lines of the active buffer, whether
   * the xterm instance exists, what was written to it), the output held back
   * while the terminal is missing, and the suspend flags.
   */
  datatype SessionState = SessionState(
    sessionId: string,
    connectionId: string,
    connectionName: string,
    status: ConnStatus,
    isConnected: bool,
    terminalReady: bool,
    terminalLines: seq<string>,
    written: seq<string>,
    pendingOutput: seq<string>,
    isMarkedForSuspend: bool,
    isResuming: bool)

  /** The client-to-server requests of the suspend feature. */
  datatype SuspendRequest =
    | MarkForSuspend(sessionId: string, initialBuffer: Option<string>)
    | UnmarkForSuspend(sessionId: string)
    | ResumeRequest(suspendSessionId: string, newFrontendSessionId: string)

  datatype NoticeLevel = Info | Success | Warning | ErrorNotice

  /** What an action does outside the store, in order. */
  datatype Effect =
    | Connect(sessionId: string)           // wsManager.connect(wsUrl)
    | Closed(sessionId: string)            // wsManager.disconnect() and every manager's cleanup()
    | Send(sessionId: string, request: SuspendRequest)
    | OpenRdpModal(connection: ConnectionInfo)
    | OpenVncModal(connection: ConnectionInfo)
    | NavigateToWorkspace
    | Notify(level: NoticeLevel)
    | FetchSuspendedList                   // a fire-and-forget fetchSuspendedSshSessions()

  /** The store's state as a value. */
  datatype Store = Store(
    sessions: OMap<string, SessionState>,
    activeSessionId: Option<string>,
    suspendedSshSessions: seq<WsTypes.SuspendedSessionInfo>,
    isLoadingSuspendedSessions: bool,
    effects: seq<Effect>,
    sessionIdCounter: nat,
    uuidCounter: nat)

  // --------------------------------------------------------------- ids

  /** The n-th id `generateSessionId()` hands out. */
  function SessionIdFor(n: nat): string
  {
    "session-" + NatToString(n)
  }

  /** The n-th id `uuidv4()` hands out. */
  function UuidFor(n: nat): string
  {
    "uuid-" + NatToString(n)
  }

  lemma PrefixedInjective(p: string, a: string, b: string)
    requires p + a == p + b
    ensures a == b
  {
    assert a == (p + a)[|p|..];
    assert b == (p + b)[|p|..];
  }

  /** Session ids are never handed out twice. */
  lemma SessionIdInjective(m: nat, n: nat)
    ensures SessionIdFor(m) == SessionIdFor(n) ==> m == n
  {
    if SessionIdFor(m) == SessionIdFor(n) {
      PrefixedInjective("session-", NatToString(m), NatToString(n));
      NatToStringInjective(m, n);
    }
  }

  /** Nor are uuids. */
  lemma UuidInjective(m: nat, n: nat)
    ensures UuidFor(m) == UuidFor(n) ==> m == n
  {
    if UuidFor(m) == UuidFor(n) {
      PrefixedInjective("uuid-", NatToString(m), NatToString(n));
      NatToStringInjective(m, n);
    }
  }

  /** A uuid is never a session id. */
  lemma UuidNotSessionId(m: nat, n: nat)
    ensures UuidFor(m) != SessionIdFor(n)
  {
    assert UuidFor(m)[0] == 'u' && SessionIdFor(n)[0] == 's';
  }

  // --------------------------------------------------------- invariant

  /**
   * Every session is keyed by its own (non-empty) id, no id either
   * generator has still to hand out is taken, and the active id, when set,
   * names a session.
   */
  ghost predicate StoreValid(s: Store)
  {
    && s.sessions.Valid()
    && (forall k | k in s.sessions.entries :: s.sessions.entries[k].sessionId == k && k != "")
    && (forall n: nat | n >= s.sessionIdCounter :: SessionIdFor(n) !in s.sessions.entries)
    && (forall n: nat | n >= s.uuidCounter :: UuidFor(n) !in s.sessions.entries)
    && (s.activeSessionId.Some? ==> s.activeSessionId.value in s.sessions.entries)
  }

  // ----------------------------------------------------------- getters

  datatype SessionTab = SessionTab(sessionId: string, connectionName: string)

  datatype SessionTabWithStatus = SessionTabWithStatus(
    sessionId: string, connectionName: string, status: ConnStatus, isMarkedForSuspend: bool)

  function TabOf(s: SessionState): SessionTab
  {
    SessionTab(s.sessionId, s.connectionName)
  }

  function TabWithStatusOf(s: SessionState): SessionTabWithStatus
  {
    SessionTabWithStatus(s.sessionId, s.connectionName, s.status, s.isMarkedForSuspend)
  }

  /** sessionTabs (getters.ts:7-12): one tab per session, in map order. */
  function SessionTabs(sessions: OMap<string, SessionState>): seq<SessionTab>
    requires sessions.Valid()
  {
    Map(TabOf, sessions.Values())
  }

  /** sessionTabsWithStatus (getters.ts:15-22). */
  function SessionTabsWithStatus(sessions: OMap<string, SessionState>): seq<SessionTabWithStatus>
    requires sessions.Valid()
  {
    Map(TabWithStatusOf, sessions.Values())
  }

  /** activeSession (getters.ts:24-27): none for a null (or empty) id or an id that is not a key. */
  function ActiveSession(s: Store): Option<SessionState>
  {
    if s.activeSessionId.None? || s.activeSessionId.value == "" then None
    else s.sessions.Get(s.activeSessionId.value)
  }

  /** The tabs are the sessions in map order, each carrying its own key, name, status and mark. */
  lemma {:induction false} TabsFollowKeys(s: Store)
    requires StoreValid(s)
    ensures |SessionTabs(s.sessions)| == |SessionTabsWithStatus(s.sessions)| == |s.sessions.keys|
    ensures forall i | 0 <= i < |s.sessions.keys| ::
      var st := s.sessions.entries[s.sessions.keys[i]];
      && SessionTabs(s.sessions)[i] == SessionTab(s.sessions.keys[i], st.connectionName)
      && SessionTabsWithStatus(s.sessions)[i] == SessionTabWithStatus(s.sessions.keys[i], st.connectionName, st.status, st.isMarkedForSuspend)
  {
    var vs := s.sessions.Values();
    forall i | 0 <= i < |s.sessions.keys|
      ensures SessionTabs(s.sessions)[i] == TabOf(vs[i])
      ensures SessionTabsWithStatus(s.sessions)[i] == TabWithStatusOf(vs[i])
    {
      MapAt(TabOf, vs, i);
      MapAt(TabWithStatusOf, vs, i);
    }
  }

  /**
   * In a valid store the active session is present exactly when an id is
   * active, and it is the session under that id: the falsy-id test of
   * getters.ts:25 only ever catches null, since no key is empty.
   */
  lemma ActiveSessionMeaning(s: Store)
    requires StoreValid(s)
    ensures s.activeSessionId.None? ==> ActiveSession(s).None?
    ensures s.activeSessionId.Some? ==> ActiveSession(s) == Some(s.sessions.entries[s.activeSessionId.value])
    ensures ActiveSession(s).Some? ==> ActiveSession(s).value.sessionId == s.activeSessionId.value
  {
  }

  /** Replacing a session by a record with the same id keeps the store valid and the map's order. */
  lemma PutSameIdValid(s: Store, id: string, v: SessionState)
    requires StoreValid(s) && id in s.sessions.entries && v.sessionId == id
    ensures StoreValid(s.(sessions := s.sessions.Put(id, v)))
    ensures s.sessions.Put(id, v).keys == s.sessions.keys
  {
  }

  // ------------------------------------------------------------ actions

  /** `connectionsStore.connections.find(c => c.id === Number(connectionId))`. */
  function FindConnection(connections: seq<ConnectionInfo>, connectionId: int): (r: Option<ConnectionInfo>)
    ensures r.Some? ==> r.value in connections && r.value.id == connectionId
    ensures r.None? ==> forall c | c in connections :: c.id != connectionId
    decreases |connections|
  {
    if connections == [] then None
    else if connections[0].id == connectionId then Some(connections[0])
    else FindConnection(connections[1..], connectionId)
  }

  /** The session openNewSession builds (sessionActions.ts:64-76): named by the connection's name, or its host when the name is empty. */
  function NewSession(id: string, conn: ConnectionInfo): SessionState
  {
    SessionState(id, IntToString(conn.id), if conn.name != "" then conn.name else conn.host,
      Disconnected, false, false, [], [], [], false, false)
  }

  /** openNewSession (sessionActions.ts:24-92). */
  function OpenNewSessionStep(s: Store, connections: seq<ConnectionInfo>, connectionId: int): Store
    requires s.sessions.Valid()
  {
    match FindConnection(connections, connectionId)
    case None => s
    case Some(conn) =>
      var id := SessionIdFor(s.sessionIdCounter);
      s.(sessions := s.sessions.Put(id, NewSession(id, conn)),
         activeSessionId := Some(id),
         sessionIdCounter := s.sessionIdCounter + 1,
         effects := s.effects + [Connect(id)])
  }

  /** activateSession (sessionActions.ts:94-105). */
  function ActivateSessionStep(s: Store, sessionId: string): Store
  {
    if sessionId in s.sessions.entries then s.(activeSessionId := Some(sessionId)) else s
  }

  /** The id made active when the active session is closed: the last remaining one in insertion order. */
  function LastKey(keys: seq<string>): Option<string>
  {
    if |keys| > 0 then Some(keys[|keys| - 1]) else None
  }

  /** closeSession (sessionActions.ts:107-143). */
  function CloseSessionStep(s: Store, sessionId: string): Store
    requires s.sessions.Valid()
  {
    if sessionId !in s.sessions.entries then s
    else
      var sessions' := s.sessions.Remove(sessionId);
      s.(sessions := sessions',
         activeSessionId := if s.activeSessionId == Some(sessionId) then LastKey(sessions'.keys) else s.activeSessionId,
         effects := s.effects + [Closed(sessionId)])
  }

  /** Whether a click on an SSH connection reconnects the active tab in place (sessionActions.ts:165-181). */
  function ReconnectTarget(s: Store, connection: ConnectionInfo): Option<string>
  {
    if s.activeSessionId.None? || s.activeSessionId.value == "" then None
    else
      match s.sessions.Get(s.activeSessionId.value)
      case None => None
      case Some(active) =>
        if active.connectionId == IntToString(connection.id) && (active.status == Disconnected || active.status == ConnError)
        then Some(s.activeSessionId.value) else None
  }

  /** handleConnectRequest (sessionActions.ts:145-190). */
  function HandleConnectRequestStep(s: Store, connections: seq<ConnectionInfo>, connection: ConnectionInfo): Store
    requires s.sessions.Valid()
  {
    if connection.connType == "RDP" then s.(effects := s.effects + [OpenRdpModal(connection)])
    else if connection.connType == "VNC" then s.(effects := s.effects + [OpenVncModal(connection)])
    else
      match ReconnectTarget(s, connection)
      case Some(id) =>
        var next := ActivateSessionStep(s.(effects := s.effects + [Connect(id)]), id);
        next.(effects := next.effects + [NavigateToWorkspace])
      case None =>
        var next := OpenNewSessionStep(s, connections, connection.id);
        next.(effects := next.effects + [NavigateToWorkspace])
  }

  /** One `Closed` effect per id, in order. */
  function ClosedAll(ids: seq<string>): seq<Effect>
  {
    seq(|ids|, j requires 0 <= j < |ids| => Closed(ids[j]))
  }

  // ----------------------------------------------------------- lemmas

  /** openNewSession for an unknown connection changes nothing. */
  lemma OpenUnknownConnection(s: Store, connections: seq<ConnectionInfo>, connectionId: int)
    requires s.sessions.Valid()
    requires forall c | c in connections :: c.id != connectionId
    ensures OpenNewSessionStep(s, connections, connectionId) == s
  {
  }

  /**
   * openNewSession for a known connection adds exactly one session, under an
   * id no session had, at the end of the map, and makes it active; the store
   * stays valid.
   */
  lemma OpenAddsOneFreshSession(s: Store, connections: seq<ConnectionInfo>, connectionId: int)
    requires StoreValid(s)
    requires exists c | c in connections :: c.id == connectionId
    ensures var s' := OpenNewSessionStep(s, connections, connectionId);
      var id := s'.activeSessionId.value;
      && StoreValid(s')
      && s'.activeSessionId.Some? && id !in s.sessions.entries
      && s'.sessions.keys == s.sessions.keys + [id]
      && s'.sessions.entries == s.sessions.entries[id := s'.sessions.entries[id]]
      && s'.sessions.entries[id].connectionId == IntToString(connectionId)
      && SessionTabs(s'.sessions) == SessionTabs(s.sessions) + [TabOf(s'.sessions.entries[id])]
  {
    var conn := FindConnection(connections, connectionId).value;
    var id := SessionIdFor(s.sessionIdCounter);
    var s' := OpenNewSessionStep(s, connections, connectionId);
    assert id !in s.sessions.entries;
    forall n: nat | n >= s'.sessionIdCounter
      ensures SessionIdFor(n) !in s'.sessions.entries
    {
      SessionIdInjective(n, s.sessionIdCounter);
    }
    forall n: nat | n >= s'.uuidCounter
      ensures UuidFor(n) !in s'.sessions.entries
    {
      UuidNotSessionId(n, s.sessionIdCounter);
    }
    assert s'.sessions.Values() == s.sessions.Values() + [NewSession(id, conn)];
    assert SessionTabs(s'.sessions) == SessionTabs(s.sessions) + [TabOf(NewSession(id, conn))] by {
      MapSnocAll(TabOf, s.sessions.Values(), NewSession(id, conn));
    }
  }

  lemma MapSnocAll<T, U>(f: T -> U, s: seq<T>, x: T)
    ensures Map(f, s + [x]) == Map(f, s) + [f(x)]
  {
    assert (s + [x])[..|s|] == s;
  }

  /** activateSession changes the active id exactly when the id is a session, and touches nothing else. */
  lemma ActivateMeaning(s: Store, sessionId: string)
    requires StoreValid(s)
    ensures var s' := ActivateSessionStep(s, sessionId);
      && StoreValid(s')
      && s'.sessions == s.sessions && s'.effects == s.effects
      && s'.activeSessionId == (if sessionId in s.sessions.entries then Some(sessionId) else s.activeSessionId)
  {
  }

  /**
   * closeSession removes exactly that session, keeps the others in order,
   * activates the last remaining one when it closed the active one (none
   * when nothing remains) and otherwise keeps the active id; an unknown id
   * changes nothing. The store stays valid.
   */
  lemma CloseMeaning(s: Store, sessionId: string)
    requires StoreValid(s)
    ensures var s' := CloseSessionStep(s, sessionId);
      && StoreValid(s')
      && (sessionId !in s.sessions.entries ==> s' == s)
      && (sessionId in s.sessions.entries ==>
        && (exists i | 0 <= i < |s.sessions.keys| :: s.sessions.keys[i] == sessionId
              && s'.sessions.keys == s.sessions.keys[..i] + s.sessions.keys[i + 1..])
        && s'.sessions.entries == s.sessions.entries - {sessionId}
        && s'.effects == s.effects + [Closed(sessionId)]
        && s'.activeSessionId == (if s.activeSessionId == Some(sessionId) then LastKey(s'.sessions.keys) else s.activeSessionId))
  {
    if sessionId in s.sessions.entries {
      var keys := s.sessions.keys;
      var i :| 0 <= i < |keys| && keys[i] == sessionId;
      WithoutAt(keys, sessionId, i);
      var s' := CloseSessionStep(s, sessionId);
      if s'.activeSessionId.Some? && s.activeSessionId == Some(sessionId) {
        assert s'.activeSessionId.value in s'.sessions.keys;
      }
    }
  }

  /**
   * handleConnectRequest: RDP and VNC only open their modal; an SSH click on
   * the active tab's own connection while it is disconnected or failed
   * reconnects that tab in place; any other click opens a new session.
   */
  lemma ConnectRequestPaths(s: Store, connections: seq<ConnectionInfo>, connection: ConnectionInfo)
    requires StoreValid(s)
    ensures var s' := HandleConnectRequestStep(s, connections, connection);
      && (connection.connType == "RDP" ==> s'.sessions == s.sessions && s'.activeSessionId == s.activeSessionId && s'.effects == s.effects + [OpenRdpModal(connection)])
      && (connection.connType == "VNC" ==> s'.sessions == s.sessions && s'.activeSessionId == s.activeSessionId && s'.effects == s.effects + [OpenVncModal(connection)])
      && (connection.connType != "RDP" && connection.connType != "VNC" && ReconnectTarget(s, connection).Some? ==>
            s'.sessions == s.sessions && s'.activeSessionId == s.activeSessionId
            && s'.effects == s.effects + [Connect(s.activeSessionId.value), NavigateToWorkspace])
      && (connection.connType != "RDP" && connection.connType != "VNC" && ReconnectTarget(s, connection).None? ==>
            s' == OpenNewSessionStep(s, connections, connection.id).(effects := OpenNewSessionStep(s, connections, connection.id).effects + [NavigateToWorkspace]))
  {
  }

  // ------------------------------------------------------- stateful store

  /** The session store's refs (stores/session/state.ts). */
  class SessionStoreState {
    var sessions: OMap<string, SessionState>
    var activeSessionId: Option<string>
    var suspendedSshSessions: seq<WsTypes.SuspendedSessionInfo>
    var isLoadingSuspendedSessions: bool
    var effects: seq<Effect>
    var sessionIdCounter: nat
    var uuidCounter: nat

    function Abs(): Store
      reads this
    {
      Store(sessions, activeSessionId, suspendedSshSessions, isLoadingSuspendedSessions, effects, sessionIdCounter, uuidCounter)
    }

    ghost predicate Valid()
      reads this
    {
      StoreValid(Abs())
    }

    constructor ()
      ensures Valid() && sessions == EmptyMap() && activeSessionId == None
      ensures suspendedSshSessions == [] && !isLoadingSuspendedSessions && effects == []
      ensures sessionIdCounter == 0 && uuidCounter == 0
    {
      sessions := EmptyMap();
      activeSessionId := None;
      suspendedSshSessions := [];
      isLoadingSuspendedSessions := false;
      effects := [];
      sessionIdCounter := 0;
      uuidCounter := 0;
    }
  }

  /** generateSessionId(). */
  method GenerateSessionId(st: SessionStoreState) returns (id: string)
    modifies st`sessionIdCounter
    ensures id == SessionIdFor(old(st.sessionIdCounter)) && st.sessionIdCounter == old(st.sessionIdCounter) + 1
  {
    id := SessionIdFor(st.sessionIdCounter);
    st.sessionIdCounter := st.sessionIdCounter + 1;
  }

  /** openNewSession (sessionActions.ts:24-92). */
  method OpenNewSession(st: SessionStoreState, connections: seq<ConnectionInfo>, connectionId: int)
    requires st.Valid()
    modifies st`sessionIdCounter, st`sessions, st`activeSessionId, st`effects
    ensures st.Valid()
    ensures st.Abs() == OpenNewSessionStep(old(st.Abs()), connections, connectionId)
  {
    ghost var s := st.Abs();
    var connInfo := FindConnection(connections, connectionId);
    if connInfo.None? {
      return;
    }
    var newSessionId := GenerateSessionId(st);
    var newSession := NewSession(newSessionId, connInfo.value);
    st.sessions := st.sessions.Put(newSessionId, newSession);
    st.activeSessionId := Some(newSessionId);
    st.effects := st.effects + [Connect(newSessionId)];
    OpenAddsOneFreshSession(s, connections, connectionId);
  }

  /** activateSession (sessionActions.ts:94-105). */
  method ActivateSession(st: SessionStoreState, sessionId: string)
    requires st.Valid()
    modifies st`activeSessionId
    ensures st.Valid()
    ensures st.Abs() == ActivateSessionStep(old(st.Abs()), sessionId)
  {
    if sessionId in st.sessions.entries {
      if st.activeSessionId != Some(sessionId) {
        st.activeSessionId := Some(sessionId);
      }
    }
  }

  /** closeSession (sessionActions.ts:107-143). */
  method CloseSession(st: SessionStoreState, sessionId: string)
    requires st.Valid()
    modifies st`sessions, st`activeSessionId, st`effects
    ensures st.Valid()
    ensures st.Abs() == CloseSessionStep(old(st.Abs()), sessionId)
  {
    ghost var s := st.Abs();
    var sessionToClose := st.sessions.Get(sessionId);
    if sessionToClose.None? {
      return;
    }
    CloseMeaning(s, sessionId);
    var remaining := st.sessions.Remove(sessionId);
    var nextActive := st.activeSessionId;
    if st.activeSessionId == Some(sessionId) {
      var remainingSessions := remaining.keys;
      nextActive := if |remainingSessions| > 0 then Some(remainingSessions[|remainingSessions| - 1]) else None;
    }
    st.effects := st.effects + [Closed(sessionId)];
    st.sessions := remaining;
    st.activeSessionId := nextActive;
    assert st.Abs() == CloseSessionStep(s, sessionId);
  }

  /** handleConnectRequest (sessionActions.ts:145-190). */
  method HandleConnectRequest(st: SessionStoreState, connections: seq<ConnectionInfo>, connection: ConnectionInfo)
    requires st.Valid()
    modifies st
    ensures st.Valid()
    ensures st.Abs() == HandleConnectRequestStep(old(st.Abs()), connections, connection)
  {
    if connection.connType == "RDP" {
      st.effects := st.effects + [OpenRdpModal(connection)];
    } else if connection.connType == "VNC" {
      st.effects := st.effects + [OpenVncModal(connection)];
    } else {
      var target := ReconnectTarget(st.Abs(), connection);
      if target.Some? {
        st.effects := st.effects + [Connect(target.value)];
        ActivateSession(st, target.value);
        st.effects := st.effects + [NavigateToWorkspace];
      } else {
        OpenNewSession(st, connections, connection.id);
        st.effects := st.effects + [NavigateToWorkspace];
      }
    }
  }

  /**
   * cleanupAllSessions (sessionActions.ts:203-214): every session is closed
   * in map order, the map ends empty and no session is active.
   */
  method CleanupAllSessions(st: SessionStoreState)
    requires st.Valid()
    modifies st`sessions, st`activeSessionId, st`effects
    ensures st.Valid()
    ensures st.sessions.keys == [] && st.sessions.entries == map[] && st.activeSessionId == None
    ensures st.effects == old(st.effects) + ClosedAll(old(st.sessions.keys))
    ensures st.sessionIdCounter == old(st.sessionIdCounter)
  {
    var keys := st.sessions.keys;
    ghost var e0 := st.effects;
    var i := 0;
    while i < |keys|
      invariant 0 <= i <= |keys|
      invariant st.Valid()
      invariant st.sessions.keys == keys[i..]
      invariant st.effects == e0 + ClosedAll(keys[..i])
      invariant st.sessionIdCounter == old(st.sessionIdCounter)
    {
      assert keys[i..][0] == keys[i] && keys[i..][1..] == keys[i + 1..];
      CloseFirstSession(st);
      ClosedAllSnoc(keys, i);
      i := i + 1;
    }
    assert keys[..|keys|] == keys;
    // The re-clear of sessionActions.ts:209-213 never runs: every key was closed.
    NoKeysNoEntries(st.Abs());
    st.activeSessionId := None;
  }

  lemma ClosedAllSnoc(ids: seq<string>, i: nat)
    requires i < |ids|
    ensures ClosedAll(ids[..i + 1]) == ClosedAll(ids[..i]) + [Closed(ids[i])]
  {
  }

  /** One round of the forEach of sessionActions.ts:205-207: closing the session that is now first. */
  method CloseFirstSession(st: SessionStoreState)
    requires st.Valid() && st.sessions.keys != []
    modifies st`sessions, st`activeSessionId, st`effects
    ensures st.Valid()
    ensures st.sessions.keys == old(st.sessions.keys)[1..]
    ensures st.effects == old(st.effects) + [Closed(old(st.sessions.keys)[0])]
  {
    CloseFirst(st.Abs());
    CloseSession(st, st.sessions.keys[0]);
  }

  /** Closing the first session drops the first key. */
  lemma CloseFirst(s: Store)
    requires StoreValid(s) && s.sessions.keys != []
    ensures CloseSessionStep(s, s.sessions.keys[0]).sessions.keys == s.sessions.keys[1..]
    ensures CloseSessionStep(s, s.sessions.keys[0]).effects == s.effects + [Closed(s.sessions.keys[0])]
  {
    WithoutAt(s.sessions.keys, s.sessions.keys[0], 0);
  }

  lemma NoKeysNoEntries(s: Store)
    requires StoreValid(s) && s.sessions.keys == []
    ensures s.sessions.entries == map[]
  {
    assert forall k | k in s.sessions.entries :: k in s.sessions.keys;
  }
}
