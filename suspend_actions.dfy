// The frontend's suspended-SSH-session actions of
// packages/frontend/src/stores/session/actions/sshSuspendActions.ts: the
// requests a tab sends to mark or unmark itself, resuming from the list,
// the HTTP calls that terminate, remove or rename a list entry, and the
// handlers of the server's replies. HTTP and WebSocket answers are
// parameters: an `Outcome` says whether the awaited call returned or threw.
module SuspendActions {
  import opened Wrappers
  import opened Strings
  import opened OrderedMaps
  import opened SessionStore
  import WsTypes

  type Info = WsTypes.SuspendedSessionInfo

  // ------------------------------------------------- the suspended list

  /** `findIndex(s => s.suspendSessionId === id)` from index `i` on. */
  function FirstIndexFrom(list: seq<Info>, id: string, i: nat): (r: Option<nat>)
    requires i <= |list|
    ensures r.Some? ==> i <= r.value < |list| && list[r.value].suspendSessionId == id
    ensures r.Some? ==> forall j | i <= j < r.value :: list[j].suspendSessionId != id
    ensures r.None? ==> forall j | i <= j < |list| :: list[j].suspendSessionId != id
    decreases |list| - i
  {
    if i == |list| then None
    else if list[i].suspendSessionId == id then Some(i)
    else FirstIndexFrom(list, id, i + 1)
  }

  /** The index of the first entry with that id (`findIndex`, `find`). */
  function FirstIndexOf(list: seq<Info>, id: string): Option<nat>
  {
    FirstIndexFrom(list, id, 0)
  }

  /** `splice(index, 1)` at the first entry with that id, when there is one. */
  function RemoveFirst(list: seq<Info>, id: string): seq<Info>
  {
    match FirstIndexOf(list, id)
    case None => list
    case Some(i) => list[..i] + list[i + 1..]
  }

  /** What the auto-terminated notification does to the first entry with that id (sshSuspendActions.ts:591-595). */
  function MarkDisconnected(list: seq<Info>, id: string, now: nat): seq<Info>
  {
    match FirstIndexOf(list, id)
    case None => list
    case Some(i) => list[i := list[i].(backendSshStatus := WsTypes.DisconnectedByBackend, disconnectionTimestamp := Some(now))]
  }

  /**
   * Removing the first entry with an id deletes that one entry and keeps the
   * rest in order; when no entry has the id the list is unchanged.
   */
  lemma RemoveFirstMeaning(list: seq<Info>, id: string)
    ensures (forall j | 0 <= j < |list| :: list[j].suspendSessionId != id) ==> RemoveFirst(list, id) == list
    ensures (exists j | 0 <= j < |list| :: list[j].suspendSessionId == id) ==>
      exists i | 0 <= i < |list| ::
        && list[i].suspendSessionId == id
        && (forall j | 0 <= j < i :: list[j].suspendSessionId != id)
        && RemoveFirst(list, id) == list[..i] + list[i + 1..]
    ensures |RemoveFirst(list, id)| == if (exists j | 0 <= j < |list| :: list[j].suspendSessionId == id) then |list| - 1 else |list|
  {
    var r := FirstIndexOf(list, id);
    if r.Some? {
      assert list[r.value].suspendSessionId == id;
    }
  }

  /**
   * The notification marks the first entry with that id disconnected by the
   * backend at `now`, changing nothing else; an unknown id is a no-op.
   */
  lemma MarkDisconnectedMeaning(list: seq<Info>, id: string, now: nat)
    ensures |MarkDisconnected(list, id, now)| == |list|
    ensures (forall j | 0 <= j < |list| :: list[j].suspendSessionId != id) ==> MarkDisconnected(list, id, now) == list
    ensures forall j | 0 <= j < |list| ::
      MarkDisconnected(list, id, now)[j] == list[j]
      || (&& list[j].suspendSessionId == id
          && MarkDisconnected(list, id, now)[j] == list[j].(backendSshStatus := WsTypes.DisconnectedByBackend, disconnectionTimestamp := Some(now)))
    ensures (exists j | 0 <= j < |list| :: list[j].suspendSessionId == id) ==>
      exists j | 0 <= j < |list| :: MarkDisconnected(list, id, now)[j].suspendSessionId == id
        && MarkDisconnected(list, id, now)[j].backendSshStatus == WsTypes.DisconnectedByBackend
        && MarkDisconnected(list, id, now)[j].disconnectionTimestamp == Some(now)
  {
    var r := FirstIndexOf(list, id);
    if r.Some? {
      assert list[r.value].suspendSessionId == id;
    }
  }

  // ------------------------------------------------- getActiveWsManager

  /** The first session, from index `i` on in map order, whose manager is connected. */
  function FirstConnectedFrom(sessions: OMap<string, SessionState>, i: nat): Option<string>
    requires sessions.Valid() && i <= |sessions.keys|
    decreases |sessions.keys| - i
  {
    if i == |sessions.keys| then None
    else if sessions.entries[sessions.keys[i]].isConnected then Some(sessions.keys[i])
    else FirstConnectedFrom(sessions, i + 1)
  }

  /** The manager chosen is connected and no session before it has a connected one; none is chosen only when none is connected. */
  lemma {:induction false} FirstConnectedMeaning(sessions: OMap<string, SessionState>, i: nat)
    requires sessions.Valid() && i <= |sessions.keys|
    ensures var r := FirstConnectedFrom(sessions, i);
      && (r.Some? ==> exists j | i <= j < |sessions.keys| ::
            && sessions.keys[j] == r.value && sessions.entries[r.value].isConnected
            && forall k | i <= k < j :: !sessions.entries[sessions.keys[k]].isConnected)
      && (r.None? ==> forall j | i <= j < |sessions.keys| :: !sessions.entries[sessions.keys[j]].isConnected)
    decreases |sessions.keys| - i
  {
    if i < |sessions.keys| && !sessions.entries[sessions.keys[i]].isConnected {
      FirstConnectedMeaning(sessions, i + 1);
    }
  }

  /**
   * getActiveWsManager (sshSuspendActions.ts:37-66), returning the id of the
   * session whose manager it picks: the first session when its manager is
   * connected, else the first connected one in map order, else none.
   */
  method GetActiveWsManager(st: SessionStoreState) returns (r: Option<string>)
    requires st.sessions.Valid()
    ensures r == FirstConnectedFrom(st.sessions, 0)
  {
    var keys := st.sessions.keys;
    if |keys| > 0 {
      var session := st.sessions.Get(keys[0]);
      if session.Some? && session.value.isConnected {
        return Some(keys[0]);
      }
    }
    var i := 0;
    while i < |keys|
      invariant 0 <= i <= |keys|
      invariant FirstConnectedFrom(st.sessions, i) == FirstConnectedFrom(st.sessions, 0)
    {
      if st.sessions.entries[keys[i]].isConnected {
        return Some(keys[i]);
      }
      i := i + 1;
    }
    return None;
  }

  // ------------------------------------------------------ initial buffer

  /** Each line followed by a newline, as the loop of sshSuspendActions.ts:86-88 builds it. */
  function WithNewlines(lines: seq<string>): string
  {
    if lines == [] then "" else WithNewlines(lines[..|lines| - 1]) + lines[|lines| - 1] + "\n"
  }

  lemma {:induction false} JoinSnoc(parts: seq<string>, x: string, sep: string)
    requires parts != []
    ensures Join(parts + [x], sep) == Join(parts, sep) + sep + x
    decreases |parts|
  {
    if |parts| > 1 {
      JoinSnoc(parts[1..], x, sep);
      assert (parts + [x])[1..] == parts[1..] + [x];
    } else {
      assert (parts + [x])[1..] == [x];
    }
  }

  /** The lines each followed by a newline are the lines joined by newlines, plus one trailing newline. */
  lemma {:induction false} WithNewlinesJoin(lines: seq<string>)
    requires lines != []
    ensures WithNewlines(lines) == Join(lines, "\n") + "\n"
    decreases |lines|
  {
    var n := |lines| - 1;
    if n == 0 {
      assert WithNewlines(lines) == WithNewlines([]) + lines[0] + "\n";
    } else {
      WithNewlinesJoin(lines[..n]);
      JoinSnoc(lines[..n], lines[n], "\n");
      assert lines[..n] + [lines[n]] == lines;
    }
  }

  /** The initial buffer of sshSuspendActions.ts:82-93. */
  method BuildInitialBuffer(lines: seq<string>) returns (initialBuffer: string)
    ensures initialBuffer == Join(lines, "\n")
  {
    initialBuffer := "";
    for i := 0 to |lines|
      invariant initialBuffer == WithNewlines(lines[..i])
    {
      assert lines[..i + 1][..i] == lines[..i];
      initialBuffer := initialBuffer + lines[i] + "\n";
    }
    assert lines[..|lines|] == lines;
    if lines != [] {
      WithNewlinesJoin(lines);
    }
    if EndsWith(initialBuffer, "\n") {
      initialBuffer := initialBuffer[..|initialBuffer| - 1];
    }
  }

  /** The buffer sent with a mark request: the terminal's lines joined by newlines, empty when it has no terminal. */
  function InitialBuffer(s: SessionState): string
  {
    if s.terminalReady then Join(s.terminalLines, "\n") else ""
  }

  // -------------------------------------------------- mark and unmark

  /** requestStartSshSuspend (sshSuspendActions.ts:73-117). */
  function RequestStartStep(s: Store, sessionId: string): Store
  {
    match s.sessions.Get(sessionId)
    case None => s.(effects := s.effects + [Notify(ErrorNotice)])
    case Some(session) =>
      if !session.isConnected then s.(effects := s.effects + [Notify(ErrorNotice)])
      else
        var buf := InitialBuffer(session);
        var msg := MarkForSuspend(sessionId, if buf == "" then None else Some(buf));
        s.(effects := s.effects + [Send(sessionId, msg), Notify(Info)])
  }

  /** requestUnmarkSshSuspend (sshSuspendActions.ts:123-149). */
  function RequestUnmarkStep(s: Store, sessionId: string): Store
  {
    match s.sessions.Get(sessionId)
    case None => s.(effects := s.effects + [Notify(ErrorNotice)])
    case Some(session) =>
      if !session.isConnected then s.(effects := s.effects + [Notify(ErrorNotice)])
      else if !session.isMarkedForSuspend then s.(effects := s.effects + [Notify(Info)])
      else s.(effects := s.effects + [Send(sessionId, UnmarkForSuspend(sessionId))])
  }

  predicate NoSend(effects: seq<Effect>)
  {
    forall i | 0 <= i < |effects| :: !effects[i].Send?
  }

  /**
   * A mark request goes out only for a present, connected session, on that
   * session's own manager, carrying the terminal's lines joined by newlines
   * and no buffer at all when that text is empty; an unmark request also
   * needs the session to be marked. Nothing else in the store changes.
   */
  lemma MarkRequestMeaning(s: Store, sessionId: string)
    ensures var s' := RequestStartStep(s, sessionId);
      && s'.sessions == s.sessions && |s'.effects| > |s.effects| && s'.effects[..|s.effects|] == s.effects
      && (s.sessions.Get(sessionId).None? || !s.sessions.Get(sessionId).value.isConnected ==> NoSend(s'.effects[|s.effects|..]))
      && (s.sessions.Get(sessionId).Some? && s.sessions.Get(sessionId).value.isConnected ==>
            var buf := InitialBuffer(s.sessions.entries[sessionId]);
            s'.effects[|s.effects|] == Send(sessionId, MarkForSuspend(sessionId, if buf == "" then None else Some(buf))))
    ensures var s' := RequestUnmarkStep(s, sessionId);
      && s'.sessions == s.sessions && s'.effects[..|s.effects|] == s.effects
      && ((s.sessions.Get(sessionId).Some? && s.sessions.Get(sessionId).value.isConnected && s.sessions.Get(sessionId).value.isMarkedForSuspend)
           <==> !NoSend(s'.effects[|s.effects|..]))
  {
    var s' := RequestUnmarkStep(s, sessionId);
    if s.sessions.Get(sessionId).Some? && s.sessions.Get(sessionId).value.isConnected && s.sessions.Get(sessionId).value.isMarkedForSuspend {
      assert s'.effects[|s.effects|..][0].Send?;
    }
  }

  method RequestStartSshSuspend(st: SessionStoreState, sessionId: string)
    modifies st`effects
    ensures st.Abs() == RequestStartStep(old(st.Abs()), sessionId)
  {
    var session := st.sessions.Get(sessionId);
    if session.None? {
      st.effects := st.effects + [Notify(ErrorNotice)];
      return;
    }
    if !session.value.isConnected {
      st.effects := st.effects + [Notify(ErrorNotice)];
      return;
    }
    var initialBuffer := "";
    if session.value.terminalReady {
      initialBuffer := BuildInitialBuffer(session.value.terminalLines);
    }
    var message := MarkForSuspend(sessionId, if initialBuffer == "" then None else Some(initialBuffer));
    st.effects := st.effects + [Send(sessionId, message)];
    st.effects := st.effects + [Notify(Info)];
  }

  method RequestUnmarkSshSuspend(st: SessionStoreState, sessionId: string)
    modifies st`effects
    ensures st.Abs() == RequestUnmarkStep(old(st.Abs()), sessionId)
  {
    var session := st.sessions.Get(sessionId);
    if session.None? {
      st.effects := st.effects + [Notify(ErrorNotice)];
      return;
    }
    if !session.value.isConnected {
      st.effects := st.effects + [Notify(ErrorNotice)];
      return;
    }
    if !session.value.isMarkedForSuspend {
      st.effects := st.effects + [Notify(Info)];
      return;
    }
    st.effects := st.effects + [Send(sessionId, UnmarkForSuspend(sessionId))];
  }

  // ---------------------------------------------------------- HTTP calls

  /** fetchSuspendedSshSessions (sshSuspendActions.ts:154-175): the list is replaced only when the call returns. */
  function FetchStep(s: Store, response: Outcome<seq<Info>>): Store
  {
    match response
    case Returned(list) => s.(suspendedSshSessions := list, isLoadingSuspendedSessions := false)
    case Threw(_) => s.(effects := s.effects + [Notify(ErrorNotice)], isLoadingSuspendedSessions := false)
  }

  method FetchSuspendedSshSessions(st: SessionStoreState, response: Outcome<seq<Info>>)
    modifies st`isLoadingSuspendedSessions, st`suspendedSshSessions, st`effects
    ensures st.Abs() == FetchStep(old(st.Abs()), response)
  {
    st.isLoadingSuspendedSessions := true;
    if response.Returned? {
      st.suspendedSshSessions := response.value;
    } else {
      st.effects := st.effects + [Notify(ErrorNotice)];
    }
    st.isLoadingSuspendedSessions := false;
  }

  /**
   * terminateAndRemoveSshSession and removeSshSessionEntry
   * (sshSuspendActions.ts:272-325), which differ only in the URL they call:
   * on success the first entry with the id leaves the list.
   */
  function DeleteEntryStep(s: Store, suspendSessionId: string, response: Outcome<()>): Store
  {
    match response
    case Returned(_) =>
      if FirstIndexOf(s.suspendedSshSessions, suspendSessionId).Some?
      then s.(suspendedSshSessions := RemoveFirst(s.suspendedSshSessions, suspendSessionId), effects := s.effects + [Notify(Info)])
      else s
    case Threw(_) => s.(effects := s.effects + [Notify(ErrorNotice)])
  }

  /** The failure paths of the delete calls and replies leave the list as it was. */
  lemma DeleteEntryFailureKeepsList(s: Store, suspendSessionId: string, response: Outcome<()>)
    requires response.Threw?
    ensures DeleteEntryStep(s, suspendSessionId, response).suspendedSshSessions == s.suspendedSshSessions
    ensures DeleteEntryStep(s, suspendSessionId, response).sessions == s.sessions
  {
  }

  method DeleteEntry(st: SessionStoreState, suspendSessionId: string, response: Outcome<()>)
    modifies st`suspendedSshSessions, st`effects
    ensures st.Abs() == DeleteEntryStep(old(st.Abs()), suspendSessionId, response)
  {
    if response.Threw? {
      st.effects := st.effects + [Notify(ErrorNotice)];
      return;
    }
    var index := FirstIndexOf(st.suspendedSshSessions, suspendSessionId);
    if index.Some? {
      st.suspendedSshSessions := st.suspendedSshSessions[..index.value] + st.suspendedSshSessions[index.value + 1..];
      st.effects := st.effects + [Notify(Info)];
    }
  }

  /** terminateAndRemoveSshSession (sshSuspendActions.ts:272-296). */
  method TerminateAndRemoveSshSession(st: SessionStoreState, suspendSessionId: string, response: Outcome<()>)
    modifies st`suspendedSshSessions, st`effects
    ensures st.Abs() == DeleteEntryStep(old(st.Abs()), suspendSessionId, response)
  {
    DeleteEntry(st, suspendSessionId, response);
  }

  /** removeSshSessionEntry (sshSuspendActions.ts:302-325). */
  method RemoveSshSessionEntry(st: SessionStoreState, suspendSessionId: string, response: Outcome<()>)
    modifies st`suspendedSshSessions, st`effects
    ensures st.Abs() == DeleteEntryStep(old(st.Abs()), suspendSessionId, response)
  {
    DeleteEntry(st, suspendSessionId, response);
  }

  /**
   * editSshSessionName (sshSuspendActions.ts:332-366): the entry takes the
   * name the server echoes; a missing entry makes the list be fetched again.
   */
  function EditNameStep(s: Store, suspendSessionId: string, response: Outcome<string>): Store
  {
    match response
    case Threw(_) => s.(effects := s.effects + [Notify(ErrorNotice)])
    case Returned(customName) =>
      match FirstIndexOf(s.suspendedSshSessions, suspendSessionId)
      case None => s.(effects := s.effects + [FetchSuspendedList])
      case Some(i) =>
        s.(suspendedSshSessions := s.suspendedSshSessions[i := s.suspendedSshSessions[i].(customSuspendName := Some(customName))],
           effects := s.effects + [Notify(Success)])
  }

  /** A successful rename changes only the custom name of the first entry with that id. */
  lemma EditNameMeaning(s: Store, suspendSessionId: string, customName: string)
    ensures var l, l' := s.suspendedSshSessions, EditNameStep(s, suspendSessionId, Returned(customName)).suspendedSshSessions;
      && |l'| == |l|
      && forall j | 0 <= j < |l| ::
           l'[j] == l[j] || (l[j].suspendSessionId == suspendSessionId && l'[j] == l[j].(customSuspendName := Some(customName)))
    ensures var l' := EditNameStep(s, suspendSessionId, Returned(customName)).suspendedSshSessions;
      (exists j | 0 <= j < |s.suspendedSshSessions| :: s.suspendedSshSessions[j].suspendSessionId == suspendSessionId) ==>
        exists j | 0 <= j < |l'| :: l'[j].suspendSessionId == suspendSessionId && l'[j].customSuspendName == Some(customName)
  {
    var r := FirstIndexOf(s.suspendedSshSessions, suspendSessionId);
    if r.Some? {
      assert s.suspendedSshSessions[r.value].suspendSessionId == suspendSessionId;
    }
  }

  method EditSshSessionName(st: SessionStoreState, suspendSessionId: string, response: Outcome<string>)
    modifies st`suspendedSshSessions, st`effects
    ensures st.Abs() == EditNameStep(old(st.Abs()), suspendSessionId, response)
  {
    if response.Threw? {
      st.effects := st.effects + [Notify(ErrorNotice)];
      return;
    }
    var index := FirstIndexOf(st.suspendedSshSessions, suspendSessionId);
    if index.Some? {
      var i := index.value;
      st.suspendedSshSessions := st.suspendedSshSessions[i := st.suspendedSshSessions[i].(customSuspendName := Some(response.value))];
      st.effects := st.effects + [Notify(Success)];
    } else {
      st.effects := st.effects + [FetchSuspendedList];
    }
  }

  // ------------------------------------------------------------ resume

  /**
   * What resumeSshSession does once its session is open, from
   * sshSuspendActions.ts:216 on: it needs the session under the new id,
   * waits for its manager to connect (`connectedInTime` says whether it did
   * within the 25 polls) and sends the resume request, or closes the session.
   */
  function ResumeContinueStep(s: Store, suspendSessionId: string, newId: string, connectedInTime: bool): Store
    requires StoreValid(s)
  {
    match s.sessions.Get(newId)
    case None => s.(effects := s.effects + [Notify(ErrorNotice)])
    case Some(session) =>
      if !connectedInTime then
        var closed := CloseSessionStep(s, newId);
        closed.(effects := s.effects + [Notify(ErrorNotice)] + closed.effects[|s.effects|..])
      else
        var connected := session.(status := Connected, isConnected := true);
        s.(sessions := s.sessions.Put(newId, connected),
           effects := s.effects + [Send(newId, ResumeRequest(suspendSessionId, newId))])
  }

  /** The checks of sshSuspendActions.ts:186-201: the entry must be listed and its connection id must parse. */
  function ResumeTarget(s: Store, suspendSessionId: string): Option<int>
  {
    match FirstIndexOf(s.suspendedSshSessions, suspendSessionId)
    case None => None
    case Some(i) => ParseInt(s.suspendedSshSessions[i].connectionId)
  }

  /** An id no session has and the counters will never hand out. */
  ghost predicate FreshId(s: Store, id: string)
  {
    && id != "" && id !in s.sessions.entries
    && (forall n: nat | n >= s.sessionIdCounter :: SessionIdFor(n) != id)
    && (forall n: nat | n >= s.uuidCounter :: UuidFor(n) != id)
  }

  /** Drawing a uuid: the store stays valid and the uuid drawn is fresh. */
  lemma DrawUuid(s: Store)
    requires StoreValid(s)
    ensures StoreValid(s.(uuidCounter := s.uuidCounter + 1))
    ensures FreshId(s.(uuidCounter := s.uuidCounter + 1), UuidFor(s.uuidCounter))
  {
    var id := UuidFor(s.uuidCounter);
    assert id[0] == 'u';
    forall n: nat | n >= s.sessionIdCounter
      ensures SessionIdFor(n) != id
    {
      UuidNotSessionId(s.uuidCounter, n);
    }
    forall n: nat | n >= s.uuidCounter + 1
      ensures UuidFor(n) != id
    {
      UuidInjective(n, s.uuidCounter);
    }
  }

  /** resumeSshSession as written (sshSuspendActions.ts:181-266): openNewSession ignores the id it is given. */
  function ResumeAsWrittenStep(s: Store, connections: seq<ConnectionInfo>, suspendSessionId: string, connectedInTime: bool): Store
    requires StoreValid(s)
  {
    match ResumeTarget(s, suspendSessionId)
    case None => s.(effects := s.effects + [Notify(ErrorNotice)])
    case Some(connectionId) =>
      DrawUuid(s);
      ResumeAsWrittenWithId(s.(uuidCounter := s.uuidCounter + 1), connections, connectionId, suspendSessionId, UuidFor(s.uuidCounter), connectedInTime)
  }

  /** From sshSuspendActions.ts:209 on, as written, once the new id is drawn. */
  function ResumeAsWrittenWithId(s: Store, connections: seq<ConnectionInfo>, connectionId: int, suspendSessionId: string, newId: string, connectedInTime: bool): Store
    requires StoreValid(s)
  {
    OpenAddsValid(s, connections, connectionId);
    ResumeContinueStep(OpenNewSessionStep(s, connections, connectionId), suspendSessionId, newId, connectedInTime)
  }

  lemma OpenAddsValid(s: Store, connections: seq<ConnectionInfo>, connectionId: int)
    requires StoreValid(s)
    ensures StoreValid(OpenNewSessionStep(s, connections, connectionId))
  {
    if FindConnection(connections, connectionId).Some? {
      OpenAddsOneFreshSession(s, connections, connectionId);
    }
  }

  /** openNewSession given the id to use (`existingSessionId`), as resumeSshSession means to call it. */
  function OpenWithIdStep(s: Store, connections: seq<ConnectionInfo>, connectionId: int, id: string): Store
    requires s.sessions.Valid()
  {
    match FindConnection(connections, connectionId)
    case None => s
    case Some(conn) =>
      s.(sessions := s.sessions.Put(id, NewSession(id, conn)),
         activeSessionId := Some(id),
         effects := s.effects + [Connect(id)])
  }

  /** Opening a session under a fresh id keeps the store valid; the id is last in the map and active. */
  lemma OpenWithFreshId(s: Store, connections: seq<ConnectionInfo>, connectionId: int, id: string)
    requires StoreValid(s) && FreshId(s, id)
    ensures var s' := OpenWithIdStep(s, connections, connectionId, id);
      && StoreValid(s')
      && (FindConnection(connections, connectionId).Some? ==>
            && s'.sessions.keys == s.sessions.keys + [id]
            && s'.sessions.entries - {id} == s.sessions.entries
            && id in s'.sessions.entries
            && s'.effects == s.effects + [Connect(id)]
            && s'.activeSessionId == Some(id))
  {
    if FindConnection(connections, connectionId).Some? {
      var s' := OpenWithIdStep(s, connections, connectionId, id);
      assert s'.sessions.entries - {id} == s.sessions.entries;
    }
  }

  /** resumeSshSession with the new session opened under the new id (the corrected definition). */
  function ResumeStep(s: Store, connections: seq<ConnectionInfo>, suspendSessionId: string, connectedInTime: bool): Store
    requires StoreValid(s)
  {
    match ResumeTarget(s, suspendSessionId)
    case None => s.(effects := s.effects + [Notify(ErrorNotice)])
    case Some(connectionId) =>
      DrawUuid(s);
      ResumeWithId(s.(uuidCounter := s.uuidCounter + 1), connections, connectionId, suspendSessionId, UuidFor(s.uuidCounter), connectedInTime)
  }

  /** From sshSuspendActions.ts:209 on, corrected, once the new id is drawn. */
  function ResumeWithId(s: Store, connections: seq<ConnectionInfo>, connectionId: int, suspendSessionId: string, newId: string, connectedInTime: bool): Store
    requires StoreValid(s) && FreshId(s, newId)
  {
    OpenWithFreshId(s, connections, connectionId, newId);
    ResumeContinueStep(OpenWithIdStep(s, connections, connectionId, newId), suspendSessionId, newId, connectedInTime)
  }

  /** Both versions give up before opening anything when the entry is not listed or its connection id is not a number. */
  lemma ResumeGuards(s: Store, connections: seq<ConnectionInfo>, suspendSessionId: string, connectedInTime: bool)
    requires StoreValid(s)
    requires ResumeTarget(s, suspendSessionId).None?
    ensures ResumeAsWrittenStep(s, connections, suspendSessionId, connectedInTime) == s.(effects := s.effects + [Notify(ErrorNotice)])
    ensures ResumeStep(s, connections, suspendSessionId, connectedInTime) == s.(effects := s.effects + [Notify(ErrorNotice)])
  {
  }

  /**
   * As written, the lookup of sshSuspendActions.ts:216 never finds the new
   * id: the session just opened sits under a generated session id, so the
   * resume request is never sent and that session stays open and active.
   */
  lemma ResumeAsWrittenNeverSends(s: Store, connections: seq<ConnectionInfo>, connectionId: int, suspendSessionId: string, newId: string, connectedInTime: bool)
    requires StoreValid(s) && FreshId(s, newId)
    requires exists c | c in connections :: c.id == connectionId
    ensures var s' := ResumeAsWrittenWithId(s, connections, connectionId, suspendSessionId, newId, connectedInTime);
      var openedId := SessionIdFor(s.sessionIdCounter);
      && s'.effects == s.effects + [Connect(openedId), Notify(ErrorNotice)]
      && NoSend(s'.effects[|s.effects|..])
      && s'.sessions.keys == s.sessions.keys + [openedId]
      && s'.activeSessionId == Some(openedId)
  {
    OpenAddsOneFreshSession(s, connections, connectionId);
    var s2 := OpenNewSessionStep(s, connections, connectionId);
    assert newId != SessionIdFor(s.sessionIdCounter);
    assert newId !in s2.sessions.entries;
    var s' := ResumeAsWrittenWithId(s, connections, connectionId, suspendSessionId, newId, connectedInTime);
    assert s'.effects[|s.effects|..] == [Connect(SessionIdFor(s.sessionIdCounter)), Notify(ErrorNotice)];
  }

  /**
   * With the id passed through, a known connection whose socket connects in
   * time gets the resume request, for that suspended session, on the new
   * session's own manager, and that session is active and last in the map.
   */
  lemma ResumeSendsRequest(s: Store, connections: seq<ConnectionInfo>, connectionId: int, suspendSessionId: string, newId: string)
    requires StoreValid(s) && FreshId(s, newId)
    requires exists c | c in connections :: c.id == connectionId
    ensures var s' := ResumeWithId(s, connections, connectionId, suspendSessionId, newId, true);
      && StoreValid(s')
      && s'.effects == s.effects + [Connect(newId), Send(newId, ResumeRequest(suspendSessionId, newId))]
      && s'.sessions.keys == s.sessions.keys + [newId]
      && s'.activeSessionId == Some(newId)
      && s'.sessions.entries[newId].isConnected
  {
    OpenWithFreshId(s, connections, connectionId, newId);
    ContinueMeaning(OpenWithIdStep(s, connections, connectionId, newId), suspendSessionId, newId, true);
  }

  /** When the new session's socket does not connect in time, the resume closes it again: the map is as before. */
  lemma ResumeTimeoutCloses(s: Store, connections: seq<ConnectionInfo>, connectionId: int, suspendSessionId: string, newId: string)
    requires StoreValid(s) && FreshId(s, newId)
    requires exists c | c in connections :: c.id == connectionId
    ensures var s' := ResumeWithId(s, connections, connectionId, suspendSessionId, newId, false);
      && StoreValid(s')
      && s'.effects == s.effects + [Connect(newId), Notify(ErrorNotice), Closed(newId)]
      && s'.sessions.keys == s.sessions.keys
      && s'.sessions.entries == s.sessions.entries
  {
    OpenWithFreshId(s, connections, connectionId, newId);
    var s2 := OpenWithIdStep(s, connections, connectionId, newId);
    ContinueMeaning(s2, suspendSessionId, newId, false);
    assert s.effects + [Connect(newId)] + [Notify(ErrorNotice), Closed(newId)] == s.effects + [Connect(newId), Notify(ErrorNotice), Closed(newId)];
    AppendedThenRemoved(s.sessions.keys, newId);
  }

  /** Removing the one occurrence of a key just appended gives the keys back. */
  lemma AppendedThenRemoved(keys: seq<string>, id: string)
    requires NoDuplicates(keys + [id])
    ensures Without(keys + [id], id) == keys
  {
    WithoutAt(keys + [id], id, |keys|);
    assert (keys + [id])[..|keys|] == keys;
  }

  /** The rest of a resume, on a session that is present: it is connected and sent the request, or closed. */
  lemma ContinueMeaning(s: Store, suspendSessionId: string, newId: string, connectedInTime: bool)
    requires StoreValid(s) && newId in s.sessions.entries
    ensures var s' := ResumeContinueStep(s, suspendSessionId, newId, connectedInTime);
      && StoreValid(s')
      && (connectedInTime ==>
            && s'.effects == s.effects + [Send(newId, ResumeRequest(suspendSessionId, newId))]
            && s'.sessions.keys == s.sessions.keys
            && s'.activeSessionId == s.activeSessionId
            && s'.sessions.entries[newId].isConnected)
      && (!connectedInTime ==>
            && s'.effects == s.effects + [Notify(ErrorNotice), Closed(newId)]
            && s'.sessions.keys == Without(s.sessions.keys, newId)
            && s'.sessions.entries == s.sessions.entries - {newId})
  {
    if connectedInTime {
      PutSameIdValid(s, newId, s.sessions.entries[newId].(status := Connected, isConnected := true));
    } else {
      CloseMeaning(s, newId);
    }
  }

  /** resumeSshSession as written (sshSuspendActions.ts:181-266). */
  method ResumeSshSessionAsWritten(st: SessionStoreState, connections: seq<ConnectionInfo>, suspendSessionId: string, connectedInTime: bool)
    requires st.Valid()
    modifies st`sessionIdCounter, st`sessions, st`activeSessionId, st`effects, st`uuidCounter
    ensures st.Valid()
    ensures st.Abs() == ResumeAsWrittenStep(old(st.Abs()), connections, suspendSessionId, connectedInTime)
  {
    var target := ResumeTarget(st.Abs(), suspendSessionId);
    if target.None? {
      st.effects := st.effects + [Notify(ErrorNotice)];
      return;
    }
    ResumeAsWrittenUnfold(st.Abs(), connections, suspendSessionId, connectedInTime);
    var newFrontendSessionId := UuidFor(st.uuidCounter);
    st.uuidCounter := st.uuidCounter + 1;
    ResumeAsWrittenFrom(st, connections, target.value, suspendSessionId, newFrontendSessionId, connectedInTime);
  }

  /** Once the entry is found, the as-written resume draws a uuid and goes on from there. */
  lemma ResumeAsWrittenUnfold(s: Store, connections: seq<ConnectionInfo>, suspendSessionId: string, connectedInTime: bool)
    requires StoreValid(s) && ResumeTarget(s, suspendSessionId).Some?
    ensures StoreValid(s.(uuidCounter := s.uuidCounter + 1))
    ensures ResumeAsWrittenStep(s, connections, suspendSessionId, connectedInTime)
         == ResumeAsWrittenWithId(s.(uuidCounter := s.uuidCounter + 1), connections, ResumeTarget(s, suspendSessionId).value,
                                  suspendSessionId, UuidFor(s.uuidCounter), connectedInTime)
  {
    DrawUuid(s);
  }

  /** sshSuspendActions.ts:209-266 as written, once the new id is drawn. */
  method ResumeAsWrittenFrom(st: SessionStoreState, connections: seq<ConnectionInfo>, connectionId: int, suspendSessionId: string, newId: string, connectedInTime: bool)
    requires st.Valid()
    modifies st`sessionIdCounter, st`sessions, st`activeSessionId, st`effects
    ensures st.Valid()
    ensures st.Abs() == ResumeAsWrittenWithId(old(st.Abs()), connections, connectionId, suspendSessionId, newId, connectedInTime)
  {
    OpenAddsValid(st.Abs(), connections, connectionId);
    OpenNewSession(st, connections, connectionId);
    ResumeContinue(st, suspendSessionId, newId, connectedInTime);
  }

  /** resumeSshSession with the new id passed through (the corrected definition). */
  method ResumeSshSession(st: SessionStoreState, connections: seq<ConnectionInfo>, suspendSessionId: string, connectedInTime: bool)
    requires st.Valid()
    modifies st`sessions, st`activeSessionId, st`effects, st`uuidCounter
    ensures st.Valid()
    ensures st.Abs() == ResumeStep(old(st.Abs()), connections, suspendSessionId, connectedInTime)
  {
    var target := ResumeTarget(st.Abs(), suspendSessionId);
    if target.None? {
      st.effects := st.effects + [Notify(ErrorNotice)];
      return;
    }
    DrawUuid(st.Abs());
    var newFrontendSessionId := UuidFor(st.uuidCounter);
    st.uuidCounter := st.uuidCounter + 1;
    OpenWithId(st, connections, target.value, newFrontendSessionId);
    ResumeContinue(st, suspendSessionId, newFrontendSessionId, connectedInTime);
  }

  /** openNewSession (sessionActions.ts:24-92) given the id the new session is to have. */
  method OpenWithId(st: SessionStoreState, connections: seq<ConnectionInfo>, connectionId: int, id: string)
    requires st.Valid() && FreshId(st.Abs(), id)
    modifies st`sessions, st`activeSessionId, st`effects
    ensures st.Valid()
    ensures st.Abs() == OpenWithIdStep(old(st.Abs()), connections, connectionId, id)
  {
    OpenWithFreshId(st.Abs(), connections, connectionId, id);
    var connInfo := FindConnection(connections, connectionId);
    if connInfo.Some? {
      st.sessions := st.sessions.Put(id, NewSession(id, connInfo.value));
      st.activeSessionId := Some(id);
      st.effects := st.effects + [Connect(id)];
    }
  }

  /** sshSuspendActions.ts:216-249. */
  method ResumeContinue(st: SessionStoreState, suspendSessionId: string, newId: string, connectedInTime: bool)
    requires st.Valid()
    modifies st`sessions, st`activeSessionId, st`effects
    ensures st.Valid()
    ensures st.Abs() == ResumeContinueStep(old(st.Abs()), suspendSessionId, newId, connectedInTime)
  {
    ghost var s := st.Abs();
    var newSessionState := st.sessions.Get(newId);
    if newSessionState.None? {
      st.effects := st.effects + [Notify(ErrorNotice)];
      return;
    }
    if !connectedInTime {
      st.effects := st.effects + [Notify(ErrorNotice)];
      ghost var s1 := st.Abs();
      CloseSession(st, newId);
      assert st.effects == s.effects + [Notify(ErrorNotice)] + CloseSessionStep(s, newId).effects[|s.effects|..];
      return;
    }
    var connected := newSessionState.value.(status := Connected, isConnected := true);
    PutSameIdValid(s, newId, connected);
    st.sessions := st.sessions.Put(newId, connected);
    st.effects := st.effects + [Send(newId, ResumeRequest(suspendSessionId, newId))];
  }

  // ------------------------------------------------ server-to-client replies

  /** handleSshMarkedForSuspendAck (sshSuspendActions.ts:373-404). */
  function MarkedAckStep(s: Store, sessionId: string, success: bool): Store
    requires s.sessions.Valid()
  {
    var s1 := if success then s else s.(effects := s.effects + [Notify(ErrorNotice)]);
    match s.sessions.Get(sessionId)
    case None => s1
    case Some(session) => s1.(sessions := s.sessions.Put(sessionId, session.(isMarkedForSuspend := success)))
  }

  /** handleSshUnmarkedForSuspendAck (sshSuspendActions.ts:406-431). */
  function UnmarkedAckStep(s: Store, sessionId: string, success: bool): Store
    requires s.sessions.Valid()
  {
    if !success then s.(effects := s.effects + [Notify(ErrorNotice)])
    else
      var s1 := s.(effects := s.effects + [Notify(Success)]);
      match s.sessions.Get(sessionId)
      case None => s1
      case Some(session) => s1.(sessions := s.sessions.Put(sessionId, session.(isMarkedForSuspend := false)))
  }

  /**
   * The mark acknowledgement sets the flag of the session it names to the
   * reply's success. No other session changes, and the map keeps its order.
   */
  lemma MarkedAckMeaning(s: Store, sessionId: string, success: bool)
    requires StoreValid(s)
    ensures var s' := MarkedAckStep(s, sessionId, success);
      && StoreValid(s') && s'.sessions.keys == s.sessions.keys && s'.activeSessionId == s.activeSessionId
      && (forall k | k in s.sessions.entries && k != sessionId :: s'.sessions.entries[k] == s.sessions.entries[k])
      && (sessionId in s.sessions.entries ==> s'.sessions.entries[sessionId] == s.sessions.entries[sessionId].(isMarkedForSuspend := success))
  {
    if sessionId in s.sessions.entries {
      PutSameIdValid(s, sessionId, s.sessions.entries[sessionId].(isMarkedForSuspend := success));
    }
  }

  /**
   * A successful unmark acknowledgement clears the flag of the session it
   * names and a failed one leaves the sessions as they were. No other
   * session changes, and the map keeps its order.
   */
  lemma UnmarkedAckMeaning(s: Store, sessionId: string, success: bool)
    requires StoreValid(s)
    ensures var s' := UnmarkedAckStep(s, sessionId, success);
      && StoreValid(s') && s'.sessions.keys == s.sessions.keys
      && (!success ==> s'.sessions == s.sessions)
      && (forall k | k in s.sessions.entries && k != sessionId :: s'.sessions.entries[k] == s.sessions.entries[k])
      && (success && sessionId in s.sessions.entries ==> !s'.sessions.entries[sessionId].isMarkedForSuspend)
  {
    if success && sessionId in s.sessions.entries {
      PutSameIdValid(s, sessionId, s.sessions.entries[sessionId].(isMarkedForSuspend := false));
    }
  }

  method HandleMarkedForSuspendAck(st: SessionStoreState, sessionId: string, success: bool)
    requires st.Valid()
    modifies st`sessions, st`effects
    ensures st.Valid()
    ensures st.Abs() == MarkedAckStep(old(st.Abs()), sessionId, success)
  {
    if !success {
      st.effects := st.effects + [Notify(ErrorNotice)];
    }
    var session := st.sessions.Get(sessionId);
    if session.Some? {
      PutSameIdValid(st.Abs(), sessionId, session.value.(isMarkedForSuspend := success));
      st.sessions := st.sessions.Put(sessionId, session.value.(isMarkedForSuspend := success));
    }
  }

  method HandleUnmarkedForSuspendAck(st: SessionStoreState, sessionId: string, success: bool)
    requires st.Valid()
    modifies st`sessions, st`effects
    ensures st.Valid()
    ensures st.Abs() == UnmarkedAckStep(old(st.Abs()), sessionId, success)
  {
    var session := st.sessions.Get(sessionId);
    if success {
      if session.Some? {
        PutSameIdValid(st.Abs(), sessionId, session.value.(isMarkedForSuspend := false));
        st.sessions := st.sessions.Put(sessionId, session.value.(isMarkedForSuspend := false));
      }
      st.effects := st.effects + [Notify(Success)];
    } else {
      st.effects := st.effects + [Notify(ErrorNotice)];
    }
  }

  /** handleSshSuspendListResponse (sshSuspendActions.ts:433-437). */
  method HandleListResponse(st: SessionStoreState, suspendSessions: seq<Info>)
    modifies st`suspendedSshSessions, st`isLoadingSuspendedSessions
    ensures st.suspendedSshSessions == suspendSessions && !st.isLoadingSuspendedSessions
  {
    st.suspendedSshSessions := suspendSessions;
    st.isLoadingSuspendedSessions := false;
  }

  /** handleSshSuspendResumedNotif (sshSuspendActions.ts:439-509). */
  function ResumedNotifStep(s: Store, newFrontendSessionId: string, success: bool): Store
    requires s.sessions.Valid()
  {
    if success then
      match s.sessions.Get(newFrontendSessionId)
      case None => s.(effects := s.effects + [Notify(ErrorNotice)])
      case Some(session) =>
        var s1 := s.(sessions := s.sessions.Put(newFrontendSessionId, session.(isResuming := true)));
        var s2 := ActivateSessionStep(s1, newFrontendSessionId);
        s2.(effects := s2.effects + [Notify(Success), FetchSuspendedList])
    else
      CloseSessionStep(s.(effects := s.effects + [Notify(ErrorNotice)]), newFrontendSessionId)
  }

  /**
   * A successful resume notification flags the session it names as resuming,
   * makes it active and asks for the list again; a failed one closes that
   * session. The store stays valid.
   */
  lemma ResumedNotifMeaning(s: Store, newFrontendSessionId: string, success: bool)
    requires StoreValid(s)
    ensures var s' := ResumedNotifStep(s, newFrontendSessionId, success);
      && StoreValid(s')
      && (success && newFrontendSessionId in s.sessions.entries ==>
            && s'.activeSessionId == Some(newFrontendSessionId)
            && s'.sessions.entries[newFrontendSessionId].isResuming
            && s'.sessions.keys == s.sessions.keys
            && s'.effects == s.effects + [Notify(Success), FetchSuspendedList])
      && (!success ==> newFrontendSessionId !in s'.sessions.entries)
  {
    if success && newFrontendSessionId in s.sessions.entries {
      PutSameIdValid(s, newFrontendSessionId, s.sessions.entries[newFrontendSessionId].(isResuming := true));
    } else if !success {
      CloseMeaning(s.(effects := s.effects + [Notify(ErrorNotice)]), newFrontendSessionId);
    }
  }

  method HandleResumedNotif(st: SessionStoreState, newFrontendSessionId: string, success: bool)
    requires st.Valid()
    modifies st`sessions, st`activeSessionId, st`effects
    ensures st.Valid()
    ensures st.Abs() == ResumedNotifStep(old(st.Abs()), newFrontendSessionId, success)
  {
    if success {
      var sessionToUpdate := st.sessions.Get(newFrontendSessionId);
      if sessionToUpdate.None? {
        st.effects := st.effects + [Notify(ErrorNotice)];
        return;
      }
      PutSameIdValid(st.Abs(), newFrontendSessionId, sessionToUpdate.value.(isResuming := true));
      st.sessions := st.sessions.Put(newFrontendSessionId, sessionToUpdate.value.(isResuming := true));
      ActivateSession(st, newFrontendSessionId);
      st.effects := st.effects + [Notify(Success), FetchSuspendedList];
    } else {
      st.effects := st.effects + [Notify(ErrorNotice)];
      CloseSession(st, newFrontendSessionId);
    }
  }

  /** handleSshOutputCachedChunk (sshSuspendActions.ts:511-542): written when the terminal exists, held back otherwise. */
  function CachedChunkStep(s: Store, frontendSessionId: string, data: string): (r: Store)
    requires s.sessions.Valid()
    ensures r.sessions.Valid()
  {
    match s.sessions.Get(frontendSessionId)
    case None => s
    case Some(session) =>
      var updated := if session.terminalReady then session.(written := session.written + [data])
                     else session.(pendingOutput := session.pendingOutput + [data]);
      s.(sessions := s.sessions.Put(frontendSessionId, updated))
  }

  /** A run of chunks for one session, applied in arrival order. */
  function ChunksStep(s: Store, frontendSessionId: string, chunks: seq<string>): Store
    requires s.sessions.Valid()
    decreases |chunks|
  {
    if chunks == [] then s
    else ChunksStep(CachedChunkStep(s, frontendSessionId, chunks[0]), frontendSessionId, chunks[1..])
  }

  /** One chunk lands at the end of the session's written or pending output, and nothing else changes. */
  lemma ChunkMeaning(s: Store, frontendSessionId: string, data: string)
    requires StoreValid(s)
    ensures var s' := CachedChunkStep(s, frontendSessionId, data);
      && StoreValid(s') && s'.sessions.keys == s.sessions.keys && s'.activeSessionId == s.activeSessionId
      && s'.effects == s.effects && s'.suspendedSshSessions == s.suspendedSshSessions
      && (frontendSessionId !in s.sessions.entries ==> s' == s)
      && (frontendSessionId in s.sessions.entries ==>
            var before := s.sessions.entries[frontendSessionId];
            s'.sessions.entries == s.sessions.entries[frontendSessionId :=
              if before.terminalReady then before.(written := before.written + [data])
              else before.(pendingOutput := before.pendingOutput + [data])])
  {
    if frontendSessionId in s.sessions.entries {
      PutSameIdValid(s, frontendSessionId, CachedChunkStep(s, frontendSessionId, data).sessions.entries[frontendSessionId]);
    }
  }

  /** What a run of chunks does to one session's output. */
  function Received(before: SessionState, chunks: seq<string>): SessionState
  {
    if before.terminalReady then before.(written := before.written + chunks)
    else before.(pendingOutput := before.pendingOutput + chunks)
  }

  /**
   * Cached chunks reach the terminal, or its pending output when it does not
   * exist yet, whole and in arrival order; nothing else in the session or
   * the map changes, and an unknown session ignores them.
   */
  lemma {:induction false} ChunksInOrder(s: Store, frontendSessionId: string, chunks: seq<string>)
    requires StoreValid(s)
    ensures var s' := ChunksStep(s, frontendSessionId, chunks);
      && StoreValid(s') && s'.sessions.keys == s.sessions.keys && s'.activeSessionId == s.activeSessionId
      && (frontendSessionId !in s.sessions.entries ==> s' == s)
      && (frontendSessionId in s.sessions.entries ==>
            s'.sessions.entries == s.sessions.entries[frontendSessionId := Received(s.sessions.entries[frontendSessionId], chunks)])
    decreases |chunks|
  {
    if chunks == [] {
      if frontendSessionId in s.sessions.entries {
        var before := s.sessions.entries[frontendSessionId];
        assert before.written + [] == before.written && before.pendingOutput + [] == before.pendingOutput;
        assert s.sessions.entries[frontendSessionId := before] == s.sessions.entries;
      }
    } else {
      var s1 := CachedChunkStep(s, frontendSessionId, chunks[0]);
      ChunkMeaning(s, frontendSessionId, chunks[0]);
      ChunksInOrder(s1, frontendSessionId, chunks[1..]);
      if frontendSessionId in s.sessions.entries {
        ReceivedSplit(s.sessions.entries[frontendSessionId], chunks);
      }
    }
  }

  lemma ReceivedSplit(before: SessionState, chunks: seq<string>)
    requires chunks != []
    ensures Received(Received(before, [chunks[0]]), chunks[1..]) == Received(before, chunks)
  {
    assert before.written + [chunks[0]] + chunks[1..] == before.written + chunks;
    assert before.pendingOutput + [chunks[0]] + chunks[1..] == before.pendingOutput + chunks;
  }

  method HandleOutputCachedChunk(st: SessionStoreState, frontendSessionId: string, data: string, isLastChunk: bool)
    requires st.Valid()
    modifies st`sessions
    ensures st.Valid()
    ensures st.Abs() == CachedChunkStep(old(st.Abs()), frontendSessionId, data)
  {
    var session := st.sessions.Get(frontendSessionId);
    if session.Some? {
      var s := session.value;
      var updated := if s.terminalReady then s.(written := s.written + [data]) else s.(pendingOutput := s.pendingOutput + [data]);
      PutSameIdValid(st.Abs(), frontendSessionId, updated);
      st.sessions := st.sessions.Put(frontendSessionId, updated);
    }
  }

  /** handleSshSuspendTerminatedResp and handleSshSuspendEntryRemovedResp (sshSuspendActions.ts:544-584). */
  method HandleDeleteResp(st: SessionStoreState, suspendSessionId: string, success: bool)
    modifies st`suspendedSshSessions, st`effects
    ensures st.Abs() == DeleteEntryStep(old(st.Abs()), suspendSessionId, if success then Returned(()) else Threw(None))
  {
    if success {
      var index := FirstIndexOf(st.suspendedSshSessions, suspendSessionId);
      if index.Some? {
        st.suspendedSshSessions := st.suspendedSshSessions[..index.value] + st.suspendedSshSessions[index.value + 1..];
        st.effects := st.effects + [Notify(Info)];
      }
    } else {
      st.effects := st.effects + [Notify(ErrorNotice)];
    }
  }

  /** handleSshSuspendAutoTerminatedNotif (sshSuspendActions.ts:588-602); `now` is the clock's reading. */
  method HandleAutoTerminatedNotif(st: SessionStoreState, suspendSessionId: string, now: nat)
    modifies st`suspendedSshSessions, st`effects
    ensures st.suspendedSshSessions == MarkDisconnected(old(st.suspendedSshSessions), suspendSessionId, now)
    ensures st.effects == old(st.effects) + if FirstIndexOf(old(st.suspendedSshSessions), suspendSessionId).Some? then [Notify(Warning)] else []
  {
    var index := FirstIndexOf(st.suspendedSshSessions, suspendSessionId);
    if index.Some? {
      var i := index.value;
      st.suspendedSshSessions := st.suspendedSshSessions[i := st.suspendedSshSessions[i].(backendSshStatus := WsTypes.DisconnectedByBackend, disconnectionTimestamp := Some(now))];
      st.effects := st.effects + [Notify(Warning)];
    }
  }
}
