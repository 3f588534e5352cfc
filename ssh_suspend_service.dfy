// The suspended-SSH-session engine of
// packages/backend/src/services/ssh-suspend.service.ts.
//
// `SshSuspendService` keeps, per user, an insertion-ordered map from suspend
// id to the borrowed ssh2 handles and metadata. A session is `Hanging` while
// the engine owns its channel and logs its output, and becomes
// `DisconnectedByBackend` once, when the connection fails. The temporary log
// store is a map from suspend id to the text logged so far; the uuid
// generator is a counter; timestamps are opaque numbers passed in. The
// store's awaited calls can raise: a method takes each such call's error, if
// any, as a parameter and returns it as `thrown` at that call, keeping what it
// changed before it.
module SshSuspend {
  import opened Wrappers
  import opened Strings
  import opened OrderedMaps
  import opened WsTypes

  /** `SuspendSessionDetails`, as built at ssh-suspend.service.ts:78-89. */
  datatype SuspendDetails = SuspendDetails(
    sshClient: SshClient,
    channel: SshChannel,
    tempLogPath: string,
    connectionName: string,
    connectionId: string,
    suspendStartTime: nat,
    customSuspendName: Option<string>,
    backendSshStatus: SuspendStatus,
    originalSessionId: string,
    userId: int,
    disconnectionTimestamp: Option<nat>)

  /** The payload of the `sessionAutoTerminated` event. */
  datatype AutoTerminatedEvent = AutoTerminatedEvent(userId: int, suspendSessionId: string, reason: string)

  /** What a successful resumeSession hands back to the gateway. */
  datatype ResumeResult = ResumeResult(
    sshClient: SshClient,
    channel: SshChannel,
    logData: string,
    connectionName: string,
    originalConnectionId: string)

  const CLOSED_REASON := "SSH connection closed or errored."
  const DISCONNECTION_REASON := "Unexpected disconnection handled by SshSuspendService."

  /** The engine's channel events: the ones startSuspend takes over. */
  const TAKEN_CHANNEL_EVENTS: set<ChannelEvent> := {ChannelData, ChannelClose, ChannelError, ChannelEnd, ChannelExit}
  /** The channel events removeChannelListeners detaches. */
  const DETACHED_CHANNEL_EVENTS: set<ChannelEvent> := {ChannelData, ChannelClose, ChannelError}
  const CLIENT_EVENTS: set<ClientEvent> := {ClientError, ClientEnd}

  // ------------------------------------------------------------------ ids

  /** The id the uuid generator returns on its `n`-th call. */
  function Uuid(n: nat): string
  {
    "suspend-" + NatToString(n)
  }

  /** The ids handed out by the first `n` calls. */
  function Issued(n: nat): set<string>
  {
    set k | 0 <= k < n :: Uuid(k)
  }

  lemma UuidInjective(a: nat, b: nat)
    ensures Uuid(a) == Uuid(b) ==> a == b
  {
    if Uuid(a) == Uuid(b) {
      assert NatToString(a) == Uuid(a)[8..] == Uuid(b)[8..] == NatToString(b);
      NatToStringInjective(a, b);
    }
  }

  /** The next id was never handed out before. */
  lemma UuidFresh(n: nat)
    ensures Uuid(n) !in Issued(n)
    ensures Issued(n + 1) == Issued(n) + {Uuid(n)}
  {
    forall k | 0 <= k < n
      ensures Uuid(k) != Uuid(n)
    {
      UuidInjective(k, n);
    }
  }

  function TempLogPath(suspendSessionId: string): string
  {
    "./data/temp_suspended_ssh_logs/" + suspendSessionId + ".log"
  }

  /** The list entry for one session (ssh-suspend.service.ts:177-185). */
  function Info(suspendSessionId: string, d: SuspendDetails): SuspendedSessionInfo
  {
    SuspendedSessionInfo(suspendSessionId, d.connectionName, d.connectionId, d.suspendStartTime,
      d.customSuspendName, d.backendSshStatus, d.disconnectionTimestamp)
  }

  /** The listing of one user's map: one info per entry, in insertion order. */
  function InfosOf(m: OMap<string, SuspendDetails>): (r: seq<SuspendedSessionInfo>)
    requires m.Valid()
    ensures |r| == |m.keys|
    ensures forall i :: 0 <= i < |r| ==> r[i].suspendSessionId == m.keys[i] && r[i] == Info(m.keys[i], m.entries[m.keys[i]])
  {
    seq(|m.keys|, i requires 0 <= i < |m.keys| => Info(m.keys[i], m.entries[m.keys[i]]))
  }

  type Sessions = map<int, OMap<string, SuspendDetails>>

  /** getUserSessions' effect on the outer map: an empty map appears for a new user. */
  function WithUser(sessions: Sessions, userId: int): Sessions
  {
    if userId in sessions then sessions else sessions[userId := EmptyMap()]
  }

  /** The user's map, empty when the user has none yet. */
  function UserMap(sessions: Sessions, userId: int): OMap<string, SuspendDetails>
  {
    if userId in sessions then sessions[userId] else EmptyMap()
  }

  // ------------------------------------------------------------ invariant

  /** A stored entry: its id was issued, it sits under its own user, and it has a disconnection time exactly when disconnected. */
  ghost predicate EntryValid(userId: int, suspendSessionId: string, d: SuspendDetails, counter: nat)
  {
    && suspendSessionId in Issued(counter)
    && d.userId == userId
    && (d.backendSshStatus == DisconnectedByBackend <==> d.disconnectionTimestamp.Some?)
  }

  ghost predicate EntriesValid(sessions: Sessions, counter: nat)
  {
    forall u | u in sessions :: sessions[u].Valid()
      && forall id | id in sessions[u].entries :: EntryValid(u, id, sessions[u].entries[id], counter)
  }

  /** No id is stored under two users. */
  ghost predicate UniqueOwner(sessions: Sessions)
  {
    forall u1, u2, id | u1 in sessions && u2 in sessions && id in sessions[u1].entries && id in sessions[u2].entries :: u1 == u2
  }

  ghost predicate LogsIssued(logs: map<string, string>, counter: nat)
  {
    forall id | id in logs :: id in Issued(counter)
  }

  /**
   * Each id is auto-terminated at most once, and an id that was
   * auto-terminated is never again hanging.
   */
  ghost predicate EventsValid(emitted: seq<AutoTerminatedEvent>, sessions: Sessions, counter: nat)
  {
    && (forall i | 0 <= i < |emitted| :: emitted[i].suspendSessionId in Issued(counter))
    && (forall i, j | 0 <= i < j < |emitted| :: emitted[i].suspendSessionId != emitted[j].suspendSessionId)
    && (forall i, u | 0 <= i < |emitted| && u in sessions && emitted[i].suspendSessionId in sessions[u].entries ::
          sessions[u].entries[emitted[i].suspendSessionId].backendSshStatus == DisconnectedByBackend)
  }

  ghost predicate StateValid(sessions: Sessions, logs: map<string, string>, emitted: seq<AutoTerminatedEvent>, counter: nat)
  {
    EntriesValid(sessions, counter) && UniqueOwner(sessions) && LogsIssued(logs, counter) && EventsValid(emitted, sessions, counter)
  }

  lemma IssuedGrows(a: nat, b: nat)
    requires a <= b
    ensures Issued(a) <= Issued(b)
  {
  }

  /** Creating a user's empty map keeps the invariant. */
  lemma WithUserValid(sessions: Sessions, logs: map<string, string>, emitted: seq<AutoTerminatedEvent>, counter: nat, userId: int)
    requires StateValid(sessions, logs, emitted, counter)
    ensures StateValid(WithUser(sessions, userId), logs, emitted, counter)
    ensures UserMap(WithUser(sessions, userId), userId) == UserMap(sessions, userId)
  {
  }

  /**
   * Storing a valid entry under its user keeps the invariant, provided the id
   * is not held by another user and, if the entry is hanging, was never
   * auto-terminated.
   */
  lemma StoreValid(sessions: Sessions, logs: map<string, string>, emitted: seq<AutoTerminatedEvent>, counter: nat,
                   counter': nat, userId: int, suspendSessionId: string, d: SuspendDetails)
    requires StateValid(sessions, logs, emitted, counter) && counter <= counter'
    requires EntryValid(userId, suspendSessionId, d, counter')
    requires forall u | u in sessions && u != userId :: suspendSessionId !in sessions[u].entries
    requires d.backendSshStatus == Hanging ==> forall i | 0 <= i < |emitted| :: emitted[i].suspendSessionId != suspendSessionId
    ensures StateValid(sessions[userId := UserMap(sessions, userId).Put(suspendSessionId, d)], logs, emitted, counter')
  {
    IssuedGrows(counter, counter');
    var s' := sessions[userId := UserMap(sessions, userId).Put(suspendSessionId, d)];
    forall u | u in s'
      ensures s'[u].Valid() && forall id | id in s'[u].entries :: EntryValid(u, id, s'[u].entries[id], counter')
    {
      if u != userId {
        assert s'[u] == sessions[u];
      }
    }
  }

  /** Removing an entry keeps the invariant and leaves its id with no owner. */
  lemma RemoveValid(sessions: Sessions, logs: map<string, string>, emitted: seq<AutoTerminatedEvent>, counter: nat,
                    userId: int, suspendSessionId: string)
    requires StateValid(sessions, logs, emitted, counter)
    ensures var s' := sessions[userId := UserMap(sessions, userId).Remove(suspendSessionId)];
      && StateValid(s', logs, emitted, counter)
      && StateValid(s', logs - {suspendSessionId}, emitted, counter)
      && (UserMap(sessions, userId).Get(suspendSessionId).Some? ==>
            forall u | u in s' :: suspendSessionId !in s'[u].entries)
  {
    var s' := sessions[userId := UserMap(sessions, userId).Remove(suspendSessionId)];
    forall u | u in s'
      ensures s'[u].Valid() && forall id | id in s'[u].entries :: EntryValid(u, id, s'[u].entries[id], counter)
    {
      if u != userId {
        assert s'[u] == sessions[u];
      }
    }
  }

  /** Emitting the event of an id that is stored only as disconnected and never emitted before keeps the invariant. */
  lemma EmitValid(sessions: Sessions, logs: map<string, string>, emitted: seq<AutoTerminatedEvent>, counter: nat, e: AutoTerminatedEvent)
    requires StateValid(sessions, logs, emitted, counter)
    requires e.suspendSessionId in Issued(counter)
    requires forall i | 0 <= i < |emitted| :: emitted[i].suspendSessionId != e.suspendSessionId
    requires forall u | u in sessions && e.suspendSessionId in sessions[u].entries ::
      sessions[u].entries[e.suspendSessionId].backendSshStatus == DisconnectedByBackend
    ensures StateValid(sessions, logs, emitted + [e], counter)
  {
  }

  /**
   * Storing a new hanging entry under the next id keeps the invariant: that
   * id is held by no user, has no log and was never emitted.
   */
  lemma SuspendValid(sessions: Sessions, logs: map<string, string>, emitted: seq<AutoTerminatedEvent>, counter: nat,
                     userId: int, d: SuspendDetails)
    requires StateValid(sessions, logs, emitted, counter)
    requires d.userId == userId && d.backendSshStatus == Hanging && d.disconnectionTimestamp.None?
    ensures forall u | u in sessions :: Uuid(counter) !in sessions[u].entries
    ensures Uuid(counter) !in logs
    ensures StateValid(sessions[userId := UserMap(sessions, userId).Put(Uuid(counter), d)], logs, emitted, counter + 1)
  {
    UuidFresh(counter);
    StoreValid(sessions, logs, emitted, counter, counter + 1, userId, Uuid(counter), d);
  }

  /** The entry a hanging id names when it becomes disconnected at `now`. */
  function Disconnected(d: SuspendDetails, now: nat): SuspendDetails
  {
    d.(backendSshStatus := DisconnectedByBackend, disconnectionTimestamp := Some(now))
  }

  /**
   * Marking a hanging entry disconnected and emitting its event keeps the
   * invariant; the entry's stored user id is the key it sits under.
   */
  lemma DisconnectValid(sessions: Sessions, logs: map<string, string>, emitted: seq<AutoTerminatedEvent>, counter: nat,
                        userId: int, suspendSessionId: string, now: nat, reason: string)
    requires StateValid(sessions, logs, emitted, counter)
    requires UserMap(sessions, userId).Get(suspendSessionId).Some?
    requires UserMap(sessions, userId).Get(suspendSessionId).value.backendSshStatus == Hanging
    ensures var d := UserMap(sessions, userId).Get(suspendSessionId).value;
      && userId in sessions && d.userId == userId
      && StateValid(sessions[userId := sessions[userId].Put(suspendSessionId, Disconnected(d, now))], logs,
           emitted + [AutoTerminatedEvent(userId, suspendSessionId, reason)], counter)
  {
    var d := UserMap(sessions, userId).Get(suspendSessionId).value;
    assert userId in sessions && EntryValid(userId, suspendSessionId, d, counter);
    assert forall i | 0 <= i < |emitted| :: emitted[i].suspendSessionId != suspendSessionId;
    StoreValid(sessions, logs, emitted, counter, counter, userId, suspendSessionId, Disconnected(d, now));
    var s' := sessions[userId := sessions[userId].Put(suspendSessionId, Disconnected(d, now))];
    EmitValid(s', logs, emitted, counter, AutoTerminatedEvent(userId, suspendSessionId, reason));
  }

  class SshSuspendService {
    var suspendedSessions: Sessions
    /** The temporary log store: suspend id -> text logged so far. */
    var logs: map<string, string>
    /** Every `sessionAutoTerminated` event emitted so far, in order. */
    var emitted: seq<AutoTerminatedEvent>
    /** How many ids the uuid generator has handed out. */
    var uuidCounter: nat
    /** The gateway's `clientStates`. */
    const registry: ClientRegistry

    /**
     * The engine's invariant: every stored id was issued once and is keyed
     * under the user it belongs to, in exactly one user's map; the status and
     * the disconnection timestamp agree; and an id appears in at most one
     * emitted event, after which its entry (if still present) is no longer
     * hanging.
     */
    ghost predicate Valid()
      reads this
    {
      StateValid(suspendedSessions, logs, emitted, uuidCounter)
    }

    constructor (registry: ClientRegistry)
      ensures Valid() && this.registry == registry
      ensures suspendedSessions == map[] && logs == map[] && emitted == [] && uuidCounter == 0
    {
      this.registry := registry;
      suspendedSessions := map[];
      logs := map[];
      emitted := [];
      uuidCounter := 0;
    }

    /** The user's map, empty when the user has none yet. */
    function SessionsOf(userId: int): OMap<string, SuspendDetails>
      reads this
    {
      UserMap(suspendedSessions, userId)
    }

    function Lookup(userId: int, suspendSessionId: string): Option<SuspendDetails>
      reads this
    {
      SessionsOf(userId).Get(suspendSessionId)
    }

    predicate IsHanging(userId: int, suspendSessionId: string)
      reads this
    {
      Lookup(userId, suspendSessionId).Some? && Lookup(userId, suspendSessionId).value.backendSshStatus == Hanging
    }

    /** The text logged for an id; a missing log reads as empty. */
    function LogOf(suspendSessionId: string): string
      reads this
    {
      if suspendSessionId in logs then logs[suspendSessionId] else ""
    }

    /** The channel stored for an id, as a frame. */
    function ChannelOf(userId: int, suspendSessionId: string): set<SshChannel>
      reads this
    {
      match Lookup(userId, suspendSessionId)
      case Some(d) => {d.channel}
      case None => {}
    }

    /** The client stored for an id, as a frame. */
    function ClientOf(userId: int, suspendSessionId: string): set<SshClient>
      reads this
    {
      match Lookup(userId, suspendSessionId)
      case Some(d) => {d.sshClient}
      case None => {}
    }

    /** The handles stored for an id, which the operations on it may change. */
    function HandlesOf(userId: int, suspendSessionId: string): set<object>
      reads this
    {
      ChannelOf(userId, suspendSessionId) + ClientOf(userId, suspendSessionId)
    }

    /** getUserSessions (ssh-suspend.service.ts:32-37). */
    method GetUserSessions(userId: int) returns (m: OMap<string, SuspendDetails>)
      requires Valid()
      modifies this`suspendedSessions
      ensures Valid()
      ensures suspendedSessions == WithUser(old(suspendedSessions), userId)
      ensures m == SessionsOf(userId) && m == old(SessionsOf(userId)) && m.Valid()
    {
      if userId !in suspendedSessions {
        suspendedSessions := suspendedSessions[userId := EmptyMap()];
      }
      m := suspendedSessions[userId];
    }

    /** removeChannelListeners (ssh-suspend.service.ts:157-163). */
    static method RemoveChannelListeners(channel: SshChannel, sshClient: SshClient)
      modifies channel`listeners, sshClient`listeners
      ensures channel.listeners == WithoutEvents(old(channel.listeners), DETACHED_CHANNEL_EVENTS)
      ensures sshClient.listeners == WithoutEvents(old(sshClient.listeners), CLIENT_EVENTS)
      ensures channel.DataConsumers() == {}
    {
      channel.listeners := WithoutEvents(channel.listeners, DETACHED_CHANNEL_EVENTS);
      sshClient.listeners := WithoutEvents(sshClient.listeners, CLIENT_EVENTS);
    }

    /**
     * The listener removal of startSuspend (ssh-suspend.service.ts:64-73):
     * every channel and client event loses all its listeners.
     */
    static method DetachAllListeners(channel: SshChannel, sshClient: SshClient)
      modifies channel`listeners, sshClient`listeners
      ensures channel.listeners == WithoutEvents(old(channel.listeners), TAKEN_CHANNEL_EVENTS) == {}
      ensures sshClient.listeners == WithoutEvents(old(sshClient.listeners), CLIENT_EVENTS) == {}
    {
      channel.listeners := WithoutEvents(channel.listeners, TAKEN_CHANNEL_EVENTS);
      sshClient.listeners := WithoutEvents(sshClient.listeners, CLIENT_EVENTS);
      forall e: ChannelEvent
        ensures e in TAKEN_CHANNEL_EVENTS
      {
        assert e.ChannelData? || e.ChannelClose? || e.ChannelError? || e.ChannelEnd? || e.ChannelExit?;
      }
      forall e: ClientEvent
        ensures e in CLIENT_EVENTS
      {
        assert e.ClientError? || e.ClientEnd?;
      }
    }

    /** The ClientState flag of ssh-suspend.service.ts:94-100: the gateway must not clean the session up. */
    static method MarkSuspendedByService(registry: ClientRegistry, originalSessionId: string)
      modifies registry
      ensures registry.states == if originalSessionId in old(registry.states)
        then old(registry.states)[originalSessionId := old(registry.states[originalSessionId]).(isSuspendedByService := true)]
        else old(registry.states)
    {
      if originalSessionId in registry.states {
        var st := registry.states[originalSessionId];
        registry.states := registry.states[originalSessionId := st.(isSuspendedByService := true)];
      }
    }

    /**
     * startSuspend up to its `await` (ssh-suspend.service.ts:59-106): takes a
     * fresh id, detaches every listener from the handles, stores a hanging
     * entry under the caller and marks the original session's ClientState as
     * taken over. Until AttachSuspendListeners runs, the channel's output has
     * no consumer at all.
     */
    method StartSuspendBegin(
      userId: int, originalSessionId: string, sshClient: SshClient, channel: SshChannel,
      connectionName: string, connectionId: string, customSuspendName: Option<string>, now: nat)
      returns (suspendSessionId: string)
      requires Valid()
      modifies this`suspendedSessions, this`uuidCounter, registry, channel`listeners, sshClient`listeners
      ensures Valid()
      ensures suspendSessionId == Uuid(old(uuidCounter)) && uuidCounter == old(uuidCounter) + 1
      ensures forall u | u in old(suspendedSessions) :: suspendSessionId !in old(suspendedSessions[u].entries)
      ensures suspendSessionId !in old(logs) && LogOf(suspendSessionId) == ""
      ensures suspendedSessions == old(suspendedSessions)[userId := old(SessionsOf(userId)).Put(suspendSessionId,
        SuspendDetails(sshClient, channel, TempLogPath(suspendSessionId), connectionName, connectionId, now,
          customSuspendName, Hanging, originalSessionId, userId, None))]
      ensures IsHanging(userId, suspendSessionId)
      ensures logs == old(logs) && emitted == old(emitted)
      ensures registry.states == if originalSessionId in old(registry.states)
        then old(registry.states)[originalSessionId := old(registry.states[originalSessionId]).(isSuspendedByService := true)]
        else old(registry.states)
      ensures channel.listeners == WithoutEvents(old(channel.listeners), TAKEN_CHANNEL_EVENTS) == {}
      ensures sshClient.listeners == WithoutEvents(old(sshClient.listeners), CLIENT_EVENTS) == {}
      ensures channel.DataConsumers() == {}
    {
      suspendSessionId := Uuid(uuidCounter);
      DetachAllListeners(channel, sshClient);
      var details := SuspendDetails(sshClient, channel, TempLogPath(suspendSessionId), connectionName,
        connectionId, now, customSuspendName, Hanging, originalSessionId, userId, None);
      StoreHanging(userId, details);
      MarkSuspendedByService(registry, originalSessionId);
    }

    /**
     * The bookkeeping of startSuspend (ssh-suspend.service.ts:60, 76-92): the
     * next id is spent and the entry is stored under it in the user's map.
     */
    method StoreHanging(userId: int, details: SuspendDetails)
      requires Valid()
      requires details.userId == userId && details.backendSshStatus == Hanging && details.disconnectionTimestamp.None?
      modifies this`suspendedSessions, this`uuidCounter
      ensures Valid()
      ensures uuidCounter == old(uuidCounter) + 1
      ensures forall u | u in old(suspendedSessions) :: Uuid(old(uuidCounter)) !in old(suspendedSessions[u].entries)
      ensures Uuid(old(uuidCounter)) !in logs
      ensures suspendedSessions == old(suspendedSessions)[userId := old(SessionsOf(userId)).Put(Uuid(old(uuidCounter)), details)]
    {
      SuspendValid(suspendedSessions, logs, emitted, uuidCounter, userId, details);
      ghost var s' := suspendedSessions[userId := UserMap(suspendedSessions, userId).Put(Uuid(uuidCounter), details)];
      var userSessions := GetUserSessions(userId);
      suspendedSessions := suspendedSessions[userId := userSessions.Put(Uuid(uuidCounter), details)];
      assert suspendedSessions == s';
      uuidCounter := uuidCounter + 1;
    }

    /**
     * startSuspend after its `await` (ssh-suspend.service.ts:109-148): the
     * logging listener on the channel's output and the failure observer on
     * channel close/error and client error/end.
     */
    static method AttachSuspendListeners(userId: int, suspendSessionId: string, sshClient: SshClient, channel: SshChannel)
      modifies channel`listeners, sshClient`listeners
      ensures channel.listeners == old(channel.listeners) + {
        (ChannelData, AppendToLog(userId, suspendSessionId)),
        (ChannelClose, ObserveFailure(userId, suspendSessionId)),
        (ChannelError, ObserveFailure(userId, suspendSessionId))}
      ensures sshClient.listeners == old(sshClient.listeners) + {
        (ClientError, ObserveFailure(userId, suspendSessionId)),
        (ClientEnd, ObserveFailure(userId, suspendSessionId))}
      ensures channel.DataConsumers() == old(channel.DataConsumers()) + {AppendToLog(userId, suspendSessionId)}
    {
      channel.listeners := channel.listeners + {
        (ChannelData, AppendToLog(userId, suspendSessionId)),
        (ChannelClose, ObserveFailure(userId, suspendSessionId)),
        (ChannelError, ObserveFailure(userId, suspendSessionId))};
      sshClient.listeners := sshClient.listeners + {
        (ClientError, ObserveFailure(userId, suspendSessionId)),
        (ClientEnd, ObserveFailure(userId, suspendSessionId))};
    }

    /**
     * startSuspend as a whole (ssh-suspend.service.ts:50-152) when nothing
     * else runs during its await. `ensureDirFailure` is the outcome of
     * `ensureLogDirectoryExists` (line 106): when it raises, the raise
     * propagates with the entry already stored hanging and the registry
     * already flagged, but with no listener at all on the handles; otherwise
     * the engine's logger is the channel's only data consumer.
     */
    method StartSuspend(
      userId: int, originalSessionId: string, sshClient: SshClient, channel: SshChannel,
      connectionName: string, connectionId: string, customSuspendName: Option<string>, now: nat,
      ensureDirFailure: Option<string>)
      returns (suspendSessionId: string, thrown: Option<string>)
      requires Valid()
      modifies this`suspendedSessions, this`uuidCounter, registry, channel`listeners, sshClient`listeners
      ensures Valid()
      ensures thrown == ensureDirFailure
      ensures suspendSessionId == Uuid(old(uuidCounter)) && uuidCounter == old(uuidCounter) + 1
      ensures forall u | u in old(suspendedSessions) :: suspendSessionId !in old(suspendedSessions[u].entries)
      ensures suspendedSessions == old(suspendedSessions)[userId := old(SessionsOf(userId)).Put(suspendSessionId,
        SuspendDetails(sshClient, channel, TempLogPath(suspendSessionId), connectionName, connectionId, now,
          customSuspendName, Hanging, originalSessionId, userId, None))]
      ensures logs == old(logs) && emitted == old(emitted) && LogOf(suspendSessionId) == ""
      ensures registry.states == if originalSessionId in old(registry.states)
        then old(registry.states)[originalSessionId := old(registry.states[originalSessionId]).(isSuspendedByService := true)]
        else old(registry.states)
      ensures thrown.Some? ==> channel.listeners == {} && sshClient.listeners == {}
      ensures thrown.None? ==>
        && channel.DataConsumers() == {AppendToLog(userId, suspendSessionId)}
        && (forall p | p in channel.listeners :: p.1.Owner() == Engine)
        && (forall p | p in sshClient.listeners :: p.1.Owner() == Engine)
    {
      suspendSessionId := StartSuspendBegin(userId, originalSessionId, sshClient, channel,
        connectionName, connectionId, customSuspendName, now);
      if ensureDirFailure.Some? {
        return suspendSessionId, ensureDirFailure;
      }
      AttachSuspendListeners(userId, suspendSessionId, sshClient, channel);
      thrown := None;
    }

    /**
     * The channel 'data' listener (ssh-suspend.service.ts:109-115): output is
     * appended to the id's log only while the entry exists and is hanging.
     */
    method AppendToSuspendLog(userId: int, suspendSessionId: string, data: string)
      requires Valid()
      modifies this`logs
      ensures Valid()
      ensures logs == if old(IsHanging(userId, suspendSessionId))
        then old(logs)[suspendSessionId := old(LogOf(suspendSessionId)) + data]
        else old(logs)
    {
      if IsHanging(userId, suspendSessionId) {
        logs := logs[suspendSessionId := LogOf(suspendSessionId) + data];
      }
    }

    /**
     * The shared body of handleUnexpectedClose and handleUnexpectedDisconnection:
     * a hanging entry becomes disconnected at `now`, loses its listeners and
     * one event carrying its stored user id is emitted; otherwise nothing happens.
     */
    method Disconnect(userId: int, suspendSessionId: string, now: nat, reason: string)
      requires Valid()
      modifies this`suspendedSessions, this`emitted, ChannelOf(userId, suspendSessionId)`listeners, ClientOf(userId, suspendSessionId)`listeners
      ensures Valid()
      ensures logs == old(logs) && uuidCounter == old(uuidCounter)
      ensures !old(IsHanging(userId, suspendSessionId)) ==>
        suspendedSessions == old(suspendedSessions) && emitted == old(emitted)
      ensures old(IsHanging(userId, suspendSessionId)) ==>
        var d := old(Lookup(userId, suspendSessionId)).value;
        && suspendedSessions == old(suspendedSessions)[userId := old(SessionsOf(userId)).Put(suspendSessionId, Disconnected(d, now))]
        && emitted == old(emitted) + [AutoTerminatedEvent(d.userId, suspendSessionId, reason)]
        && d.userId == userId
        && d.channel.listeners == WithoutEvents(old(d.channel.listeners), DETACHED_CHANNEL_EVENTS)
        && d.sshClient.listeners == WithoutEvents(old(d.sshClient.listeners), CLIENT_EVENTS)
        && d.channel.closeCalled == old(d.channel.closeCalled) && d.sshClient.endCalled == old(d.sshClient.endCalled)
    {
      var current := Lookup(userId, suspendSessionId);
      if current.Some? && current.value.backendSshStatus == Hanging {
        var d := current.value;
        DisconnectValid(suspendedSessions, logs, emitted, uuidCounter, userId, suspendSessionId, now, reason);
        ghost var s' := suspendedSessions[userId := suspendedSessions[userId].Put(suspendSessionId, Disconnected(d, now))];
        ghost var e' := emitted + [AutoTerminatedEvent(userId, suspendSessionId, reason)];
        suspendedSessions := suspendedSessions[userId := suspendedSessions[userId].Put(suspendSessionId, Disconnected(d, now))];
        RemoveChannelListeners(d.channel, d.sshClient);
        emitted := emitted + [AutoTerminatedEvent(d.userId, suspendSessionId, reason)];
        assert suspendedSessions == s' && emitted == e';
      }
    }

    /** The closure handleUnexpectedClose (ssh-suspend.service.ts:117-134). */
    method HandleUnexpectedClose(userId: int, suspendSessionId: string, now: nat)
      requires Valid()
      modifies this`suspendedSessions, this`emitted, ChannelOf(userId, suspendSessionId)`listeners, ClientOf(userId, suspendSessionId)`listeners
      ensures Valid()
      ensures logs == old(logs) && uuidCounter == old(uuidCounter)
      ensures !old(IsHanging(userId, suspendSessionId)) ==>
        suspendedSessions == old(suspendedSessions) && emitted == old(emitted)
      ensures old(IsHanging(userId, suspendSessionId)) ==>
        && Lookup(userId, suspendSessionId).Some?
        && Lookup(userId, suspendSessionId).value.backendSshStatus == DisconnectedByBackend
        && Lookup(userId, suspendSessionId).value.disconnectionTimestamp == Some(now)
        && emitted == old(emitted) + [AutoTerminatedEvent(userId, suspendSessionId, CLOSED_REASON)]
        && Lookup(userId, suspendSessionId).value.channel.DataConsumers() == {}
    {
      Disconnect(userId, suspendSessionId, now, CLOSED_REASON);
    }

    /** handleUnexpectedDisconnection (ssh-suspend.service.ts:333-351). */
    method HandleUnexpectedDisconnection(userId: int, suspendSessionId: string, now: nat)
      requires Valid()
      modifies this`suspendedSessions, this`emitted, ChannelOf(userId, suspendSessionId)`listeners, ClientOf(userId, suspendSessionId)`listeners
      ensures Valid()
      ensures logs == old(logs) && uuidCounter == old(uuidCounter)
      ensures !old(IsHanging(userId, suspendSessionId)) ==>
        suspendedSessions == WithUser(old(suspendedSessions), userId) && emitted == old(emitted)
      ensures old(IsHanging(userId, suspendSessionId)) ==>
        && Lookup(userId, suspendSessionId).Some?
        && Lookup(userId, suspendSessionId).value.backendSshStatus == DisconnectedByBackend
        && Lookup(userId, suspendSessionId).value.disconnectionTimestamp == Some(now)
        && emitted == old(emitted) + [AutoTerminatedEvent(userId, suspendSessionId, DISCONNECTION_REASON)]
        && Lookup(userId, suspendSessionId).value.channel.DataConsumers() == {}
    {
      var _ := GetUserSessions(userId);
      Disconnect(userId, suspendSessionId, now, DISCONNECTION_REASON);
    }

    /** listSuspendedSessions (ssh-suspend.service.ts:172-190): every entry of the user, in insertion order. */
    method ListSuspendedSessions(userId: int) returns (infos: seq<SuspendedSessionInfo>)
      requires Valid()
      modifies this`suspendedSessions
      ensures Valid()
      ensures suspendedSessions == WithUser(old(suspendedSessions), userId)
      ensures SessionsOf(userId).Valid() && infos == InfosOf(SessionsOf(userId))
    {
      var userSessions := GetUserSessions(userId);
      infos := [];
      var i := 0;
      while i < |userSessions.keys|
        invariant 0 <= i <= |userSessions.keys|
        invariant |infos| == i
        invariant forall j :: 0 <= j < i ==>
          infos[j] == Info(userSessions.keys[j], userSessions.entries[userSessions.keys[j]])
      {
        var id := userSessions.keys[i];
        infos := infos + [Info(id, userSessions.entries[id])];
        i := i + 1;
      }
    }

    /**
     * resumeSession (ssh-suspend.service.ts:198-226): only a hanging entry
     * of this very user is resumed. Its listeners are detached first; then
     * the log is read (`readLogFailure` raises here, with the entry still
     * stored), the entry is deleted and the log is deleted
     * (`deleteLogFailure` raises here, with the entry already gone and the
     * handles lost). When neither raises, the handles come back with the
     * whole log and entry and log are gone.
     */
    method ResumeSession(userId: int, suspendSessionId: string, readLogFailure: Option<string>, deleteLogFailure: Option<string>)
      returns (result: Option<ResumeResult>, thrown: Option<string>)
      requires Valid()
      modifies this`suspendedSessions, this`logs, ChannelOf(userId, suspendSessionId)`listeners, ClientOf(userId, suspendSessionId)`listeners
      ensures Valid()
      ensures emitted == old(emitted) && uuidCounter == old(uuidCounter)
      ensures thrown == if !old(IsHanging(userId, suspendSessionId)) then None
        else if readLogFailure.Some? then readLogFailure else deleteLogFailure
      ensures result.Some? <==> old(IsHanging(userId, suspendSessionId)) && thrown.None?
      ensures !old(IsHanging(userId, suspendSessionId)) || readLogFailure.Some? ==>
        suspendedSessions == WithUser(old(suspendedSessions), userId) && logs == old(logs)
      ensures old(IsHanging(userId, suspendSessionId)) && readLogFailure.None? ==>
        && suspendedSessions == old(suspendedSessions)[userId := old(SessionsOf(userId)).Remove(suspendSessionId)]
        && (forall u | u in suspendedSessions :: suspendSessionId !in suspendedSessions[u].entries)
        && logs == if deleteLogFailure.Some? then old(logs) else old(logs) - {suspendSessionId}
      ensures old(IsHanging(userId, suspendSessionId)) ==>
        var d := old(Lookup(userId, suspendSessionId)).value;
        && d.channel.listeners == WithoutEvents(old(d.channel.listeners), DETACHED_CHANNEL_EVENTS)
        && d.sshClient.listeners == WithoutEvents(old(d.sshClient.listeners), CLIENT_EVENTS)
        && d.channel.closeCalled == old(d.channel.closeCalled) && d.sshClient.endCalled == old(d.sshClient.endCalled)
        && (result.Some? ==> result.value == ResumeResult(d.sshClient, d.channel, old(LogOf(suspendSessionId)), d.connectionName, d.connectionId))
    {
      var userSessions := GetUserSessions(userId);
      var session := userSessions.Get(suspendSessionId);
      RemoveValid(suspendedSessions, logs, emitted, uuidCounter, userId, suspendSessionId);
      if session.None? || session.value.backendSshStatus != Hanging {
        return None, None;
      }
      var d := session.value;
      RemoveChannelListeners(d.channel, d.sshClient);
      if readLogFailure.Some? {
        return None, readLogFailure;
      }
      var logData := LogOf(suspendSessionId);
      DeleteEntry(userId, suspendSessionId);
      if deleteLogFailure.Some? {
        return None, deleteLogFailure;
      }
      DeleteLog(suspendSessionId);
      result := Some(ResumeResult(d.sshClient, d.channel, logData, d.connectionName, d.connectionId));
      thrown := None;
    }

    /**
     * terminateSuspendedSession (ssh-suspend.service.ts:234-268): a hanging
     * entry is detached (so no auto-terminated event can follow), its
     * channel closed and client ended; a disconnected one is only removed.
     * Either is then deleted from the map before its log is deleted, and
     * `deleteLogFailure` raises at that last step. An unknown id gives false.
     */
    method TerminateSuspendedSession(userId: int, suspendSessionId: string, deleteLogFailure: Option<string>)
      returns (ok: bool, thrown: Option<string>)
      requires Valid()
      modifies this`suspendedSessions, this`logs, ChannelOf(userId, suspendSessionId)`listeners, ClientOf(userId, suspendSessionId)`listeners,
        ChannelOf(userId, suspendSessionId)`closeCalled, ClientOf(userId, suspendSessionId)`endCalled
      ensures Valid()
      ensures emitted == old(emitted) && uuidCounter == old(uuidCounter)
      ensures thrown == if old(Lookup(userId, suspendSessionId)).Some? then deleteLogFailure else None
      ensures ok <==> old(Lookup(userId, suspendSessionId)).Some? && thrown.None?
      ensures old(Lookup(userId, suspendSessionId)).None? ==> suspendedSessions == WithUser(old(suspendedSessions), userId) && logs == old(logs)
      ensures old(Lookup(userId, suspendSessionId)).Some? ==>
        && suspendedSessions == old(suspendedSessions)[userId := old(SessionsOf(userId)).Remove(suspendSessionId)]
        && logs == if thrown.Some? then old(logs) else old(logs) - {suspendSessionId}
      ensures old(IsHanging(userId, suspendSessionId)) ==>
        var d := old(Lookup(userId, suspendSessionId)).value;
        && d.channel.listeners == WithoutEvents(old(d.channel.listeners), DETACHED_CHANNEL_EVENTS)
        && d.sshClient.listeners == WithoutEvents(old(d.sshClient.listeners), CLIENT_EVENTS)
        && d.channel.closeCalled && d.sshClient.endCalled
      ensures old(Lookup(userId, suspendSessionId)).Some? && !old(IsHanging(userId, suspendSessionId)) ==>
        var d := old(Lookup(userId, suspendSessionId)).value;
        && d.channel.listeners == old(d.channel.listeners) && d.sshClient.listeners == old(d.sshClient.listeners)
        && d.channel.closeCalled == old(d.channel.closeCalled) && d.sshClient.endCalled == old(d.sshClient.endCalled)
    {
      var userSessions := GetUserSessions(userId);
      var session := userSessions.Get(suspendSessionId);
      RemoveValid(suspendedSessions, logs, emitted, uuidCounter, userId, suspendSessionId);
      if session.None? {
        return false, None;
      }
      var d := session.value;
      if d.backendSshStatus == Hanging {
        CloseHandles(d.channel, d.sshClient);
      }
      DeleteEntry(userId, suspendSessionId);
      if deleteLogFailure.Some? {
        return false, deleteLogFailure;
      }
      DeleteLog(suspendSessionId);
      ok, thrown := true, None;
    }

    /** The shutdown of a hanging session (ssh-suspend.service.ts:250-261): listeners detached, channel closed, client ended. */
    static method CloseHandles(channel: SshChannel, sshClient: SshClient)
      modifies channel`listeners, sshClient`listeners, channel`closeCalled, sshClient`endCalled
      ensures channel.listeners == WithoutEvents(old(channel.listeners), DETACHED_CHANNEL_EVENTS)
      ensures sshClient.listeners == WithoutEvents(old(sshClient.listeners), CLIENT_EVENTS)
      ensures channel.closeCalled && sshClient.endCalled
    {
      RemoveChannelListeners(channel, sshClient);
      channel.closeCalled := true;
      sshClient.endCalled := true;
    }

    /** `userSessions.delete(suspendSessionId)`: the id is then held by no user. */
    method DeleteEntry(userId: int, suspendSessionId: string)
      requires Valid()
      modifies this`suspendedSessions
      ensures Valid()
      ensures suspendedSessions == old(suspendedSessions)[userId := old(SessionsOf(userId)).Remove(suspendSessionId)]
      ensures old(Lookup(userId, suspendSessionId)).Some? ==>
        forall u | u in suspendedSessions :: suspendSessionId !in suspendedSessions[u].entries
    {
      RemoveValid(suspendedSessions, logs, emitted, uuidCounter, userId, suspendSessionId);
      suspendedSessions := suspendedSessions[userId := SessionsOf(userId).Remove(suspendSessionId)];
    }

    /** A successful `logStorageService.deleteLog(suspendSessionId)`. */
    method DeleteLog(suspendSessionId: string)
      requires Valid()
      modifies this`logs
      ensures Valid()
      ensures logs == old(logs) - {suspendSessionId}
    {
      logs := logs - {suspendSessionId};
    }

    /**
     * removeDisconnectedSessionEntry (ssh-suspend.service.ts:276-301): refuses
     * a hanging entry; otherwise removes the entry if there is one and
     * deletes the log, reporting whether the log deletion succeeded.
     * `deleteLogFails` is the log store's outcome.
     */
    method RemoveDisconnectedSessionEntry(userId: int, suspendSessionId: string, deleteLogFails: bool) returns (ok: bool)
      requires Valid()
      modifies this`suspendedSessions, this`logs
      ensures Valid()
      ensures emitted == old(emitted) && uuidCounter == old(uuidCounter)
      ensures ok <==> !old(IsHanging(userId, suspendSessionId)) && !deleteLogFails
      ensures old(IsHanging(userId, suspendSessionId)) ==>
        suspendedSessions == WithUser(old(suspendedSessions), userId) && logs == old(logs)
      ensures !old(IsHanging(userId, suspendSessionId)) ==>
        && suspendedSessions == old(suspendedSessions)[userId := old(SessionsOf(userId)).Remove(suspendSessionId)]
        && logs == if deleteLogFails then old(logs) else old(logs) - {suspendSessionId}
    {
      var userSessions := GetUserSessions(userId);
      var session := userSessions.Get(suspendSessionId);
      RemoveValid(suspendedSessions, logs, emitted, uuidCounter, userId, suspendSessionId);
      if session.Some? && session.value.backendSshStatus == Hanging {
        return false;
      }
      if session.Some? {
        suspendedSessions := suspendedSessions[userId := userSessions.Remove(suspendSessionId)];
      } else {
        assert userSessions.Remove(suspendSessionId) == userSessions by {
          WithoutAbsent(userSessions.keys, suspendSessionId);
        }
      }
      if deleteLogFails {
        ok := false;
      } else {
        logs := logs - {suspendSessionId};
        ok := true;
      }
    }

    /** editSuspendedSessionName (ssh-suspend.service.ts:311-325): only customSuspendName changes. */
    method EditSuspendedSessionName(userId: int, suspendSessionId: string, newCustomName: string) returns (ok: bool)
      requires Valid()
      modifies this`suspendedSessions
      ensures Valid()
      ensures ok <==> old(Lookup(userId, suspendSessionId)).Some?
      ensures !ok ==> suspendedSessions == WithUser(old(suspendedSessions), userId)
      ensures ok ==> suspendedSessions == old(suspendedSessions)[userId := old(SessionsOf(userId)).Put(suspendSessionId,
        old(Lookup(userId, suspendSessionId)).value.(customSuspendName := Some(newCustomName)))]
    {
      var userSessions := GetUserSessions(userId);
      var session := userSessions.Get(suspendSessionId);
      if session.None? {
        return false;
      }
      var d := session.value;
      assert EntryValid(userId, suspendSessionId, d, uuidCounter);
      assert d.backendSshStatus == Hanging ==> forall i | 0 <= i < |emitted| :: emitted[i].suspendSessionId != suspendSessionId;
      var updated := d.(customSuspendName := Some(newCustomName));
      StoreValid(suspendedSessions, logs, emitted, uuidCounter, uuidCounter, userId, suspendSessionId, updated);
      suspendedSessions := suspendedSessions[userId := userSessions.Put(suspendSessionId, updated)];
      ok := true;
    }
  }
}
