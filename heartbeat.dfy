// The WebSocket heartbeat of packages/backend/src/websocket/heartbeat.ts and
// the pong handler of connection.ts:52. Every tick, a socket that has not
// answered the previous ping is cleaned up and terminated; every other socket
// is marked not-alive and pinged. A pong marks it alive again.
module Heartbeat {
  import opened Wrappers
  import opened WsTypes
  import opened GatewayUtils

  /** What the heartbeat reads and writes on one socket. */
  datatype Beat = Beat(isAlive: bool, terminated: bool, pingsSent: nat)

  /** One tick on one socket (heartbeat.ts:11-17). */
  function TickStep(b: Beat): Beat
  {
    if !b.isAlive then b.(terminated := true)
    else b.(isAlive := false, pingsSent := b.pingsSent + 1)
  }

  /** A pong (connection.ts:52). */
  function PongStep(b: Beat): Beat
  {
    b.(isAlive := true)
  }

  /** Successive ticks; after tick i the socket answers when answered[i]. */
  function Rounds(b: Beat, answered: seq<bool>): Beat
    decreases |answered|
  {
    if answered == [] then b
    else
      var ticked := TickStep(b);
      Rounds(if answered[0] then PongStep(ticked) else ticked, answered[1..])
  }

  /** A live socket that answers every ping is never terminated, and is pinged once per tick. */
  lemma {:induction false} AnsweringSocketSurvives(b: Beat, answered: seq<bool>)
    requires b.isAlive && !b.terminated
    requires forall i :: 0 <= i < |answered| ==> answered[i]
    ensures !Rounds(b, answered).terminated && Rounds(b, answered).isAlive
    ensures Rounds(b, answered).pingsSent == b.pingsSent + |answered|
    decreases |answered|
  {
    if answered != [] {
      AnsweringSocketSurvives(PongStep(TickStep(b)), answered[1..]);
    }
  }

  /**
   * A socket that answers nothing after its last pong is still open after
   * the first tick, terminated by the second, and stays terminated with no
   * further ping.
   */
  lemma {:induction false} SilentSocketTerminated(b: Beat, answered: seq<bool>)
    requires b.isAlive && !b.terminated
    requires forall i :: 0 <= i < |answered| ==> !answered[i]
    ensures |answered| == 1 ==> !Rounds(b, answered).terminated
    ensures |answered| >= 2 ==> Rounds(b, answered).terminated && Rounds(b, answered).pingsSent == b.pingsSent + 1
    decreases |answered|
  {
    if |answered| >= 2 {
      var dead := TickStep(TickStep(b));
      assert Rounds(b, answered) == Rounds(dead, answered[2..]) by {
        assert answered[1..][1..] == answered[2..];
      }
      DeadSocketStaysDead(dead, answered[2..]);
    }
  }

  /** A terminated socket that never answers stays terminated and is not pinged again. */
  lemma {:induction false} DeadSocketStaysDead(b: Beat, answered: seq<bool>)
    requires !b.isAlive && b.terminated
    requires forall i :: 0 <= i < |answered| ==> !answered[i]
    ensures Rounds(b, answered) == b
    decreases |answered|
  {
    if answered != [] {
      DeadSocketStaysDead(TickStep(b), answered[1..]);
    }
  }

  function BeatOf(ws: Socket): Beat
    reads ws
  {
    Beat(ws.isAlive, ws.terminated, ws.pingsSent)
  }

  /** `ws.on('pong', () => ws.isAlive = true)` (connection.ts:52). */
  method OnPong(ws: Socket)
    modifies ws`isAlive
    ensures BeatOf(ws) == PongStep(old(BeatOf(ws)))
  {
    ws.isAlive := true;
  }

  predicate DistinctSockets(clients: seq<Socket>)
  {
    forall i, j :: 0 <= i < j < |clients| ==> clients[i] != clients[j]
  }

  /** What the tick reads of one socket before it runs. */
  datatype View = View(beat: Beat, open: bool, id: Option<string>)

  function ViewOf(ws: Socket): View
    reads ws
  {
    View(BeatOf(ws), ws.isOpen, ws.sessionId)
  }

  /** The sockets as the tick finds them. */
  function Views(clients: seq<Socket>): seq<View>
    reads clients
  {
    seq(|clients|, j reads clients requires 0 <= j < |clients| => ViewOf(clients[j]))
  }

  /** What the loop knows of a socket it has ticked: one TickStep, and closed if it was not alive. */
  ghost predicate Ticked(ws: Socket, v: View)
    reads ws
  {
    BeatOf(ws) == TickStep(v.beat) && ws.isOpen == (v.open && v.beat.isAlive)
  }

  /**
   * What the loop knows of a socket it has not ticked yet: as at the start,
   * except that its session id is cleared when that session is already gone.
   */
  ghost predicate Unticked(ws: Socket, v: View, removed: set<string>)
    reads ws
  {
    && BeatOf(ws) == v.beat && ws.isOpen == v.open
    && (ws.sessionId == v.id || (v.id.Some? && v.id.value in removed && ws.sessionId.None?))
  }

  /** The session a socket's tick cleans up: its id, if it was not alive. */
  function SessionOfDead(ws: Socket): set<string>
    reads ws
  {
    if !ws.isAlive && Truthy(ws.sessionId).Some? then {ws.sessionId.value} else {}
  }

  lemma MapMinusMinus<K, V>(m: map<K, V>, a: set<K>, b: set<K>)
    ensures (m - a) - b == m - (a + b)
  {
  }

  /** The session ids named by the first `n` sockets that were not alive. */
  function DeadSessions(views: seq<View>, n: nat): set<string>
    requires n <= |views|
  {
    if n == 0 then {}
    else DeadSessions(views, n - 1) + DeadAt(views, n - 1)
  }

  function DeadAt(views: seq<View>, i: nat): set<string>
    requires i < |views|
  {
    if !views[i].beat.isAlive && Truthy(views[i].id).Some? then {views[i].id.value} else {}
  }

  /** Exactly the sessions of the sockets that did not answer are cleaned up. */
  lemma {:induction false} DeadSessionsMeaning(views: seq<View>, n: nat)
    requires n <= |views|
    ensures forall i :: 0 <= i < n && !views[i].beat.isAlive && Truthy(views[i].id).Some? ==> views[i].id.value in DeadSessions(views, n)
    ensures forall x | x in DeadSessions(views, n) :: x != "" && exists i :: 0 <= i < n && !views[i].beat.isAlive && views[i].id == Some(x)
  {
    if n > 0 {
      DeadSessionsMeaning(views, n - 1);
    }
  }

  /** The server side: its client sockets and the heartbeat timer. */
  class HeartbeatServer {
    /** `wss.clients`: the sockets the server had when the interval fired. */
    const clients: seq<Socket>
    var intervalActive: bool
    const registry: ClientRegistry

    /** initializeHeartbeat (heartbeat.ts:7-29): the timer is running. */
    constructor (clients: seq<Socket>, registry: ClientRegistry)
      ensures this.clients == clients && this.registry == registry && intervalActive
    {
      this.clients := clients;
      this.registry := registry;
      intervalActive := true;
    }

    /** The server's 'close' handler (heartbeat.ts:22-25): the timer is cleared. */
    method OnServerClose()
      modifies this`intervalActive
      ensures !intervalActive
    {
      intervalActive := false;
    }

    /**
     * One firing of the interval (heartbeat.ts:8-18). Every socket takes one
     * TickStep; a socket that was not alive is also closed and the session
     * its id named is cleaned up, and no other session is.
     */
    method Tick()
      requires DistinctSockets(clients)
      modifies clients, registry, registry.Footprints()
      ensures !intervalActive ==> registry.states == old(registry.states)
      ensures forall i :: 0 <= i < |clients| ==>
        BeatOf(clients[i]) == if intervalActive then TickStep(old(BeatOf(clients[i]))) else old(BeatOf(clients[i]))
      ensures forall i :: 0 <= i < |clients| ==>
        clients[i].isOpen == (old(clients[i].isOpen) && (!intervalActive || old(clients[i].isAlive)))
      ensures intervalActive ==> registry.states == old(registry.states) - old(DeadSessions(Views(clients), |clients|))
    {
      if intervalActive {
        TickAll();
      }
    }

    /** The body of the interval callback: the loop over every client socket. */
    method TickAll()
      requires DistinctSockets(clients)
      modifies clients, registry, registry.Footprints()
      ensures forall i :: 0 <= i < |clients| ==> BeatOf(clients[i]) == TickStep(old(BeatOf(clients[i])))
      ensures forall i :: 0 <= i < |clients| ==> clients[i].isOpen == (old(clients[i].isOpen) && old(clients[i].isAlive))
      ensures registry.states == old(registry.states) - old(DeadSessions(Views(clients), |clients|))
    {
      ghost var views := Views(clients);
      TickLoop(clients, views);
      forall j | 0 <= j < |clients|
        ensures BeatOf(clients[j]) == TickStep(old(BeatOf(clients[j])))
        ensures clients[j].isOpen == (old(clients[j].isOpen) && old(clients[j].isAlive))
      {
        assert Ticked(clients[j], views[j]);
      }
    }

    /** The loop of the interval callback, over sockets whose state before the tick is `views`. */
    method TickLoop(sockets: seq<Socket>, ghost views: seq<View>)
      requires DistinctSockets(sockets) && |views| == |sockets|
      requires forall j :: 0 <= j < |sockets| ==> Unticked(sockets[j], views[j], {})
      modifies sockets, registry, registry.Footprints()
      ensures forall j :: 0 <= j < |sockets| ==> Ticked(sockets[j], views[j])
      ensures registry.states == old(registry.states) - DeadSessions(views, |sockets|)
    {
      ghost var states0 := registry.states;
      var i := 0;
      ghost var removed: set<string> := {};
      while i < |sockets|
        invariant 0 <= i <= |sockets|
        invariant removed == DeadSessions(views, i)
        invariant forall j :: 0 <= j < i ==> Ticked(sockets[j], views[j])
        invariant forall j :: i <= j < |sockets| ==> Unticked(sockets[j], views[j], removed)
        invariant registry.states == states0 - removed
      {
        removed := TickAt(sockets, i, views, states0, removed);
        var next := i + 1;
        assert removed == DeadSessions(views, next);
        i := next;
      }
    }

    /** Pass `i` of the loop: what the loop knows of every socket and of the registry moves from `i` to `i + 1`. */
    method TickAt(sockets: seq<Socket>, i: nat, ghost views: seq<View>, ghost states0: map<string, ClientState>,
                  ghost dead: set<string>)
      returns (ghost dead': set<string>)
      requires DistinctSockets(sockets) && i < |sockets| == |views|
      requires dead == DeadSessions(views, i)
      requires forall j :: 0 <= j < i ==> Ticked(sockets[j], views[j])
      requires forall j :: i <= j < |sockets| ==> Unticked(sockets[j], views[j], dead)
      requires registry.states == states0 - dead
      modifies sockets[i], registry, FootprintsOf(states0)
      ensures dead' == DeadSessions(views, i + 1)
      ensures forall j :: 0 <= j < i + 1 ==> Ticked(sockets[j], views[j])
      ensures forall j :: i + 1 <= j < |sockets| ==> Unticked(sockets[j], views[j], dead')
      ensures registry.states == states0 - dead'
    {
      dead' := dead + DeadAt(views, i);
      FootprintsShrink(states0, dead);
      ghost var now := SessionOfDead(sockets[i]);
      assert dead + now == dead';
      TickSocket(sockets, i);
      MapMinusMinus(states0, dead, now);
    }

    /** The tick's work on clients[i]: the socket's own step, and the cleanup of its session if it was not alive. */
    method TickSocket(clients: seq<Socket>, i: nat)
      requires DistinctSockets(clients) && i < |clients|
      modifies clients[i], registry, registry.Footprints()
      ensures BeatOf(clients[i]) == TickStep(old(BeatOf(clients[i])))
      ensures clients[i].isOpen == (old(clients[i].isOpen) && old(clients[i].isAlive))
      ensures registry.states == old(registry.states) - old(SessionOfDead(clients[i]))
      ensures forall j :: 0 <= j < |clients| && j != i ==>
        && BeatOf(clients[j]) == old(BeatOf(clients[j])) && clients[j].isOpen == old(clients[j].isOpen)
        && (clients[j].sessionId == old(clients[j].sessionId)
            || (clients[j].sessionId.None? && !old(clients[i].isAlive) && Truthy(old(clients[i].sessionId)).Some?
                && old(clients[j].sessionId) == old(clients[i].sessionId)))
    {
      var ws := clients[i];
      assert forall j :: 0 <= j < |clients| && j != i ==> clients[j] != ws;
      if !ws.isAlive {
        var sid := ws.sessionId;
        if sid.Some? && sid.value in registry.states {
          StateInFootprints(registry.states, sid.value);
        }
        CleanupClientConnection(registry, sid);
        ws.terminated := true;
        ws.isOpen := false;
      } else {
        ws.isAlive := false;
        ws.pingsSent := ws.pingsSent + 1;
      }
    }
  }
}
