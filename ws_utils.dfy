// The gateway helpers of packages/backend/src/websocket/utils.ts: the parser
// of Docker's "Ports" column and the cleanup of one session's ClientState.
module GatewayUtils {
  import opened Wrappers
  import opened Strings
  import opened WsTypes

  /** `PortInfo` (types.ts:27-32). */
  datatype PortInfo = PortInfo(ip: Option<string>, privatePort: int, publicPort: Option<int>, portType: string)

  // ------------------------------------------------------- regex classes

  /** `\w`: ASCII letters, digits and '_'. */
  predicate IsWordChar(c: char)
  {
    ('a' <= c <= 'z') || ('A' <= c <= 'Z') || IsDigit(c) || c == '_'
  }

  predicate AllWord(s: string)
  {
    forall i :: 0 <= i < |s| ==> IsWordChar(s[i])
  }

  /** The class `[\d.:a-fA-F]`. */
  predicate IsAddressChar(c: char)
  {
    IsDigit(c) || c == '.' || c == ':' || ('a' <= c <= 'f') || ('A' <= c <= 'F')
  }

  predicate AllAddress(s: string)
  {
    forall i :: 0 <= i < |s| ==> IsAddressChar(s[i])
  }

  function IndexOf(s: string, c: char): (r: Option<nat>)
    ensures r.Some? ==> r.value < |s| && s[r.value] == c && c !in s[..r.value]
    ensures r.None? ==> c !in s
    decreases |s|
  {
    if s == [] then None
    else if s[0] == c then Some(0)
    else match IndexOf(s[1..], c)
      case None => None
      case Some(i) =>
        assert s[..i + 1] == [s[0]] + s[1..][..i];
        Some(i + 1)
  }

  function LastIndexOf(s: string, c: char): (r: Option<nat>)
    ensures r.Some? ==> r.value < |s| && s[r.value] == c && c !in s[r.value + 1..]
    ensures r.None? ==> c !in s
    decreases |s|
  {
    if s == [] then None
    else if s[|s| - 1] == c then Some(|s| - 1)
    else
      var init := s[..|s| - 1];
      assert s == init + [s[|s| - 1]];
      match LastIndexOf(init, c)
      case None => None
      case Some(i) =>
        assert s[i + 1..] == init[i + 1..] + [s[|s| - 1]];
        Some(i)
  }

  // ---------------------------------------------------- the private part

  /** `p` matches `^(\d+)\/(tcp|udp|\w+)$` with captures `digits` and `portType`. */
  predicate PrivateShape(p: string, digits: string, portType: string)
  {
    |digits| > 0 && AllDigits(digits) && |portType| > 0 && AllWord(portType) && p == digits + "/" + portType
  }

  /** The match of the private-part regex (utils.ts:29): the captures, or None. */
  function PrivateMatch(p: string): Option<(string, string)>
  {
    match IndexOf(p, '/')
    case None => None
    case Some(i) =>
      var digits := p[..i];
      var portType := p[i + 1..];
      if |digits| > 0 && AllDigits(digits) && |portType| > 0 && AllWord(portType)
      then Some((digits, portType)) else None
  }

  /** Whatever PrivateMatch returns is a match of the regex... */
  lemma PrivateMatchSound(p: string)
    ensures PrivateMatch(p).Some? ==> PrivateShape(p, PrivateMatch(p).value.0, PrivateMatch(p).value.1)
  {
    if PrivateMatch(p).Some? {
      var i := IndexOf(p, '/').value;
      assert p == p[..i] + "/" + p[i + 1..];
    }
  }

  /** ...and every match of the regex is found, with the same captures. */
  lemma PrivateMatchComplete(p: string, digits: string, portType: string)
    requires PrivateShape(p, digits, portType)
    ensures PrivateMatch(p) == Some((digits, portType))
  {
    var n := |digits|;
    assert p[n] == '/';
    assert p[..n] == digits;
    assert '/' !in digits by {
      forall k | 0 <= k < n ensures digits[k] != '/' {
        assert IsDigit(digits[k]);
      }
    }
    assert IndexOf(p, '/') == Some(n);
    assert p[n + 1..] == portType;
  }

  // ----------------------------------------------------- the public part

  /** `p` matches `^(?:([\d.:a-fA-F]+):)?(\d+)$`; `ip` is capture 1 (absent when the group did not take part). */
  predicate PublicShape(p: string, ip: Option<string>, port: string)
  {
    && |port| > 0 && AllDigits(port)
    && match ip
       case None => p == port
       case Some(a) => |a| > 0 && AllAddress(a) && p == a + ":" + port
  }

  /**
   * The match of the public-part regex (utils.ts:42). The port cannot hold a
   * ':', so the optional group always ends at the last ':'.
   */
  function PublicMatch(p: string): Option<(Option<string>, string)>
  {
    match LastIndexOf(p, ':')
    case None => if |p| > 0 && AllDigits(p) then Some((None, p)) else None
    case Some(i) =>
      var a := p[..i];
      var port := p[i + 1..];
      if |a| > 0 && AllAddress(a) && |port| > 0 && AllDigits(port) then Some((Some(a), port)) else None
  }

  lemma PublicMatchSound(p: string)
    ensures PublicMatch(p).Some? ==> PublicShape(p, PublicMatch(p).value.0, PublicMatch(p).value.1)
  {
    if PublicMatch(p).Some? && LastIndexOf(p, ':').Some? {
      var i := LastIndexOf(p, ':').value;
      assert p == p[..i] + ":" + p[i + 1..];
    }
  }

  lemma PublicMatchComplete(p: string, ip: Option<string>, port: string)
    requires PublicShape(p, ip, port)
    ensures PublicMatch(p) == Some((ip, port))
  {
    assert ':' !in port by {
      forall k | 0 <= k < |port| ensures port[k] != ':' {
        assert IsDigit(port[k]);
      }
    }
    match ip
    case None =>
    case Some(a) =>
      var n := |a|;
      assert p[n] == ':';
      assert p[n + 1..] == port;
      assert LastIndexOf(p, ':') == Some(n);
      assert p[..n] == a;
  }

  // ------------------------------------------------------------- entries

  /** `entry.split('->')` read as (public part, private part); None when it has three or more pieces. */
  function PartsOf(entry: string): (r: Option<(string, string)>)
    ensures r.Some? ==> entry == r.value.0 + "->" + r.value.1 || (r.value.0 == "" && entry == r.value.1)
    ensures r.None? <==> |Split(entry, "->")| > 2
  {
    var parts := Split(entry, "->");
    JoinSplit(entry, "->");
    if |parts| == 2 then
      assert parts[1..] == [parts[1]];
      Some((parts[0], parts[1]))
    else if |parts| == 1 then Some(("", parts[0]))
    else None
  }

  /** An entry without "->" is a private part only. */
  lemma PartsOfNoArrow(entry: string)
    requires !Contains(entry, "->")
    ensures PartsOf(entry) == Some(("", entry))
  {
    SplitCount(entry, "->");
    JoinSplit(entry, "->");
  }

  /** One iteration of the loop at utils.ts:14-60: the port an entry contributes, if any. */
  function EntryToPort(entry: string): Option<PortInfo>
  {
    match PartsOf(entry)
    case None => None
    case Some((publicPart, privatePart)) =>
      match PrivateMatch(privatePart)
      case None => None
      case Some((digits, portType)) =>
        var privatePort := ParseInt(digits);
        var publicMatch := if publicPart != "" then PublicMatch(publicPart) else None;
        var ip := if publicMatch.Some? then publicMatch.value.0 else None;
        var publicPort := if publicMatch.Some? then ParseInt(publicMatch.value.1) else None;
        if privatePort.None? then None
        else Some(PortInfo(ip, privatePort.value, publicPort, portType))
  }

  /**
   * An entry with at most one "->" whose private part matches the regex is
   * kept, with the private part's number and protocol; the isNaN guard
   * never drops it.
   */
  lemma EntryToPortPrivate(entry: string, digits: string, portType: string)
    requires PartsOf(entry).Some? && PrivateShape(PartsOf(entry).value.1, digits, portType)
    ensures EntryToPort(entry).Some?
    ensures EntryToPort(entry).value.privatePort == DigitsValue(digits)
    ensures EntryToPort(entry).value.portType == portType
  {
    PrivateMatchComplete(PartsOf(entry).value.1, digits, portType);
    ParseIntOfDigits(digits);
  }

  /** Any other entry is skipped. */
  lemma EntryToPortSkipped(entry: string)
    requires PartsOf(entry).None? || forall d, t :: !PrivateShape(PartsOf(entry).value.1, d, t)
    ensures EntryToPort(entry).None?
  {
    if PartsOf(entry).Some? {
      PrivateMatchSound(PartsOf(entry).value.1);
    }
  }

  /** A public part matching its regex gives the IP (if any) and the public port. */
  lemma EntryToPortPublic(entry: string, ip: Option<string>, port: string)
    requires EntryToPort(entry).Some? && PublicShape(PartsOf(entry).value.0, ip, port)
    ensures EntryToPort(entry).value.ip == ip
    ensures EntryToPort(entry).value.publicPort == Some(DigitsValue(port))
  {
    PublicMatchComplete(PartsOf(entry).value.0, ip, port);
    ParseIntOfDigits(port);
  }

  /** An empty or unmatched public part leaves IP and public port undefined but keeps the entry. */
  lemma EntryToPortNoPublic(entry: string)
    requires EntryToPort(entry).Some? && forall ip, port :: !PublicShape(PartsOf(entry).value.0, ip, port)
    ensures EntryToPort(entry).value.ip.None? && EntryToPort(entry).value.publicPort.None?
  {
    PublicMatchSound(PartsOf(entry).value.0);
  }

  /** The ports of a list of entries, in entry order. */
  function PortsOf(entries: seq<string>): seq<PortInfo>
  {
    FilterMap(EntryToPort, entries)
  }

  /** `f` applied to every element, keeping the defined results in order. */
  function FilterMap<A, B>(f: A -> Option<B>, s: seq<A>): seq<B>
    decreases |s|
  {
    if s == [] then []
    else
      var rest := FilterMap(f, s[1..]);
      match f(s[0])
      case Some(b) => [b] + rest
      case None => rest
  }

  lemma {:induction false} FilterMapAppend<A, B>(f: A -> Option<B>, a: seq<A>, b: seq<A>)
    ensures FilterMap(f, a + b) == FilterMap(f, a) + FilterMap(f, b)
    decreases |a|
  {
    if a != [] {
      assert (a + b)[0] == a[0] && (a + b)[1..] == a[1..] + b;
      FilterMapAppend(f, a[1..], b);
    } else {
      assert a + b == b;
    }
  }

  lemma FilterMapSnoc<A, B>(f: A -> Option<B>, s: seq<A>, x: A)
    ensures FilterMap(f, s + [x]) == FilterMap(f, s) + match f(x) case Some(b) => [b] case None => []
  {
    FilterMapAppend(f, s, [x]);
    assert [x][1..] == [];
  }

  /**
   * The output is an order-preserving selection of the input: the k-th
   * result comes from element r[k], and those indices increase.
   */
  lemma {:induction false} FilterMapOrigins<A, B>(f: A -> Option<B>, s: seq<A>) returns (r: seq<nat>)
    ensures |r| == |FilterMap(f, s)| <= |s|
    ensures forall k :: 0 <= k < |r| ==> r[k] < |s| && f(s[r[k]]) == Some(FilterMap(f, s)[k])
    ensures forall k, l :: 0 <= k < l < |r| ==> r[k] < r[l]
    decreases |s|
  {
    if s == [] {
      return [];
    }
    var tail := s[1..];
    var rest := FilterMapOrigins(f, tail);
    var shifted := Shifted(rest);
    var out := FilterMap(f, s);
    var outTail := FilterMap(f, tail);
    if f(s[0]).Some? {
      assert out == [f(s[0]).value] + outTail;
      r := [0] + shifted;
      forall k | 0 < k < |r|
        ensures r[k] < |s| && f(s[r[k]]) == Some(out[k])
      {
        assert r[k] == rest[k - 1] + 1 && s[r[k]] == tail[rest[k - 1]] && out[k] == outTail[k - 1];
      }
    } else {
      assert out == outTail;
      r := shifted;
      forall k | 0 <= k < |r|
        ensures r[k] < |s| && f(s[r[k]]) == Some(out[k])
      {
        assert s[r[k]] == tail[rest[k]];
      }
    }
  }

  function Shifted(s: seq<nat>): (r: seq<nat>)
    ensures |r| == |s| && forall k :: 0 <= k < |s| ==> r[k] == s[k] + 1
  {
    seq(|s|, k requires 0 <= k < |s| => s[k] + 1)
  }

  /** PortsOf distributes over concatenation of entry lists. */
  lemma PortsOfAppend(a: seq<string>, b: seq<string>)
    ensures PortsOf(a + b) == PortsOf(a) + PortsOf(b)
  {
    FilterMapAppend(EntryToPort, a, b);
  }

  /** Every port comes from its own entry, in entry order, so there are at most as many ports as entries. */
  lemma PortsOfSelection(entries: seq<string>)
    ensures |PortsOf(entries)| <= |entries|
    ensures exists r: seq<nat> ::
      && |r| == |PortsOf(entries)|
      && (forall k :: 0 <= k < |r| ==> r[k] < |entries| && EntryToPort(entries[r[k]]) == Some(PortsOf(entries)[k]))
      && (forall k, l :: 0 <= k < l < |r| ==> r[k] < r[l])
  {
    var r := FilterMapOrigins(EntryToPort, entries);
    assert |r| == |PortsOf(entries)|;
  }

  /** The entries of a non-empty Ports string: `portsString.split(', ')`. */
  function EntriesOf(portsString: string): seq<string>
  {
    Split(portsString, ", ")
  }

  /**
   * parsePortsString (utils.ts:7-62): nothing for a missing or empty
   * string, otherwise the port of every entry that yields one, in order.
   */
  method ParsePortsString(portsString: Option<string>) returns (ports: seq<PortInfo>)
    ensures portsString.None? || portsString.value == "" ==> ports == []
    ensures portsString.Some? && portsString.value != "" ==> ports == PortsOf(EntriesOf(portsString.value))
  {
    if portsString.None? || portsString.value == "" {
      return [];
    }
    ports := [];
    var entries := EntriesOf(portsString.value);
    var i := 0;
    while i < |entries|
      invariant 0 <= i <= |entries|
      invariant ports == PortsOf(entries[..i])
    {
      FilterMapSnoc(EntryToPort, entries[..i], entries[i]);
      assert entries[..i + 1] == entries[..i] + [entries[i]];
      var port := EntryToPort(entries[i]);
      if port.Some? {
        ports := ports + [port.value];
      }
      i := i + 1;
    }
    assert entries[..i] == entries;
  }

  // ------------------------------------------------------------- cleanup

  /** The id when JavaScript counts it as true: defined and not the empty string. */
  function Truthy(sessionId: Option<string>): (r: Option<string>)
    ensures r.Some? <==> sessionId.Some? && sessionId.value != ""
    ensures r.Some? ==> r == sessionId
  {
    if sessionId.Some? && sessionId.value != "" then sessionId else None
  }

  function StateOf(registry: ClientRegistry, sessionId: Option<string>): Option<ClientState>
    reads registry
  {
    if sessionId.Some? && sessionId.value in registry.states then Some(registry.states[sessionId.value]) else None
  }

  function SocketsOf(registry: ClientRegistry, sessionId: Option<string>): set<Socket>
    reads registry
  {
    match StateOf(registry, sessionId)
    case Some(st) => {st.ws}
    case None => {}
  }

  function ChannelsOf(registry: ClientRegistry, sessionId: Option<string>): set<SshChannel>
    reads registry
  {
    match StateOf(registry, sessionId)
    case Some(st) => if st.sshShellStream.Some? then {st.sshShellStream.value} else {}
    case None => {}
  }

  function ClientsOf(registry: ClientRegistry, sessionId: Option<string>): set<SshClient>
    reads registry
  {
    match StateOf(registry, sessionId)
    case Some(st) => if st.sshClient.Some? then {st.sshClient.value} else {}
    case None => {}
  }

  /**
   * cleanupClientConnection (utils.ts:69-110): for a registered id, ends the
   * shell stream and the client unless the suspend engine has taken them
   * over, deletes the entry and detaches the socket if it still points at
   * this session. Nothing else changes; an undefined, empty or unknown id is a no-op.
   */
  method CleanupClientConnection(registry: ClientRegistry, sessionId: Option<string>)
    modifies registry`states, SocketsOf(registry, Truthy(sessionId))`sessionId
    modifies ChannelsOf(registry, Truthy(sessionId))`endCalled, ClientsOf(registry, Truthy(sessionId))`endCalled
    ensures old(StateOf(registry, Truthy(sessionId))).None? ==> registry.states == old(registry.states)
    ensures Truthy(sessionId).Some? ==> registry.states == old(registry.states) - {sessionId.value}
    ensures old(StateOf(registry, Truthy(sessionId))).Some? ==>
      var st := old(StateOf(registry, Truthy(sessionId))).value;
      && (st.ws.sessionId == if old(st.ws.sessionId) == sessionId then None else old(st.ws.sessionId))
      && (st.sshShellStream.Some? ==>
            st.sshShellStream.value.endCalled == (old(st.sshShellStream.value.endCalled) || !st.isSuspendedByService))
      && (st.sshClient.Some? ==>
            st.sshClient.value.endCalled == (old(st.sshClient.value.endCalled) || !st.isSuspendedByService))
  {
    if Truthy(sessionId).None? {
      return;
    }
    var sid := sessionId.value;
    if sid !in registry.states {
      return;
    }
    var st := registry.states[sid];
    if !st.isSuspendedByService {
      if st.sshShellStream.Some? {
        st.sshShellStream.value.endCalled := true;
      }
      if st.sshClient.Some? {
        st.sshClient.value.endCalled := true;
      }
    }
    registry.states := registry.states - {sid};
    if st.ws.sessionId == Some(sid) {
      st.ws.sessionId := None;
    }
  }
}
