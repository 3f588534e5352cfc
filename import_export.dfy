// Connection import and export of packages/backend/src/services/import-export.service.ts:
// the quoting of command-line arguments, the one-line-per-connection
// script that the export writes, and the validation, proxy reuse and
// counting that the import does before its bulk insert. Reading the
// database, the zip archive and its encryption are not part of this model.
module ImportExport {
  import opened Wrappers
  import opened Strings
  import opened Seqs

  // ------------------------------------------------------------ quoting

  const QUOTE := '"'
  const ESCAPED_QUOTE := "\\\""

  /** Truthy in JavaScript: present and not the empty string. */
  predicate Truthy(s: Option<string>)
  {
    s.Some? && s.value != ""
  }

  /** The inside of a double-quoted argument: every `"` written `\"`. */
  function EscapeQuotes(s: string): string
  {
    ReplaceChar(s, QUOTE, ESCAPED_QUOTE)
  }

  /** escapeCliArgument (import-export.service.ts:213-224). */
  function EscapeCliArgument(value: Option<string>): string
  {
    if value.None? || IsBlank(value.value) then "\"\""
    else if ' ' in value.value || QUOTE in value.value then "\"" + EscapeQuotes(value.value) + "\""
    else value.value
  }

  /** Every `"` in `s` has a backslash right before it. */
  predicate QuotesEscaped(s: string)
  {
    forall i | 0 <= i < |s| && s[i] == QUOTE :: i > 0 && s[i - 1] == '\\'
  }

  lemma {:induction false} EscapeQuotesEscaped(s: string)
    ensures QuotesEscaped(EscapeQuotes(s))
    decreases |s|
  {
    if s != [] {
      var rest := EscapeQuotes(s[1..]);
      EscapeQuotesEscaped(s[1..]);
      var e := if s[0] == QUOTE then ESCAPED_QUOTE + rest else [s[0]] + rest;
      assert EscapeQuotes(s) == e;
      var d := |e| - |rest|;
      if s[1..] != [] {
        EscapeQuotesHead(s[1..]);
      }
      forall i | 0 <= i < |e| && e[i] == QUOTE ensures i > 0 && e[i - 1] == '\\' {
        if i >= d {
          assert e[i] == rest[i - d];
          if i - d > 0 {
            assert e[i - 1] == rest[i - d - 1];
          }
        }
      }
    }
  }

  /**
   * `""` for a missing or blank value; otherwise the argument is quoted
   * exactly when the value holds a space or a `"`: a quoted argument has
   * every inner `"` escaped and its inside reads back as the value, and a
   * value that needs no quotes is passed unchanged.
   */
  lemma EscapeCliArgumentQuotesWhenNeeded(value: Option<string>)
    ensures value.None? || IsBlank(value.value) ==> EscapeCliArgument(value) == "\"\""
    ensures value.Some? && !IsBlank(value.value) ==>
      && (StartsWith(EscapeCliArgument(value), "\"") <==> ' ' in value.value || QUOTE in value.value)
      && (' ' !in value.value && QUOTE !in value.value ==> EscapeCliArgument(value) == value.value)
      && (' ' in value.value || QUOTE in value.value ==>
            var r := EscapeCliArgument(value);
            && |r| >= 2 && r[0] == QUOTE && r[|r| - 1] == QUOTE
            && QuotesEscaped(r[1..|r| - 1]) && DropEscapes(r[1..|r| - 1]) == value.value)
  {
    if value.Some? && !IsBlank(value.value) {
      var v := value.value;
      if ' ' !in v && QUOTE !in v {
        assert v[0] in v;
      } else {
        var r := EscapeCliArgument(value);
        assert r[1..|r| - 1] == EscapeQuotes(v);
        EscapeQuotesEscaped(v);
        DropEscapesOfEscapeQuotes(v);
      }
    }
  }

  /** Undoes EscapeQuotes: a backslash right before a quote is dropped. */
  function DropEscapes(s: string): string
    decreases |s|
  {
    if s == [] then []
    else if |s| >= 2 && s[0] == '\\' && s[1] == QUOTE then [QUOTE] + DropEscapes(s[2..])
    else [s[0]] + DropEscapes(s[1..])
  }

  /** How a reader takes an argument back: the inside of a quoted one, unescaped. */
  function UnquoteCliArgument(arg: string): string
  {
    if |arg| >= 2 && arg[0] == QUOTE && arg[|arg| - 1] == QUOTE then DropEscapes(arg[1..|arg| - 1]) else arg
  }

  lemma EscapeQuotesHead(s: string)
    requires s != []
    ensures EscapeQuotes(s) != [] && EscapeQuotes(s)[0] != QUOTE
  {
  }

  lemma {:induction false} DropEscapesOfEscapeQuotes(s: string)
    ensures DropEscapes(EscapeQuotes(s)) == s
    decreases |s|
  {
    if s != [] {
      var rest := EscapeQuotes(s[1..]);
      DropEscapesOfEscapeQuotes(s[1..]);
      if s[0] == QUOTE {
        var e := ESCAPED_QUOTE + rest;
        assert EscapeQuotes(s) == e;
        assert e[2..] == rest;
        assert s == [QUOTE] + s[1..];
      } else {
        var e := [s[0]] + rest;
        assert EscapeQuotes(s) == e;
        assert e[1..] == rest;
        if s[1..] != [] {
          EscapeQuotesHead(s[1..]);
        }
        assert s == [s[0]] + s[1..];
      }
    }
  }

  /**
   * Every non-blank value reads back as itself, a missing or blank one as
   * the empty string: the quoting loses nothing else.
   */
  lemma CliArgumentRoundTrip(value: Option<string>)
    ensures UnquoteCliArgument(EscapeCliArgument(value)) == if value.None? || IsBlank(value.value) then "" else value.value
  {
    if value.Some? && !IsBlank(value.value) {
      var v := value.value;
      if ' ' in v || QUOTE in v {
        DropEscapesOfEscapeQuotes(v);
        var r := "\"" + EscapeQuotes(v) + "\"";
        assert r[1..|r| - 1] == EscapeQuotes(v);
      } else {
        assert v[0] in v;
      }
    }
  }

  // ------------------------------------------------------------- export

  datatype ConnType = SSH | RDP | VNC
  {
    function Name(): string
    {
      match this
      case SSH => "SSH"
      case RDP => "RDP"
      case VNC => "VNC"
    }
  }

  datatype ExportProxy = ExportProxy(
    name: string,
    proxyType: string,
    host: string,
    port: int,
    username: Option<string>,
    authMethod: Option<string>,
    password: Option<string>,
    privateKey: Option<string>,
    passphrase: Option<string>)

  /** PlaintextExportConnectionData (import-export.service.ts:50-72), with the notes. */
  datatype ExportConnection = ExportConnection(
    name: string,
    connType: ConnType,
    host: string,
    port: int,
    username: string,
    authMethod: string,
    password: Option<string>,
    privateKey: Option<string>,
    sshKeyId: Option<int>,
    tagIds: Option<seq<int>>,
    proxy: Option<ExportProxy>,
    notes: Option<string>)

  /** The options a script line can carry. */
  datatype Flag =
    | Name | Password | Key
    | ProxyName | ProxyType | ProxyHost | ProxyPort | ProxyUsername
    | ProxyAuthMethod | ProxyPassword | ProxyKey | ProxyPassphrase
    | Tags | Note
  {
    predicate IsProxy()
    {
      ProxyName? || ProxyType? || ProxyHost? || ProxyPort? || ProxyUsername?
      || ProxyAuthMethod? || ProxyPassword? || ProxyKey? || ProxyPassphrase?
    }

    function Text(): string
    {
      match this
      case Name => "-name"
      case Password => "-p"
      case Key => "-k"
      case ProxyName => "-proxy-name"
      case ProxyType => "-proxy-type"
      case ProxyHost => "-proxy-host"
      case ProxyPort => "-proxy-port"
      case ProxyUsername => "-proxy-username"
      case ProxyAuthMethod => "-proxy-auth-method"
      case ProxyPassword => "-proxy-password"
      case ProxyKey => "-proxy-key"
      case ProxyPassphrase => "-proxy-passphrase"
      case Tags => "-tags"
      case Note => "-note"
    }
  }

  /** One ` -flag value` of a script line. */
  datatype CliOption = CliOption(flag: Flag, value: string)

  function Render(options: seq<CliOption>): string
    decreases |options|
  {
    if options == [] then ""
    else " " + options[0].flag.Text() + " " + options[0].value + Render(options[1..])
  }

  function Flags(options: seq<CliOption>): (r: seq<Flag>)
    ensures |r| == |options| && forall i :: 0 <= i < |options| ==> r[i] == options[i].flag
  {
    seq(|options|, i requires 0 <= i < |options| => options[i].flag)
  }

  /** The names of the tags, unknown and empty names dropped, in order. */
  function TagNames(ids: seq<int>, tags: map<int, string>): (r: seq<string>)
    ensures forall n | n in r :: exists i :: 0 <= i < |ids| && ids[i] in tags && tags[ids[i]] == n && n != ""
    ensures forall i | 0 <= i < |ids| && ids[i] in tags && tags[ids[i]] != "" :: tags[ids[i]] in r
    decreases |ids|
  {
    if ids == [] then []
    else
      var rest := TagNames(ids[1..], tags);
      assert forall i :: 0 < i < |ids| ==> ids[i] == ids[1..][i - 1];
      if ids[0] in tags && tags[ids[0]] != "" then [tags[ids[0]]] + rest else rest
  }

  function EscapeAll(names: seq<string>): (r: seq<string>)
    ensures |r| == |names| && forall i :: 0 <= i < |names| ==> r[i] == EscapeCliArgument(Some(names[i]))
  {
    seq(|names|, i requires 0 <= i < |names| => EscapeCliArgument(Some(names[i])))
  }

  /** `username@host:port -type TYPE`, the start of every line. */
  function Head(conn: ExportConnection): string
  {
    conn.username + "@" + conn.host + ":" + IntToString(conn.port) + " -type " + conn.connType.Name()
  }

  function NameOption(conn: ExportConnection): seq<CliOption>
  {
    if conn.name != "" && conn.name != conn.username + "@" + conn.host
    then [CliOption(Name, EscapeCliArgument(Some(conn.name)))] else []
  }

  function AuthOption(conn: ExportConnection, keys: map<int, string>): seq<CliOption>
  {
    if conn.connType == SSH then
      if conn.authMethod == "password" && Truthy(conn.password) then [CliOption(Password, EscapeCliArgument(conn.password))]
      else if conn.authMethod == "key" && conn.sshKeyId.Some? && conn.sshKeyId.value != 0 && conn.sshKeyId.value in keys
      then [CliOption(Key, EscapeCliArgument(Some(keys[conn.sshKeyId.value])))]
      else []
    else if Truthy(conn.password) then [CliOption(Password, EscapeCliArgument(conn.password))]
    else []
  }

  function ProxyOptions(proxy: Option<ExportProxy>): seq<CliOption>
  {
    if proxy.None? then []
    else
      var p := proxy.value;
      [CliOption(ProxyName, EscapeCliArgument(Some(p.name))),
       CliOption(ProxyType, p.proxyType),
       CliOption(ProxyHost, EscapeCliArgument(Some(p.host))),
       CliOption(ProxyPort, IntToString(p.port))]
      + (if Truthy(p.username) then [CliOption(ProxyUsername, EscapeCliArgument(p.username))] else [])
      + (if Truthy(p.authMethod) && p.authMethod.value != "none" then
           [CliOption(ProxyAuthMethod, p.authMethod.value)]
           + (if p.authMethod.value == "password" && Truthy(p.password) then
                [CliOption(ProxyPassword, EscapeCliArgument(p.password))]
              else if p.authMethod.value == "key" && Truthy(p.privateKey) then
                [CliOption(ProxyKey, EscapeCliArgument(Some("key-content-not-exported-for-security")))]
                + (if Truthy(p.passphrase) then [CliOption(ProxyPassphrase, EscapeCliArgument(p.passphrase))] else [])
              else [])
         else [])
  }

  function TagOption(conn: ExportConnection, tags: map<int, string>): seq<CliOption>
  {
    if conn.tagIds.Some? && |conn.tagIds.value| > 0 then
      var names := TagNames(conn.tagIds.value, tags);
      if |names| > 0 then [CliOption(Tags, Join(EscapeAll(names), " "))] else []
    else []
  }

  function NoteOption(conn: ExportConnection): seq<CliOption>
  {
    if Truthy(conn.notes) then [CliOption(Note, EscapeCliArgument(conn.notes))] else []
  }

  /** The options of one connection's line, in the order they are written. */
  function Options(conn: ExportConnection, tags: map<int, string>, keys: map<int, string>): seq<CliOption>
  {
    NameOption(conn) + AuthOption(conn, keys) + ProxyOptions(conn.proxy) + TagOption(conn, tags) + NoteOption(conn)
  }

  /** The script line of one connection (import-export.service.ts:239-297). */
  function ExportLine(conn: ExportConnection, tags: map<int, string>, keys: map<int, string>): string
  {
    Head(conn) + Render(Options(conn, tags, keys))
  }

  /** The line writer for one export: the tag names and key names it can see. */
  function LineOf(tags: map<int, string>, keys: map<int, string>): ExportConnection -> string
  {
    conn => ExportLine(conn, tags, keys)
  }

  /** The script's lines: one per connection, in order. */
  function ExportLines(conns: seq<ExportConnection>, tags: map<int, string>, keys: map<int, string>): (r: seq<string>)
    ensures |r| == |conns|
  {
    Map(LineOf(tags, keys), conns)
  }

  /** Line `i` of the script is the line of connection `i`. */
  lemma ExportLinesAt(conns: seq<ExportConnection>, tags: map<int, string>, keys: map<int, string>, i: nat)
    requires i < |conns|
    ensures ExportLines(conns, tags, keys)[i] == ExportLine(conns[i], tags, keys)
  {
    MapAt(LineOf(tags, keys), conns, i);
  }

  lemma FlagsAppend(a: seq<CliOption>, b: seq<CliOption>)
    ensures Flags(a + b) == Flags(a) + Flags(b)
  {
  }

  lemma AuthFlags(conn: ExportConnection, keys: map<int, string>)
    ensures Flags(AuthOption(conn, keys)) ==
      if conn.connType == SSH then
        if conn.authMethod == "password" && Truthy(conn.password) then [Password]
        else if conn.authMethod == "key" && conn.sshKeyId.Some? && conn.sshKeyId.value != 0 && conn.sshKeyId.value in keys then [Key]
        else []
      else if Truthy(conn.password) then [Password] else []
  {
  }

  lemma TagFlags(conn: ExportConnection, tags: map<int, string>)
    ensures Flags(TagOption(conn, tags)) ==
      if conn.tagIds.Some? && exists i :: 0 <= i < |conn.tagIds.value| && conn.tagIds.value[i] in tags && tags[conn.tagIds.value[i]] != ""
      then [Tags] else []
  {
    if conn.tagIds.Some? {
      var ids := conn.tagIds.value;
      var names := TagNames(ids, tags);
      if |names| > 0 {
        assert names[0] in names;
      }
    }
  }

  /** Every line starts with `username@host:port -type TYPE`. */
  lemma ExportLineHead(conn: ExportConnection, tags: map<int, string>, keys: map<int, string>)
    ensures StartsWith(ExportLine(conn, tags, keys), Head(conn))
  {
    var h := Head(conn);
    var line := h + Render(Options(conn, tags, keys));
    assert line[..|h|] == h;
  }

  /** The flags of a line, block by block. */
  lemma OptionFlags(conn: ExportConnection, tags: map<int, string>, keys: map<int, string>)
    ensures Flags(Options(conn, tags, keys)) ==
      Flags(NameOption(conn)) + Flags(AuthOption(conn, keys)) + Flags(ProxyOptions(conn.proxy))
      + Flags(TagOption(conn, tags)) + Flags(NoteOption(conn))
  {
    var n := NameOption(conn);
    var a := AuthOption(conn, keys);
    var p := ProxyOptions(conn.proxy);
    var t := TagOption(conn, tags);
    var o := NoteOption(conn);
    FlagsAppend(n, a);
    FlagsAppend(n + a, p);
    FlagsAppend(n + a + p, t);
    FlagsAppend(n + a + p + t, o);
  }

  /**
   * Which options a line carries: `-name` only for a non-empty name that is
   * not `username@host`; `-p` for an SSH password login with a password and
   * for RDP or VNC with any password; `-k` only for an SSH key login whose
   * key id names a known key; `-tags` only when some tag id has a known,
   * non-empty name; the proxy block exactly when there is a proxy.
   */
  lemma ExportLineOptions(conn: ExportConnection, tags: map<int, string>, keys: map<int, string>)
    ensures var flags := Flags(Options(conn, tags, keys));
      && (Name in flags <==> conn.name != "" && conn.name != conn.username + "@" + conn.host)
      && (Password in flags <==> (if conn.connType == SSH then conn.authMethod == "password" && Truthy(conn.password)
                                  else Truthy(conn.password)))
      && (Key in flags <==> (conn.connType == SSH && !(conn.authMethod == "password" && Truthy(conn.password))
                             && conn.authMethod == "key" && conn.sshKeyId.Some? && conn.sshKeyId.value != 0
                             && conn.sshKeyId.value in keys))
      && (ProxyName in flags <==> conn.proxy.Some?)
      && (Tags in flags <==> (conn.tagIds.Some? &&
            exists i :: 0 <= i < |conn.tagIds.value| && conn.tagIds.value[i] in tags && tags[conn.tagIds.value[i]] != ""))
  {
    NameFlagIff(conn, tags, keys);
    PasswordFlagIff(conn, tags, keys);
    KeyFlagIff(conn, tags, keys);
    ProxyFlagIff(conn, tags, keys);
    TagsFlagIff(conn, tags, keys);
  }

  lemma NameFlagIff(conn: ExportConnection, tags: map<int, string>, keys: map<int, string>)
    ensures Name in Flags(Options(conn, tags, keys)) <==> conn.name != "" && conn.name != conn.username + "@" + conn.host
  {
    InOptions(conn, tags, keys, Name);
    NameFlags(conn);
    AuthFlags(conn, keys);
    ProxyFlags(conn.proxy);
    TagFlags(conn, tags);
    NoteFlags(conn);
  }

  lemma PasswordFlagIff(conn: ExportConnection, tags: map<int, string>, keys: map<int, string>)
    ensures Password in Flags(Options(conn, tags, keys)) <==>
      if conn.connType == SSH then conn.authMethod == "password" && Truthy(conn.password) else Truthy(conn.password)
  {
    InOptions(conn, tags, keys, Password);
    NameFlags(conn);
    AuthFlags(conn, keys);
    ProxyFlags(conn.proxy);
    TagFlags(conn, tags);
    NoteFlags(conn);
  }

  lemma KeyFlagIff(conn: ExportConnection, tags: map<int, string>, keys: map<int, string>)
    ensures Key in Flags(Options(conn, tags, keys)) <==>
      && conn.connType == SSH && !(conn.authMethod == "password" && Truthy(conn.password))
      && conn.authMethod == "key" && conn.sshKeyId.Some? && conn.sshKeyId.value != 0 && conn.sshKeyId.value in keys
  {
    InOptions(conn, tags, keys, Key);
    NameFlags(conn);
    AuthFlags(conn, keys);
    ProxyFlags(conn.proxy);
    TagFlags(conn, tags);
    NoteFlags(conn);
  }

  lemma ProxyFlagIff(conn: ExportConnection, tags: map<int, string>, keys: map<int, string>)
    ensures ProxyName in Flags(Options(conn, tags, keys)) <==> conn.proxy.Some?
  {
    InOptions(conn, tags, keys, ProxyName);
    NameFlags(conn);
    AuthFlags(conn, keys);
    ProxyFlags(conn.proxy);
    TagFlags(conn, tags);
    NoteFlags(conn);
  }

  lemma TagsFlagIff(conn: ExportConnection, tags: map<int, string>, keys: map<int, string>)
    ensures Tags in Flags(Options(conn, tags, keys)) <==>
      conn.tagIds.Some? && exists i :: 0 <= i < |conn.tagIds.value| && conn.tagIds.value[i] in tags && tags[conn.tagIds.value[i]] != ""
  {
    InOptions(conn, tags, keys, Tags);
    NameFlags(conn);
    AuthFlags(conn, keys);
    ProxyFlags(conn.proxy);
    TagFlags(conn, tags);
    NoteFlags(conn);
  }

  /** A flag is in a line exactly when it is in one of the line's blocks. */
  lemma InOptions(conn: ExportConnection, tags: map<int, string>, keys: map<int, string>, f: Flag)
    ensures f in Flags(Options(conn, tags, keys)) <==>
      || f in Flags(NameOption(conn)) || f in Flags(AuthOption(conn, keys)) || f in Flags(ProxyOptions(conn.proxy))
      || f in Flags(TagOption(conn, tags)) || f in Flags(NoteOption(conn))
  {
    OptionFlags(conn, tags, keys);
  }

  lemma NameFlags(conn: ExportConnection)
    ensures Flags(NameOption(conn)) == if conn.name != "" && conn.name != conn.username + "@" + conn.host then [Name] else []
  {
  }

  lemma NoteFlags(conn: ExportConnection)
    ensures Flags(NoteOption(conn)) == if Truthy(conn.notes) then [Note] else []
  {
  }

  /** The proxy block holds only proxy flags, and `-proxy-name` exactly when there is a proxy. */
  lemma ProxyFlags(proxy: Option<ExportProxy>)
    ensures var flags := Flags(ProxyOptions(proxy));
      && (ProxyName in flags <==> proxy.Some?)
      && forall f | f in flags :: f.IsProxy()
  {
    if proxy.Some? {
      assert Flags(ProxyOptions(proxy))[0] == ProxyName;
    }
  }


  /**
   * The loop of exportConnectionsAsEncryptedZip (import-export.service.ts:235-300):
   * one line per connection, in order, joined with newlines. Key names are
   * only known when the keys are included.
   */
  method ExportScript(conns: seq<ExportConnection>, tags: map<int, string>, allKeys: map<int, string>, includeSshKeys: bool)
    returns (script: string)
    ensures script == Join(ExportLines(conns, tags, if includeSshKeys then allKeys else map[]), "\n")
  {
    var keys: map<int, string> := if includeSshKeys then allKeys else map[];
    var lineOf := LineOf(tags, keys);
    var scriptLines: seq<string> := [];
    var i := 0;
    while i < |conns|
      invariant 0 <= i <= |conns|
      invariant scriptLines == Map(lineOf, conns[..i])
    {
      MapSnoc(lineOf, conns, i);
      scriptLines := scriptLines + [lineOf(conns[i])];
      i := i + 1;
    }
    assert conns[..i] == conns;
    script := Join(scriptLines, "\n");
  }

  /** Without keys, no line carries `-k`. */
  lemma NoKeysNoKeyOption(conn: ExportConnection, tags: map<int, string>)
    ensures Key !in Flags(Options(conn, tags, map[]))
  {
    ExportLineOptions(conn, tags, map[]);
  }

  // ------------------------------------------------------------- import

  datatype ImportedProxy = ImportedProxy(
    name: Option<string>,
    proxyType: Option<string>,
    host: Option<string>,
    port: Option<int>,
    username: Option<string>,
    authMethod: Option<string>,
    encryptedPassword: Option<string>,
    encryptedPrivateKey: Option<string>,
    encryptedPassphrase: Option<string>)

  /** One element of the imported JSON array (import-export.service.ts:14-45); every field may be missing. */
  datatype ImportedRecord = ImportedRecord(
    name: Option<string>,
    connType: Option<string>,
    host: Option<string>,
    port: Option<int>,
    username: Option<string>,
    authMethod: Option<string>,
    encryptedPassword: Option<string>,
    encryptedPrivateKey: Option<string>,
    encryptedPassphrase: Option<string>,
    tagIds: Option<seq<int>>,
    proxy: Option<ImportedProxy>)

  /** A proxy's name, type, host and port: what the repository looks proxies up by. */
  datatype ProxyIdentity = ProxyIdentity(name: string, proxyType: string, host: string, port: int)

  datatype NewProxy = NewProxy(
    id: nat,
    identity: ProxyIdentity,
    username: Option<string>,
    authMethod: string,
    encryptedPassword: Option<string>,
    encryptedPrivateKey: Option<string>,
    encryptedPassphrase: Option<string>)

  datatype NewConnection = NewConnection(
    name: string,
    connType: string,
    host: string,
    port: int,
    username: string,
    authMethod: string,
    encryptedPassword: Option<string>,
    encryptedPrivateKey: Option<string>,
    encryptedPassphrase: Option<string>,
    proxyId: Option<nat>,
    tagIds: seq<int>)

  datatype ImportError = ImportError(connectionName: Option<string>, message: string)

  datatype ImportResult = ImportResult(successCount: nat, failureCount: nat, errors: seq<ImportError>)

  const BAD_TYPE := "缺少或无效的连接类型 (type)。"
  const MISSING_FIELDS := "缺少必要的连接字段 (name, host, port, username)。"
  const BAD_SSH_AUTH := "SSH 连接缺少有效的认证方式 (auth_method)。"
  const INCOMPLETE_PROXY := "代理信息不完整 (缺少 name, type, host, port)。"
  const UNKNOWN_NAME := "未知连接"
  const NOT_AN_ARRAY := "JSON 文件内容必须是一个数组。"
  const PARSE_FAILED_PREFIX := "解析 JSON 文件失败: "
  const TRANSACTION_FAILED_PREFIX := "事务处理失败: "

  /** A number given and not 0. */
  predicate PortGiven(p: Option<int>)
  {
    p.Some? && p.value != 0
  }

  /** Why a record is refused (import-export.service.ts:384-399), checked in that order. */
  function Problem(r: ImportedRecord): (msg: Option<string>)
    ensures msg.None? ==>
      && r.connType.Some? && r.connType.value in {"SSH", "RDP", "VNC"}
      && Truthy(r.name) && Truthy(r.host) && PortGiven(r.port) && Truthy(r.username)
      && (r.connType.value == "SSH" ==> r.authMethod.Some? && r.authMethod.value in {"password", "key"})
      && (r.proxy.Some? ==> Truthy(r.proxy.value.name) && Truthy(r.proxy.value.proxyType)
                            && Truthy(r.proxy.value.host) && PortGiven(r.proxy.value.port))
    ensures r.connType.None? || r.connType.value !in {"SSH", "RDP", "VNC"} ==> msg == Some(BAD_TYPE)
  {
    if !Truthy(r.connType) || r.connType.value !in {"SSH", "RDP", "VNC"} then Some(BAD_TYPE)
    else if !Truthy(r.name) || !Truthy(r.host) || !PortGiven(r.port) || !Truthy(r.username) then Some(MISSING_FIELDS)
    else if r.connType.value == "SSH" && !(Truthy(r.authMethod) && r.authMethod.value in {"password", "key"}) then Some(BAD_SSH_AUTH)
    else if r.proxy.Some? && !(Truthy(r.proxy.value.name) && Truthy(r.proxy.value.proxyType)
                               && Truthy(r.proxy.value.host) && PortGiven(r.proxy.value.port)) then Some(INCOMPLETE_PROXY)
    else None
  }

  function IdentityOf(p: ImportedProxy): ProxyIdentity
    requires p.name.Some? && p.proxyType.Some? && p.host.Some? && p.port.Some?
  {
    ProxyIdentity(p.name.value, p.proxyType.value, p.host.value, p.port.value)
  }

  /** `x || null` on an optional string. */
  function OrNull(s: Option<string>): Option<string>
  {
    if Truthy(s) then s else None
  }

  /** The proxy `id` stands for has identity `k`: found in the repository, or created for `k`. */
  ghost predicate ProxyFor(id: nat, k: ProxyIdentity, existing: map<ProxyIdentity, nat>, created: seq<NewProxy>)
  {
    (k in existing && existing[k] == id) || exists p | p in created :: p.id == id && p.identity == k
  }

  /** Every cached id stands for a proxy with the identity it is cached under. */
  ghost predicate CacheSound(cache: map<ProxyIdentity, nat>, existing: map<ProxyIdentity, nat>, created: seq<NewProxy>)
  {
    forall k | k in cache :: ProxyFor(cache[k], k, existing, created)
  }

  /** What the loop carries from record to record. */
  datatype ImportState = ImportState(
    toInsert: seq<NewConnection>,
    errors: seq<ImportError>,
    failureCount: nat,
    cache: map<ProxyIdentity, nat>,
    created: seq<NewProxy>,
    nextProxyId: nat)

  /**
   * The proxy of one record (import-export.service.ts:402-430): the cached
   * id, else the repository's proxy with the same name, type, host and
   * port, else a new proxy; a non-zero id is cached. The id always stands
   * for a proxy with the record's own identity.
   */
  function ResolveProxy(s: ImportState, p: ImportedProxy, existing: map<ProxyIdentity, nat>): (r: (nat, ImportState))
    requires p.name.Some? && p.proxyType.Some? && p.host.Some? && p.port.Some?
    requires CacheSound(s.cache, existing, s.created)
    ensures ProxyFor(r.0, IdentityOf(p), existing, r.1.created)
    ensures CacheSound(r.1.cache, existing, r.1.created)
    ensures IdentityOf(p) in s.cache && s.cache[IdentityOf(p)] != 0 ==> r == (s.cache[IdentityOf(p)], s)
    ensures s.created <= r.1.created
    ensures r.1.toInsert == s.toInsert && r.1.errors == s.errors && r.1.failureCount == s.failureCount
  {
    var k := IdentityOf(p);
    if k in s.cache && s.cache[k] != 0 then (s.cache[k], s)
    else
      var (id, created, next) :=
        if k in existing then (existing[k], s.created, s.nextProxyId)
        else
          var np := NewProxy(s.nextProxyId, k, OrNull(p.username), if Truthy(p.authMethod) then p.authMethod.value else "none",
            OrNull(p.encryptedPassword), OrNull(p.encryptedPrivateKey), OrNull(p.encryptedPassphrase));
          assert np in s.created + [np];
          (s.nextProxyId, s.created + [np], s.nextProxyId + 1);
      var cache := if id != 0 then s.cache[k := id] else s.cache;
      assert forall q | q in s.created :: q in created;
      (id, s.(cache := cache, created := created, nextProxyId := next))
  }

  /** One turn of the import loop (import-export.service.ts:380-450). */
  function Step(s: ImportState, r: ImportedRecord, existing: map<ProxyIdentity, nat>): (t: ImportState)
    requires CacheSound(s.cache, existing, s.created)
    ensures CacheSound(t.cache, existing, t.created)
    ensures Problem(r).Some? ==> t == s.(failureCount := s.failureCount + 1,
      errors := s.errors + [ImportError(if Truthy(r.name) then r.name else Some(UNKNOWN_NAME), Problem(r).value)])
    ensures Problem(r).None? ==>
      && t.failureCount == s.failureCount && t.errors == s.errors
      && |t.toInsert| == |s.toInsert| + 1 && t.toInsert[..|s.toInsert|] == s.toInsert
    ensures Problem(r).None? && r.proxy.Some? ==>
      t.toInsert[|s.toInsert|].proxyId.Some? && ProxyFor(t.toInsert[|s.toInsert|].proxyId.value, IdentityOf(r.proxy.value), existing, t.created)
    ensures Problem(r).None? && r.proxy.None? ==> t.toInsert[|s.toInsert|].proxyId.None?
  {
    match Problem(r)
    case Some(msg) =>
      s.(failureCount := s.failureCount + 1,
         errors := s.errors + [ImportError(if Truthy(r.name) then r.name else Some(UNKNOWN_NAME), msg)])
    case None =>
      var (proxyId, s') := if r.proxy.Some? then
          var (id, s1) := ResolveProxy(s, r.proxy.value, existing);
          (Some(id), s1)
        else (None, s);
      var ctype := r.connType.value;
      var conn := NewConnection(r.name.value, ctype, r.host.value, r.port.value, r.username.value,
        if ctype == "RDP" || ctype == "VNC" then "password" else r.authMethod.value,
        OrNull(r.encryptedPassword), OrNull(r.encryptedPrivateKey), OrNull(r.encryptedPassphrase),
        proxyId, r.tagIds.UnwrapOr([]));
      assert (s'.toInsert + [conn])[..|s.toInsert|] == s.toInsert;
      s'.(toInsert := s'.toInsert + [conn])
  }

  function InitialState(firstProxyId: nat): (s: ImportState)
    ensures forall existing :: CacheSound(s.cache, existing, s.created)
  {
    ImportState([], [], 0, map[], [], firstProxyId)
  }

  /** The state after the loop has seen `records`. */
  function Fold(records: seq<ImportedRecord>, existing: map<ProxyIdentity, nat>, firstProxyId: nat): (s: ImportState)
    ensures CacheSound(s.cache, existing, s.created)
    decreases |records|
  {
    if records == [] then InitialState(firstProxyId)
    else
      var n := |records| - 1;
      Step(Fold(records[..n], existing, firstProxyId), records[n], existing)
  }

  /** How many records have a problem. */
  function CountRefused(records: seq<ImportedRecord>): nat
    decreases |records|
  {
    if records == [] then 0
    else
      var n := |records| - 1;
      CountRefused(records[..n]) + if Problem(records[n]).Some? then 1 else 0
  }

  /**
   * Every record either fails once, with one error entry, or is queued for
   * insertion once: failures are exactly the refused records, and the
   * accepted ones make up the rest.
   */
  lemma {:induction false} FoldAccounting(records: seq<ImportedRecord>, existing: map<ProxyIdentity, nat>, firstProxyId: nat)
    ensures var s := Fold(records, existing, firstProxyId);
      && s.failureCount == |s.errors| == CountRefused(records)
      && |s.toInsert| + s.failureCount == |records|
    decreases |records|
  {
    if records != [] {
      FoldAccounting(records[..|records| - 1], existing, firstProxyId);
    }
  }

  /** What every connection queued for insertion looks like. */
  ghost predicate WellFormed(c: NewConnection)
  {
    && c.connType in {"SSH", "RDP", "VNC"}
    && c.name != "" && c.host != "" && c.port != 0 && c.username != ""
    && (c.connType == "RDP" || c.connType == "VNC" ==> c.authMethod == "password")
    && (c.connType == "SSH" ==> c.authMethod in {"password", "key"})
  }

  /**
   * Only complete records are inserted; RDP and VNC always with password
   * authentication, SSH with its own password or key method.
   */
  lemma {:induction false} FoldInsertsWellFormed(records: seq<ImportedRecord>, existing: map<ProxyIdentity, nat>, firstProxyId: nat)
    ensures forall c | c in Fold(records, existing, firstProxyId).toInsert :: WellFormed(c)
    decreases |records|
  {
    if records != [] {
      var n := |records| - 1;
      FoldInsertsWellFormed(records[..n], existing, firstProxyId);
      var s := Fold(records[..n], existing, firstProxyId);
      var t := Step(s, records[n], existing);
      if Problem(records[n]).None? {
        assert t.toInsert == s.toInsert + [t.toInsert[|s.toInsert|]];
      }
    }
  }

  /** The outcome of importConnections. */
  datatype ImportOutcome =
    | ParseFailed(message: string)
    | Imported(result: ImportResult, inserted: seq<NewConnection>, created: seq<NewProxy>, tagLinks: seq<(nat, int)>)

  /** What JSON.parse made of the file. */
  datatype ParsedFile = NotJson(detail: string) | NotArray | Records(records: seq<ImportedRecord>)

  /**
   * How the import's transaction goes: it commits, `BEGIN TRANSACTION`
   * itself raises (import-export.service.ts:371), or a later statement
   * outside the per-record catch raises (the bulk insert or `COMMIT`), each
   * failure with its error's message.
   */
  datatype Transaction = Committed | BeginFailed(message: string) | LaterFailed(message: string)

  /**
   * importConnections (import-export.service.ts:355-494): a file that is
   * not a JSON array fails outright; otherwise every record is validated
   * in turn. When the transaction fails nothing is kept, no record counts
   * as imported and all count as failed; a failure at BEGIN reports only
   * itself, since no record was looked at, and a later one follows the
   * records' own errors. Otherwise every queued connection is inserted.
   */
  method ImportConnections(file: ParsedFile, existing: map<ProxyIdentity, nat>, firstProxyId: nat,
                           transaction: Transaction)
    returns (outcome: ImportOutcome)
    ensures file.NotJson? ==> outcome == ParseFailed(PARSE_FAILED_PREFIX + file.detail)
    ensures file.NotArray? ==> outcome == ParseFailed(PARSE_FAILED_PREFIX + NOT_AN_ARRAY)
    ensures file.Records? && transaction.BeginFailed? ==>
      outcome == Imported(ImportResult(0, |file.records|,
        [ImportError(None, TRANSACTION_FAILED_PREFIX + transaction.message)]), [], [], [])
    ensures file.Records? && transaction.LaterFailed? ==>
      var s := Fold(file.records, existing, firstProxyId);
      outcome == Imported(ImportResult(0, |file.records|,
        s.errors + [ImportError(None, TRANSACTION_FAILED_PREFIX + transaction.message)]), [], [], [])
    ensures file.Records? && transaction.Committed? ==>
      var s := Fold(file.records, existing, firstProxyId);
      outcome == Imported(ImportResult(|s.toInsert|, s.failureCount, s.errors), s.toInsert, s.created, TagLinks(s.toInsert))
  {
    if file.NotJson? {
      return ParseFailed(PARSE_FAILED_PREFIX + file.detail);
    }
    if file.NotArray? {
      return ParseFailed(PARSE_FAILED_PREFIX + NOT_AN_ARRAY);
    }
    var records := file.records;
    if transaction.BeginFailed? {
      var message := TRANSACTION_FAILED_PREFIX + transaction.message;
      return Imported(ImportResult(0, |records|, [ImportError(None, message)]), [], [], []);
    }
    var toInsert: seq<NewConnection> := [];
    var errors: seq<ImportError> := [];
    var failureCount := 0;
    var cache: map<ProxyIdentity, nat> := map[];
    var created: seq<NewProxy> := [];
    var nextProxyId := firstProxyId;
    var i := 0;
    while i < |records|
      invariant 0 <= i <= |records|
      invariant ImportState(toInsert, errors, failureCount, cache, created, nextProxyId) == Fold(records[..i], existing, firstProxyId)
    {
      var s := ImportState(toInsert, errors, failureCount, cache, created, nextProxyId);
      assert records[..i + 1][..i] == records[..i];
      var t := Step(s, records[i], existing);
      toInsert, errors, failureCount, cache, created, nextProxyId :=
        t.toInsert, t.errors, t.failureCount, t.cache, t.created, t.nextProxyId;
      i := i + 1;
    }
    assert records[..|records|] == records;
    if transaction.LaterFailed? {
      var message := TRANSACTION_FAILED_PREFIX + transaction.message;
      return Imported(ImportResult(0, |records|, errors + [ImportError(None, message)]), [], [], []);
    }
    return Imported(ImportResult(|toInsert|, failureCount, errors), toInsert, created, TagLinks(toInsert));
  }

  /** Either way, the counts cover every record exactly once. */
  lemma ImportCountsCoverRecords(records: seq<ImportedRecord>, existing: map<ProxyIdentity, nat>, firstProxyId: nat,
                                 transaction: Transaction)
    ensures var s := Fold(records, existing, firstProxyId);
      var result := if !transaction.Committed? then ImportResult(0, |records|, s.errors)
                    else ImportResult(|s.toInsert|, s.failureCount, s.errors);
      result.successCount + result.failureCount == |records|
  {
    FoldAccounting(records, existing, firstProxyId);
  }

  /**
   * The key of the proxy cache as written (import-export.service.ts:404):
   * the four fields joined with '-'.
   */
  function CacheKeyAsWritten(k: ProxyIdentity): string
  {
    k.name + "-" + k.proxyType + "-" + k.host + "-" + IntToString(k.port)
  }

  /**
   * Two different proxies share a cache key, so the second record of an
   * import would be attached to the first record's proxy.
   */
  lemma CacheKeyCollides()
    ensures var a := ProxyIdentity("a-HTTP", "SOCKS5", "h", 1);
      var b := ProxyIdentity("a", "HTTP", "SOCKS5-h", 1);
      a != b && CacheKeyAsWritten(a) == CacheKeyAsWritten(b)
  {
    var a := ProxyIdentity("a-HTTP", "SOCKS5", "h", 1);
    var b := ProxyIdentity("a", "HTTP", "SOCKS5-h", 1);
    assert a.name != b.name;
    assert IntToString(1) == "1";
  }

  /**
   * The proxy lookup as written (import-export.service.ts:403-426): the same
   * steps as ResolveProxy, with the cache keyed by CacheKeyAsWritten.
   */
  function ResolveProxyAsWritten(cache: map<string, nat>, created: seq<NewProxy>, nextProxyId: nat,
                                 p: ImportedProxy, existing: map<ProxyIdentity, nat>): (r: (nat, map<string, nat>, seq<NewProxy>, nat))
    requires p.name.Some? && p.proxyType.Some? && p.host.Some? && p.port.Some?
    ensures var key := CacheKeyAsWritten(IdentityOf(p));
      key in cache && cache[key] != 0 ==> r == (cache[key], cache, created, nextProxyId)
    ensures var key := CacheKeyAsWritten(IdentityOf(p));
      !(key in cache && cache[key] != 0) ==> ProxyFor(r.0, IdentityOf(p), existing, r.2)
  {
    var k := IdentityOf(p);
    var key := CacheKeyAsWritten(k);
    if key in cache && cache[key] != 0 then (cache[key], cache, created, nextProxyId)
    else
      var (id, created', next) :=
        if k in existing then (existing[k], created, nextProxyId)
        else
          var np := NewProxy(nextProxyId, k, OrNull(p.username), if Truthy(p.authMethod) then p.authMethod.value else "none",
            OrNull(p.encryptedPassword), OrNull(p.encryptedPrivateKey), OrNull(p.encryptedPassphrase));
          assert np in created + [np];
          (nextProxyId, created + [np], nextProxyId + 1);
      (id, if id != 0 then cache[key := id] else cache, created', next)
  }

  /**
   * As written, when two records of one import carry different proxies whose
   * cache keys collide, the second record is given the proxy created for the
   * first, which does not have its identity.
   */
  lemma CacheKeyMisattaches()
    ensures var pa := ImportedProxy(Some("a-HTTP"), Some("SOCKS5"), Some("h"), Some(1), None, None, None, None, None);
      var pb := ImportedProxy(Some("a"), Some("HTTP"), Some("SOCKS5-h"), Some(1), None, None, None, None, None);
      var first := ResolveProxyAsWritten(map[], [], 1, pa, map[]);
      var second := ResolveProxyAsWritten(first.1, first.2, first.3, pb, map[]);
      && first.0 == 1 && second.0 == 1
      && second.2 == [NewProxy(1, IdentityOf(pa), None, "none", None, None, None)]
      && !ProxyFor(second.0, IdentityOf(pb), map[], second.2)
  {
    var pa := ImportedProxy(Some("a-HTTP"), Some("SOCKS5"), Some("h"), Some(1), None, None, None, None, None);
    var pb := ImportedProxy(Some("a"), Some("HTTP"), Some("SOCKS5-h"), Some(1), None, None, None, None, None);
    CacheKeyCollides();
    assert CacheKeyAsWritten(IdentityOf(pa)) == CacheKeyAsWritten(IdentityOf(pb));
    var first := ResolveProxyAsWritten(map[], [], 1, pa, map[]);
    assert first.0 == 1 && first.1 == map[CacheKeyAsWritten(IdentityOf(pa)) := 1];
    assert first.2 == [NewProxy(1, IdentityOf(pa), None, "none", None, None, None)];
    assert IdentityOf(pa) != IdentityOf(pb);
  }

  /** The tag ids the import links to an inserted connection (import-export.service.ts:470-472). */
  function ValidTagIds(ids: seq<int>): (r: seq<int>)
    ensures forall t :: t in r <==> t in ids && t > 0
    ensures |r| <= |ids|
    decreases |ids|
  {
    if ids == [] then []
    else (if ids[0] > 0 then [ids[0]] else []) + ValidTagIds(ids[1..])
  }

  /**
   * The `connection_tags` rows the import inserts (import-export.service.ts:462-475),
   * as (index of the inserted connection, tag id) pairs.
   */
  function TagLinks(inserted: seq<NewConnection>): (r: seq<(nat, int)>)
    ensures forall i: nat, t: int :: (i, t) in r <==> i < |inserted| && t in inserted[i].tagIds && t > 0
    decreases |inserted|
  {
    if inserted == [] then []
    else
      var n := |inserted| - 1;
      var rest := TagLinks(inserted[..n]);
      var ids := ValidTagIds(inserted[n].tagIds);
      var mine := seq(|ids|, j requires 0 <= j < |ids| => (n, ids[j]));
      assert forall t: int :: (n, t) in mine <==> t in ids by {
        forall t: int | t in ids ensures (n, t) in mine {
          var j :| 0 <= j < |ids| && ids[j] == t;
          assert mine[j] == (n, t);
        }
      }
      assert forall i | 0 <= i < n :: inserted[..n][i] == inserted[i];
      rest + mine
  }
}
