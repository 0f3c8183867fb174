/**
 * Values shared by the two NordVPN controllers (`Client` and `VPN`): the
 * provider's server records and status object, the OpenVPN profile template,
 * the credentials text, and the host's process table.  Everything here is
 * pure; the two controllers' state machines live in ClientModel and VpnModel.
 */
module NordApi {

  datatype Option<+T> = None | Some(value: T)

  /** A JSON scalar as the HTTP client decodes it (arrays, objects and floats are not needed). */
  datatype Json = JNull | JBool(b: bool) | JInt(i: int) | JString(s: string)

  /** The decoded account-status response: a JSON object. */
  type StatusObject = map<string, Json>

  /** Python's `d.get(key)`: the value, or None when the key is absent. */
  function Get(status: StatusObject, key: string): Option<Json> {
    if key in status then Some(status[key]) else None
  }

  // ---------------------------------------------------------------------------
  // Server selection
  // ---------------------------------------------------------------------------

  /** One element of the recommendations array: `hostname`, `station`, and the `name`s of `technologies`. */
  datatype Server = Server(hostname: string, station: string, technologies: seq<string>)

  const OPENVPN_TCP: string := "OpenVPN TCP"

  /** Some technology of the server is named exactly "OpenVPN TCP". */
  predicate SupportsOpenVpnTcp(server: Server) {
    OPENVPN_TCP in server.technologies
  }

  /** The list comprehension that keeps the servers advertising OpenVPN TCP, in order. */
  function Qualifying(servers: seq<Server>): (r: seq<Server>)
    ensures |r| <= |servers|
  {
    if servers == [] then []
    else (if SupportsOpenVpnTcp(servers[0]) then [servers[0]] else []) + Qualifying(servers[1..])
  }

  /** The filter keeps exactly the servers advertising OpenVPN TCP. */
  lemma {:induction false} QualifyingExact(servers: seq<Server>, s: Server)
    ensures s in Qualifying(servers) <==> s in servers && SupportsOpenVpnTcp(s)
  {
    if servers != [] {
      QualifyingExact(servers[1..], s);
      assert servers == [servers[0]] + servers[1..];
    }
  }

  /**
   * `fetch_server_info` after the HTTP call: (hostname, station) of a
   * qualifying server, or None.  `random.choice` is modelled by `choice`, any
   * number the environment supplies, reduced to an index of the filtered list.
   */
  function FetchServerInfo(servers: seq<Server>, choice: nat): Option<(string, string)> {
    var candidates := Qualifying(servers);
    if candidates == [] then None
    else
      var s := candidates[choice % |candidates|];
      Some((s.hostname, s.station))
  }

  /** The pick is None exactly when no server advertises OpenVPN TCP, and otherwise the (hostname, station) of one that does. */
  lemma FetchServerInfoSound(servers: seq<Server>, choice: nat)
    ensures FetchServerInfo(servers, choice).None? <==> forall s :: s in servers ==> !SupportsOpenVpnTcp(s)
    ensures FetchServerInfo(servers, choice).Some? ==>
              exists s :: s in servers && SupportsOpenVpnTcp(s) && FetchServerInfo(servers, choice).value == (s.hostname, s.station)
  {
    var candidates := Qualifying(servers);
    if candidates != [] {
      var s := candidates[choice % |candidates|];
      QualifyingExact(servers, s);
      QualifyingExact(servers, candidates[0]);
    } else {
      forall s | s in servers
        ensures !SupportsOpenVpnTcp(s)
      {
        QualifyingExact(servers, s);
      }
    }
  }

  lemma ModBelow(k: nat, n: nat)
    requires k < n
    ensures k % n == k
  {
  }

  /** Every qualifying server is a possible outcome of the random choice. */
  lemma EveryQualifyingServerCanBeChosen(servers: seq<Server>, s: Server)
    requires s in servers && SupportsOpenVpnTcp(s)
    ensures exists choice: nat :: FetchServerInfo(servers, choice) == Some((s.hostname, s.station))
  {
    var candidates := Qualifying(servers);
    QualifyingExact(servers, s);
    var k :| 0 <= k < |candidates| && candidates[k] == s;
    ModBelow(k, |candidates|);
    assert FetchServerInfo(servers, k) == Some((s.hostname, s.station));
  }

  // ---------------------------------------------------------------------------
  // OpenVPN profile template
  // ---------------------------------------------------------------------------

  /** A template of literal text and numbered fields `{k}` (no automatic numbering, `{{` escapes or format specifications). */
  datatype Piece = Literal(text: string) | Field(index: nat)

  type Template = seq<Piece>

  /** Every replacement field refers to one of the first `n` positional arguments. */
  predicate FieldsBelow(t: Template, n: nat) {
    forall k :: 0 <= k < |t| ==> t[k].Field? ==> t[k].index < n
  }

  function PieceText(p: Piece, args: seq<string>): string
    requires p.Field? ==> p.index < |args|
  {
    match p
    case Literal(text) => text
    case Field(index) => args[index]
  }

  /** `template.format(*args)`: literal text kept, field `{k}` replaced by the k-th argument, for fields all in range. */
  function Format(t: Template, args: seq<string>): (r: string)
    requires FieldsBelow(t, |args|)
  {
    if t == [] then "" else PieceText(t[0], args) + Format(t[1..], args)
  }

  /** Formatting works piece by piece: the text of a joined template is the join of the texts. */
  lemma {:induction false} FormatConcat(t1: Template, t2: Template, args: seq<string>)
    requires FieldsBelow(t1, |args|) && FieldsBelow(t2, |args|)
    ensures FieldsBelow(t1 + t2, |args|)
    ensures Format(t1 + t2, args) == Format(t1, args) + Format(t2, args)
  {
    if t1 == [] {
      assert t1 + t2 == t2;
    } else {
      assert (t1 + t2)[0] == t1[0];
      assert (t1 + t2)[1..] == t1[1..] + t2;
      FormatConcat(t1[1..], t2, args);
    }
  }

  /** A field replaced by the k-th argument yields exactly that argument. */
  lemma FormatSingleField(k: nat, args: seq<string>)
    requires k < |args|
    ensures FieldsBelow([Field(k)], |args|)
    ensures Format([Field(k)], args) == args[k]
  {
    assert [Field(k)][1..] == [];
  }

  /** A template line `remote {0} {1}` followed by a newline. */
  function RemoteLine(): (t: Template)
    ensures FieldsBelow(t, 2)
  {
    [Literal("remote "), Field(0), Literal(" "), Field(1), Literal("\n")]
  }

  /** Filling `remote {0} {1}` with (station, hostname) puts the station first and the hostname second. */
  lemma RemoteLineFilled(station: string, hostname: string)
    ensures Format(RemoteLine(), [station, hostname]) == "remote " + station + " " + hostname + "\n"
  {
    var t := RemoteLine();
    var args := [station, hostname];
    assert t[1..][1..][1..][1..][1..] == [];
    assert Format(t[1..][1..][1..][1..], args) == "\n";
    assert Format(t[1..][1..][1..], args) == hostname + "\n";
    assert Format(t[1..][1..], args) == " " + hostname + "\n";
    assert Format(t[1..], args) == station + " " + hostname + "\n";
  }

  /** The station and hostname of one concrete server in the profile line. */
  lemma RemoteLineExample()
    ensures Format(RemoteLine(), ["1.2.3.4", "us1.example.com"]) == "remote 1.2.3.4 us1.example.com\n"
  {
    RemoteLineFilled("1.2.3.4", "us1.example.com");
  }

  // ---------------------------------------------------------------------------
  // Credentials file
  // ---------------------------------------------------------------------------

  /** The text written to the `--auth-user-pass` file: user, a newline, password, nothing after. */
  function CredentialsText(user: string, password: string): string {
    user + "\n" + password
  }

  /** The credentials text is the user name, one newline, the password, and nothing else. */
  lemma CredentialsTextLayout(user: string, password: string)
    ensures var r := CredentialsText(user, password);
      && |r| == |user| + 1 + |password|
      && r[..|user|] == user && r[|user|] == '\n' && r[|user| + 1..] == password
  {
  }

  /**
   * A reader of the credentials text that splits it at the first newline:
   * the text before it is the user name, the text after it the password.
   */
  function SplitFirstLine(s: string): (string, string) {
    if s == [] then ("", "")
    else if s[0] == '\n' then ("", s[1..])
    else
      var (line, rest) := SplitFirstLine(s[1..]);
      ([s[0]] + line, rest)
  }

  /** The credentials text reads back as the pair it was written from, provided the user name has no newline. */
  lemma {:induction false} CredentialsRoundTrip(user: string, password: string)
    requires forall k :: 0 <= k < |user| ==> user[k] != '\n'
    ensures SplitFirstLine(CredentialsText(user, password)) == (user, password)
  {
    var text := CredentialsText(user, password);
    if user == [] {
      assert text == "\n" + password;
      assert text[1..] == password;
    } else {
      assert text[0] == user[0];
      assert text[1..] == CredentialsText(user[1..], password);
      CredentialsRoundTrip(user[1..], password);
      assert [user[0]] + user[1..] == user;
    }
  }

  // ---------------------------------------------------------------------------
  // Host process table and kill commands
  // ---------------------------------------------------------------------------

  /** One entry of `psutil.process_iter(attrs=["name", "pid"])`. */
  datatype Process = Process(name: string, pid: int)

  /** A kill command issued to the host: `kill -<signal> <pid>` or `os.kill(pid, signal)`. */
  datatype Kill = Kill(pid: int, signal: int)

  const OPENVPN: string := "openvpn"
  const SIGKILL: int := 9
  const SIGTERM: int := 15

  /** The kills that `flush` issues: SIGKILL to every process named exactly "openvpn", in table order. */
  function SweepKills(procs: seq<Process>): seq<Kill> {
    if procs == [] then []
    else
      var last := procs[|procs| - 1];
      SweepKills(procs[..|procs| - 1]) + (if last.name == OPENVPN then [Kill(last.pid, SIGKILL)] else [])
  }

  /** `flush` kills exactly the processes named "openvpn", with SIGKILL, and nothing else. */
  lemma {:induction false} SweepKillsExact(procs: seq<Process>, k: Kill)
    ensures k in SweepKills(procs) <==>
            k.signal == SIGKILL && exists i :: 0 <= i < |procs| && procs[i] == Process(OPENVPN, k.pid)
  {
    if procs != [] {
      var init := procs[..|procs| - 1];
      SweepKillsExact(init, k);
      assert forall i :: 0 <= i < |init| ==> procs[i] == init[i];
      if k.signal == SIGKILL && (exists i :: 0 <= i < |procs| && procs[i] == Process(OPENVPN, k.pid)) {
        var i :| 0 <= i < |procs| && procs[i] == Process(OPENVPN, k.pid);
        if i < |init| {
          assert init[i] == Process(OPENVPN, k.pid);
        }
      }
    }
  }

  /** Python truthiness of an optional pid: None and 0 are false. */
  predicate TruthyPid(pid: Option<int>) {
    pid.Some? && pid.value != 0
  }

  /** Python truthiness of an optional path: None and "" are false. */
  predicate TruthyPath(path: Option<string>) {
    path.Some? && path.value != ""
  }
}
