/**
 * The `VPN` controller of njord/vpn.py: credentials that fall back to
 * `os.getenv` without a default, a protection check by `==` (so 1 counts as
 * true), a `connect` that disconnects only when a daemon is recorded, probes
 * at most five times, and restarts itself without bound when the probes end
 * unprotected.  A restart after the daemon exited raises: `poll()` has
 * reaped it, so the restart's SIGTERM names no process.
 *
 * Attempt number k sees the world answer `world(k)`; the probes of one
 * attempt are its own infinite supply of (status, still running) answers.
 */
module VpnModel {
  import opened NordApi
  import ClientModel

  /** `user if user else os.getenv("NORD_USER")`: an explicit non-empty value, else the environment's, which may be missing. */
  function ResolveCredential(explicit: string, env: Option<string>): Option<string> {
    if explicit != "" then Some(explicit) else env
  }

  /**
   * The credential is missing exactly when neither an explicit value nor the
   * environment gives one; when present it is the one the `Client` resolves,
   * and when missing the `Client` has "" instead.
   */
  lemma ResolveCredentialAgreesWithClient(explicit: string, env: Option<string>)
    ensures ResolveCredential(explicit, env).None? <==> explicit == "" && env.None?
    ensures ResolveCredential(explicit, env).Some? ==>
              ResolveCredential(explicit, env).value == ClientModel.ResolveCredential(explicit, env)
    ensures ResolveCredential(explicit, env).None? ==> ClientModel.ResolveCredential(explicit, env) == ""
  {
  }

  /** How an f-string renders an optional string: the text itself, or "None". */
  function PyStr(v: Option<string>): string {
    match v
    case Some(text) => text
    case None => "None"
  }

  /** The credentials file text `f"{auth_user}\n{auth_password}"`. */
  function AuthText(user: Option<string>, password: Option<string>): string {
    CredentialsText(PyStr(user), PyStr(password))
  }

  /** With no explicit user and no NORD_USER, the credentials file names the user "None". */
  lemma MissingUserWritesNone(password: string, envPassword: Option<string>)
    ensures AuthText(ResolveCredential("", None), ResolveCredential(password, envPassword))
         == "None\n" + PyStr(ResolveCredential(password, envPassword))
  {
  }

  /** `status.get("status") == True`: the JSON boolean true, or the integer 1, which Python equates with True. */
  predicate Protected(status: StatusObject) {
    match Get(status, "status")
    case Some(JBool(true)) => true
    case Some(JInt(1)) => true
    case _ => false
  }

  /** The protection check against the status object, in both directions. */
  lemma ProtectedExactly(status: StatusObject)
    ensures Protected(status) <==> "status" in status && (status["status"] == JBool(true) || status["status"] == JInt(1))
    ensures "status" !in status ==> !Protected(status)
  {
  }

  /** Every status the `Client` accepts is accepted here, and `{"status": 1}` only here. */
  lemma ProtectedWeakerThanClient(status: StatusObject)
    ensures ClientModel.IsProtected(status) ==> Protected(status)
    ensures var one := map["status" := JInt(1)]; Protected(one) && !ClientModel.IsProtected(one)
    ensures var text := map["status" := JString("true")]; !Protected(text)
  {
    var one := map["status" := JInt(1)];
    assert Get(one, "status") == Some(JInt(1));
    var text := map["status" := JString("true")];
    assert Get(text, "status") == Some(JString("true"));
  }

  // ---------------------------------------------------------------------------
  // The probe loop
  // ---------------------------------------------------------------------------

  /** How many unprotected probes of a running daemon `connect` tolerates. */
  const MAX_PROBES: nat := 5

  /** One round of the probe loop's view: the status answer, and whether `poll()` found the daemon still running. */
  datatype Probe = Probe(status: StatusObject, running: bool)

  /** How the probe loop ends: protected at probe `count`, daemon gone at probe `count`, or five unprotected probes. */
  datatype ProbeResult = ProtectedAt(count: nat) | ExitedAt(count: nat) | GaveUp

  /** The probe loop from counter `count` on; probe k is the one made with the counter at k. */
  function ProbeRun(probes: nat -> Probe, count: nat): ProbeResult
    decreases MAX_PROBES - count
  {
    if count >= MAX_PROBES then GaveUp
    else if Protected(probes(count).status) then ProtectedAt(count)
    else if probes(count).running then ProbeRun(probes, count + 1)
    else ExitedAt(count)
  }

  /**
   * The loop ends protected at k exactly when probe k is protected after k
   * unprotected probes of a running daemon; it ends at an exited daemon at k
   * without counting that probe; it gives up only after five unprotected
   * probes of a running daemon.  The counter never exceeds five.
   */
  lemma {:induction false} ProbeRunFacts(probes: nat -> Probe, count: nat)
    ensures var r := ProbeRun(probes, count);
      && (r.ProtectedAt? || r.ExitedAt? ==> count <= r.count < MAX_PROBES)
      && (r.ProtectedAt? ==> Protected(probes(r.count).status))
      && (r.ExitedAt? ==> !Protected(probes(r.count).status) && !probes(r.count).running)
      && (r.ProtectedAt? || r.ExitedAt? ==>
            forall k :: count <= k < r.count ==> !Protected(probes(k).status) && probes(k).running)
      && (r.GaveUp? ==> forall k :: count <= k < MAX_PROBES ==> !Protected(probes(k).status) && probes(k).running)
    decreases MAX_PROBES - count
  {
    if count < MAX_PROBES && !Protected(probes(count).status) && probes(count).running {
      ProbeRunFacts(probes, count + 1);
    }
  }

  /** A protected first probe ends the loop at once. */
  lemma ProtectedFirstProbe(probes: nat -> Probe)
    requires Protected(probes(0).status)
    ensures ProbeRun(probes, 0) == ProtectedAt(0)
  {
  }

  /**
   * The `while count < 5` loop of `connect`: return when protected, count a
   * probe of a running daemon, break when it has exited.  Reports whether
   * it returned and the final counter.
   */
  method ProbeLoop(probes: nat -> Probe) returns (protected: bool, count: nat)
    ensures count <= MAX_PROBES
    ensures protected <==> ProbeRun(probes, 0) == ProtectedAt(count)
    ensures !protected ==> ProbeRun(probes, 0) == (if count == MAX_PROBES then GaveUp else ExitedAt(count))
  {
    count := 0;
    protected := false;
    while count < MAX_PROBES
      invariant count <= MAX_PROBES
      invariant ProbeRun(probes, 0) == ProbeRun(probes, count)
      decreases MAX_PROBES - count
    {
      if Protected(probes(count).status) {
        protected := true;
        return;
      } else if probes(count).running {
        count := count + 1;
      } else {
        break;
      }
    }
  }

  // ---------------------------------------------------------------------------
  // Sessions and attempts
  // ---------------------------------------------------------------------------

  /** What one attempt of `connect` sees of the world. */
  datatype Attempt = Attempt(
    procs: seq<Process>,      // process table swept by the disconnect, when there is one
    servers: seq<Server>,     // the recommendations response
    choice: nat,              // the index random.choice picks
    configPath: string,       // tempdir joined with os.urandom(24).hex()
    authPath: string,         // tempdir joined with os.urandom(16).hex()
    pid: int,                 // pid of the spawned daemon
    probes: nat -> Probe)     // the answers of the probe loop

  /** Two distinct non-empty paths and a positive pid. */
  predicate WellFormed(a: Attempt) {
    && a.configPath != "" && a.authPath != "" && a.configPath != a.authPath
    && a.pid > 0
  }

  ghost predicate AllWellFormed(world: nat -> Attempt) {
    forall k: nat :: WellFormed(world(k))
  }

  /** The attempt finds a server. */
  predicate Found(a: Attempt) {
    FetchServerInfo(a.servers, a.choice).Some?
  }

  /** The attempt finds a server and its probe loop gives up with the daemon still running. */
  predicate Restarts(a: Attempt) {
    Found(a) && ProbeRun(a.probes, 0).GaveUp?
  }

  /** The attempt finds a server and its probe loop sees the daemon exit. */
  predicate Exits(a: Attempt) {
    Found(a) && ProbeRun(a.probes, 0).ExitedAt?
  }

  /** The attempt ends the call by itself: no server, or its probe loop ended protected. */
  predicate Final(a: Attempt) {
    !Found(a) || ProbeRun(a.probes, 0).ProtectedAt?
  }

  /**
   * The fields of a `VPN`, with the temp files on disk (path to content), the
   * kill commands issued so far, and whether `poll()` has seen the recorded
   * daemon exit and reaped it, so that its pid names no process any more.
   */
  datatype Session = Session(
    authUser: Option<string>,
    authPassword: Option<string>,
    pid: Option<int>,
    configFile: Option<string>,
    authFile: Option<string>,
    files: map<string, string>,
    kills: seq<Kill>,
    reaped: bool)

  /**
   * The session invariant: daemon, profile and credentials file are recorded
   * together or not at all; a recorded pid is positive; recorded paths are
   * distinct, exist, and the credentials file holds the rendered credentials;
   * only a recorded daemon can have been reaped.
   */
  predicate Consistent(s: Session) {
    && (s.pid.Some? <==> s.configFile.Some?)
    && (s.configFile.Some? <==> s.authFile.Some?)
    && (s.pid.Some? ==> s.pid.value > 0)
    && (s.reaped ==> s.pid.Some?)
    && (s.configFile.Some? ==>
          && s.configFile.value != "" && s.authFile.value != ""
          && s.configFile.value != s.authFile.value
          && s.configFile.value in s.files && s.authFile.value in s.files
          && s.files[s.authFile.value] == AuthText(s.authUser, s.authPassword))
  }

  /** `os.kill(self.OPENVPN_PID, SIGTERM)` raises ProcessLookupError: the recorded daemon was reaped. */
  predicate KillFails(s: Session) {
    TruthyPid(s.pid) && s.reaped
  }

  /**
   * The state after `disconnect`: SIGTERM to the recorded pid, remove the
   * recorded files, then `flush`.  When the SIGTERM raises, nothing has
   * changed yet.
   */
  function AfterDisconnect(s: Session, procs: seq<Process>): Session {
    if KillFails(s) then s
    else
      var s1 := if TruthyPid(s.pid) then s.(pid := None, kills := s.kills + [Kill(s.pid.value, SIGTERM)]) else s;
      var s2 := if TruthyPath(s1.configFile) then s1.(files := s1.files - {s1.configFile.value}, configFile := None) else s1;
      var s3 := if TruthyPath(s2.authFile) then s2.(files := s2.files - {s2.authFile.value}, authFile := None) else s2;
      s3.(kills := s3.kills + SweepKills(procs))
  }

  /**
   * On a consistent session, disconnect clears every field, removes exactly
   * the recorded files and terminates the recorded pid before sweeping;
   * after a reaped daemon it raises and changes nothing.
   */
  lemma DisconnectClears(s: Session, procs: seq<Process>)
    requires Consistent(s)
    ensures KillFails(s) ==> AfterDisconnect(s, procs) == s
    ensures !KillFails(s) ==>
      var d := AfterDisconnect(s, procs);
      && d.pid.None? && d.configFile.None? && d.authFile.None? && !d.reaped
      && d.authUser == s.authUser && d.authPassword == s.authPassword
      && d.files == (if s.configFile.Some? then s.files - {s.configFile.value, s.authFile.value} else s.files)
      && d.kills == s.kills + (if s.pid.Some? then [Kill(s.pid.value, SIGTERM)] else []) + SweepKills(procs)
    ensures Consistent(AfterDisconnect(s, procs))
  {
  }

  /** A second disconnect changes no field and removes no file; it only repeats the sweep, or raises again. */
  lemma DisconnectIdempotent(s: Session, procs: seq<Process>, procs': seq<Process>)
    requires Consistent(s)
    ensures var d := AfterDisconnect(s, procs);
      AfterDisconnect(d, procs') == if KillFails(s) then d else d.(kills := d.kills + SweepKills(procs'))
  {
  }

  /** The profile, credentials and live daemon an attempt records once a server (hostname, ip) was found. */
  function Spawned(s: Session, template: Template, hostname: string, ip: string, a: Attempt): Session
    requires FieldsBelow(template, 2)
  {
    s.(configFile := Some(a.configPath),
       authFile := Some(a.authPath),
       files := s.files[a.configPath := Format(template, [ip, hostname])]
                       [a.authPath := AuthText(s.authUser, s.authPassword)],
       pid := Some(a.pid),
       reaped := false)
  }

  /** The session at the start of an attempt: disconnected only if a daemon is recorded. */
  function Prepared(s: Session, procs: seq<Process>): Session {
    if TruthyPid(s.pid) then AfterDisconnect(s, procs) else s
  }

  /** The part of an attempt after the conditional disconnect: the server and, if there is one, the files and the daemon. */
  function Launched(s: Session, template: Template, a: Attempt): Session
    requires FieldsBelow(template, 2)
  {
    match FetchServerInfo(a.servers, a.choice)
    case None => s
    case Some((hostname, ip)) => Spawned(s, template, hostname, ip, a)
  }

  /** One attempt of `connect` up to the probe loop; it stops at once when the conditional disconnect raises. */
  function Attempted(s: Session, template: Template, a: Attempt): Session
    requires FieldsBelow(template, 2)
  {
    if KillFails(s) then s else Launched(Prepared(s, a.procs), template, a)
  }

  /** What the probe loop of attempt `a` leaves: the daemon is reaped exactly when the loop saw it exit. */
  function Probed(s: Session, a: Attempt): Session {
    s.(reaped := ProbeRun(a.probes, 0).ExitedAt?)
  }

  /** What attempt `a` leaves: its daemon and both files if it found a server, and nothing recorded if it found none. */
  predicate LeftBy(d: Session, template: Template, a: Attempt, user: Option<string>, password: Option<string>)
    requires FieldsBelow(template, 2)
  {
    && (!Found(a) ==> d.pid.None? && d.configFile.None? && d.authFile.None?)
    && (Found(a) ==>
      var (hostname, ip) := FetchServerInfo(a.servers, a.choice).value;
      && d.pid == Some(a.pid)
      && d.configFile == Some(a.configPath) && d.authFile == Some(a.authPath)
      && a.configPath in d.files && a.authPath in d.files
      && d.files[a.configPath] == Format(template, [ip, hostname])
      && d.files[a.authPath] == AuthText(user, password))
  }

  /**
   * An attempt keeps the session invariant and the credentials.  When the
   * disconnect raises it changes nothing.  Otherwise: without a recorded
   * daemon it kills nothing and removes no file; without a server it writes
   * nothing; with one it adds its two files to what the disconnect left and
   * records a live daemon, as `LeftBy` describes.
   */
  lemma AttemptedEffect(s: Session, template: Template, a: Attempt)
    requires FieldsBelow(template, 2) && WellFormed(a)
    requires Consistent(s)
    ensures var r := Attempted(s, template, a);
      && Consistent(r)
      && r.authUser == s.authUser && r.authPassword == s.authPassword
      && (KillFails(s) ==> r == s)
      && (!TruthyPid(s.pid) ==> Prepared(s, a.procs) == s)
      && (!KillFails(s) ==> r.kills == Prepared(s, a.procs).kills && LeftBy(r, template, a, s.authUser, s.authPassword))
      && (!KillFails(s) && !Found(a) ==> r == Prepared(s, a.procs))
      && (!KillFails(s) && Found(a) ==>
            var (hostname, ip) := FetchServerInfo(a.servers, a.choice).value;
            && !r.reaped
            && r.files == Prepared(s, a.procs).files[a.configPath := Format(template, [ip, hostname])]
                                                    [a.authPath := AuthText(s.authUser, s.authPassword)])
  {
    DisconnectClears(s, a.procs);
  }

  /** The session records path `p` as its profile or its credentials file. */
  predicate Recorded(s: Session, p: string) {
    s.configFile == Some(p) || s.authFile == Some(p)
  }

  /** Path `p` is one of the two fresh paths of attempt `a`. */
  predicate Writes(a: Attempt, p: string) {
    p == a.configPath || p == a.authPath
  }

  /**
   * How one attempt that does not raise changes the presence of a path: a
   * file present afterwards was there before unrecorded or is one the attempt
   * wrote; an unrecorded file afterwards was unrecorded before; an unrecorded
   * file the attempt does not write keeps its content.
   */
  lemma AttemptFiles(s: Session, template: Template, a: Attempt, p: string)
    requires FieldsBelow(template, 2) && WellFormed(a)
    requires Consistent(s) && !KillFails(s)
    ensures var r := Attempted(s, template, a);
      && (p in r.files ==> (p in s.files && !Recorded(s, p)) || (Found(a) && Writes(a, p)))
      && (p in r.files && !Recorded(r, p) ==> p in s.files && !Recorded(s, p))
      && (p in s.files && !Recorded(s, p) && !Writes(a, p) ==> p in r.files && r.files[p] == s.files[p] && !Recorded(r, p))
  {
    DisconnectClears(s, a.procs);
  }

  /** With a single qualifying server and the line `remote {0} {1}`, the profile an attempt writes names the station, then the hostname. */
  lemma ProfileScenario(s: Session, a: Attempt)
    requires WellFormed(a) && !KillFails(s)
    requires a.servers == [Server("us1.example.com", "1.2.3.4", [OPENVPN_TCP])]
    ensures var d := Attempted(s, RemoteLine(), a);
      a.configPath in d.files && d.files[a.configPath] == "remote 1.2.3.4 us1.example.com\n"
  {
    assert a.servers[1..] == [];
    assert Qualifying(a.servers) == a.servers;
    assert FetchServerInfo(a.servers, a.choice) == Some(("us1.example.com", "1.2.3.4"));
    RemoteLineExample();
  }

  /** A restart after five unprotected probes terminates the daemon the previous attempt spawned, before it sweeps. */
  lemma RestartTerminatesPrevious(s: Session, template: Template, a0: Attempt, a1: Attempt)
    requires FieldsBelow(template, 2) && WellFormed(a0) && Consistent(s) && !KillFails(s)
    requires Restarts(a0)
    ensures var s1 := Probed(Attempted(s, template, a0), a0);
      Attempted(s1, template, a1).kills == s1.kills + [Kill(a0.pid, SIGTERM)] + SweepKills(a1.procs)
  {
    AttemptedEffect(s, template, a0);
    DisconnectClears(Probed(Attempted(s, template, a0), a0), a1.procs);
  }

  // ---------------------------------------------------------------------------
  // The restarting connect
  // ---------------------------------------------------------------------------

  /** How `connect()` ends: protected, the TypeError of unpacking None, the ProcessLookupError of a SIGTERM to a reaped daemon, or still restarting when the observed calls run out. */
  datatype Outcome = Connected | RaisedTypeError | RaisedProcessLookupError | StillRestarting

  /** The outcome and how many attempts fetched a server list. */
  datatype Run = Run(outcome: Outcome, used: nat)

  /**
   * The decisions of the first `budget` nested calls of `connect()` on the
   * attempts numbered `from` on, where `stale` says that the opening
   * SIGTERM raises.  Otherwise: no server: raise; probe loop protected:
   * return; otherwise call `connect()` again, with a stale daemon when the
   * loop saw it exit.  With the budget spent the call is still restarting.
   */
  function AfterConnect(stale: bool, world: nat -> Attempt, from: nat, budget: nat): (r: Run)
    ensures r.used <= budget
    decreases budget
  {
    if budget == 0 then Run(StillRestarting, 0)
    else if stale then Run(RaisedProcessLookupError, 0)
    else
      var a := world(from);
      if !Found(a) then Run(RaisedTypeError, 1)
      else if ProbeRun(a.probes, 0).ProtectedAt? then Run(Connected, 1)
      else
        var inner := AfterConnect(ProbeRun(a.probes, 0).ExitedAt?, world, from + 1, budget - 1);
        Run(inner.outcome, inner.used + 1)
  }

  /** The session the first `budget` nested calls of `connect()` leave. */
  function SessionAfterConnect(s: Session, template: Template, world: nat -> Attempt, from: nat, budget: nat): Session
    requires FieldsBelow(template, 2)
    decreases budget
  {
    if budget == 0 || KillFails(s) then s
    else
      var a := world(from);
      var s1 := Attempted(s, template, a);
      if Final(a) then s1 else SessionAfterConnect(Probed(s1, a), template, world, from + 1, budget - 1)
  }

  /** A call on a session whose recorded daemon was reaped raises at once and changes nothing. */
  lemma StaleConnectRaises(s: Session, template: Template, world: nat -> Attempt, from: nat, budget: nat)
    requires FieldsBelow(template, 2) && budget >= 1 && KillFails(s)
    ensures AfterConnect(KillFails(s), world, from, budget) == Run(RaisedProcessLookupError, 0)
    ensures SessionAfterConnect(s, template, world, from, budget) == s
  {
  }

  /** No server: TypeError after the conditional disconnect alone, with no file written and no daemon spawned. */
  lemma NoServerRaises(s: Session, template: Template, world: nat -> Attempt, from: nat, budget: nat)
    requires FieldsBelow(template, 2) && budget >= 1 && !KillFails(s)
    requires forall srv :: srv in world(from).servers ==> !SupportsOpenVpnTcp(srv)
    ensures AfterConnect(KillFails(s), world, from, budget) == Run(RaisedTypeError, 1)
    ensures SessionAfterConnect(s, template, world, from, budget) == Prepared(s, world(from).procs)
  {
    FetchServerInfoSound(world(from).servers, world(from).choice);
  }

  /**
   * A daemon that exits during the probe loop makes the restart raise: the
   * call ends with ProcessLookupError after that one attempt, its daemon and
   * files still recorded and on disk, and the session stale, so that every
   * later `disconnect` raises too.
   */
  lemma ExitedDaemonBlocksRestart(s: Session, template: Template, world: nat -> Attempt, from: nat, budget: nat)
    requires FieldsBelow(template, 2) && AllWellFormed(world) && Consistent(s) && !KillFails(s)
    requires budget >= 2 && Exits(world(from))
    ensures AfterConnect(KillFails(s), world, from, budget) == Run(RaisedProcessLookupError, 1)
    ensures var d := SessionAfterConnect(s, template, world, from, budget);
      && KillFails(d)
      && LeftBy(d, template, world(from), s.authUser, s.authPassword)
      && forall procs :: AfterDisconnect(d, procs) == d
  {
    assert WellFormed(world(from));
    AttemptedEffect(s, template, world(from));
  }

  /** The number of the last attempt `connect()` makes within the budget. */
  function LastAttempt(world: nat -> Attempt, from: nat, budget: nat): (n: nat)
    requires budget >= 1
    ensures from <= n < from + budget
    decreases budget
  {
    if !Restarts(world(from)) || budget == 1 then from else LastAttempt(world, from + 1, budget - 1)
  }

  /** The last attempt is the one after the first `used - 1`. */
  lemma {:induction false} LastAttemptCounts(world: nat -> Attempt, from: nat, budget: nat)
    requires budget >= 1
    ensures AfterConnect(false, world, from, budget).used >= 1
    ensures LastAttempt(world, from, budget) == from + AfterConnect(false, world, from, budget).used - 1
    decreases budget
  {
    if Restarts(world(from)) && budget > 1 {
      LastAttemptCounts(world, from + 1, budget - 1);
    }
  }

  /**
   * The call ends connected only after the last attempt's probe loop saw
   * protection; raises TypeError only when the last attempt found no server;
   * raises ProcessLookupError only when the last attempt's daemon exited and
   * the restart was observed; and is still restarting only when the budget
   * is spent and the last attempt did not end the call.
   */
  lemma {:induction false} ConnectOutcomeReasons(world: nat -> Attempt, from: nat, budget: nat)
    requires budget >= 1
    ensures var r := AfterConnect(false, world, from, budget);
      var last := world(LastAttempt(world, from, budget));
      && (r.outcome == Connected <==> Found(last) && ProbeRun(last.probes, 0).ProtectedAt?)
      && (r.outcome == RaisedTypeError <==> !Found(last))
      && (r.outcome == RaisedProcessLookupError <==> Exits(last) && r.used < budget)
      && (r.outcome == StillRestarting <==> !Final(last) && r.used == budget)
    decreases budget
  {
    if Restarts(world(from)) && budget > 1 {
      ConnectOutcomeReasons(world, from + 1, budget - 1);
    }
  }

  /** Every attempt before the last found a server and gave up after five probes of a running daemon, so it restarted cleanly. */
  lemma {:induction false} EarlierAttemptsRestarted(world: nat -> Attempt, from: nat, budget: nat)
    requires budget >= 1
    ensures forall k :: from <= k < LastAttempt(world, from, budget) ==> Restarts(world(k))
    decreases budget
  {
    if Restarts(world(from)) && budget > 1 {
      EarlierAttemptsRestarted(world, from + 1, budget - 1);
    }
  }

  /** There is no retry bound: as long as attempts give up on a running daemon, every budget is used up restarting. */
  lemma {:induction false} NoRestartBound(world: nat -> Attempt, from: nat, budget: nat)
    requires forall k :: from <= k < from + budget ==> Restarts(world(k))
    ensures AfterConnect(false, world, from, budget) == Run(StillRestarting, budget)
    decreases budget
  {
    if budget > 0 {
      assert Restarts(world(from));
      NoRestartBound(world, from + 1, budget - 1);
    }
  }

  /** However many attempts run, the session invariant holds and the credentials are unchanged. */
  lemma {:induction false} ConnectKeepsConsistent(s: Session, template: Template, world: nat -> Attempt, from: nat, budget: nat)
    requires FieldsBelow(template, 2) && AllWellFormed(world)
    requires Consistent(s)
    ensures var d := SessionAfterConnect(s, template, world, from, budget);
      Consistent(d) && d.authUser == s.authUser && d.authPassword == s.authPassword
    decreases budget
  {
    if budget > 0 && !KillFails(s) {
      var a := world(from);
      assert WellFormed(a);
      EndsWithLastStep(s, template, world, from, budget);
      AttemptedEffect(s, template, a);
      if Restarts(a) && budget > 1 {
        ConnectKeepsConsistent(Probed(Attempted(s, template, a), a), template, world, from + 1, budget - 1);
      }
    }
  }

  /**
   * The session `connect()` leaves records the daemon and files of its last
   * attempt when that attempt found a server, and no daemon and no files
   * when it found none.
   */
  lemma {:induction false} ConnectEndsWithLast(s: Session, template: Template, world: nat -> Attempt, from: nat, budget: nat)
    requires FieldsBelow(template, 2) && AllWellFormed(world) && budget >= 1
    requires Consistent(s) && !KillFails(s)
    ensures LeftBy(SessionAfterConnect(s, template, world, from, budget), template,
                   world(LastAttempt(world, from, budget)), s.authUser, s.authPassword)
    decreases budget
  {
    var a := world(from);
    assert WellFormed(a);
    EndsWithLastStep(s, template, world, from, budget);
    if Restarts(a) && budget > 1 {
      ConnectEndsWithLast(Probed(Attempted(s, template, a), a), template, world, from + 1, budget - 1);
    }
  }

  /** One nested call either is the last and leaves what its attempt left, or says where the rest of the call continues. */
  lemma EndsWithLastStep(s: Session, template: Template, world: nat -> Attempt, from: nat, budget: nat)
    requires FieldsBelow(template, 2) && budget >= 1 && WellFormed(world(from))
    requires Consistent(s) && !KillFails(s)
    ensures var a := world(from);
      var next := Probed(Attempted(s, template, a), a);
      var d := SessionAfterConnect(s, template, world, from, budget);
      && (!(Restarts(a) && budget > 1) ==>
            LastAttempt(world, from, budget) == from && LeftBy(d, template, a, s.authUser, s.authPassword))
      && (Restarts(a) && budget > 1 ==>
            && d == SessionAfterConnect(next, template, world, from + 1, budget - 1)
            && LastAttempt(world, from, budget) == LastAttempt(world, from + 1, budget - 1)
            && Consistent(next) && !KillFails(next)
            && next.authUser == s.authUser && next.authPassword == s.authPassword)
  {
    SessionStep(s, template, world, from, budget);
    AttemptedEffect(s, template, world(from));
  }

  /** One nested call of `connect()` that does not raise at its disconnect: the session after it, and where the next call starts. */
  lemma SessionStep(s: Session, template: Template, world: nat -> Attempt, from: nat, budget: nat)
    requires FieldsBelow(template, 2) && budget >= 1 && WellFormed(world(from))
    requires Consistent(s) && !KillFails(s)
    ensures var a := world(from);
      var s1 := Attempted(s, template, a);
      var d := SessionAfterConnect(s, template, world, from, budget);
      && (Final(a) ==> d == s1)
      && (!Final(a) && (Exits(a) || budget == 1) ==> d == Probed(s1, a))
      && (Restarts(a) ==> d == SessionAfterConnect(Probed(s1, a), template, world, from + 1, budget - 1)
                          && Consistent(Probed(s1, a)) && !KillFails(Probed(s1, a)))
  {
    AttemptedEffect(s, template, world(from));
  }

  /** One nested call leaves only unrecorded files from before and its own, and says where the rest of the call continues. */
  lemma LeavesOnlyLastStep(s: Session, template: Template, world: nat -> Attempt, from: nat, budget: nat, p: string)
    requires FieldsBelow(template, 2) && budget >= 1 && WellFormed(world(from))
    requires Consistent(s) && !KillFails(s)
    ensures var a := world(from);
      var next := Probed(Attempted(s, template, a), a);
      var d := SessionAfterConnect(s, template, world, from, budget);
      && (!(Restarts(a) && budget > 1) ==>
            && LastAttempt(world, from, budget) == from
            && (p in d.files ==> (p in s.files && !Recorded(s, p)) || (Found(a) && Writes(a, p))))
      && (Restarts(a) && budget > 1 ==>
            && d == SessionAfterConnect(next, template, world, from + 1, budget - 1)
            && LastAttempt(world, from, budget) == LastAttempt(world, from + 1, budget - 1)
            && Consistent(next) && !KillFails(next)
            && (p in next.files && !Recorded(next, p) ==> p in s.files && !Recorded(s, p)))
  {
    SessionStep(s, template, world, from, budget);
    AttemptFiles(s, template, world(from), p);
  }

  /**
   * `connect()` leaves no temp file of an earlier attempt behind: every file
   * present afterwards was present and unrecorded before, or is one the last
   * attempt wrote.
   */
  lemma {:induction false} ConnectLeavesOnlyLastFiles(s: Session, template: Template, world: nat -> Attempt, from: nat, budget: nat, p: string)
    requires FieldsBelow(template, 2) && AllWellFormed(world) && budget >= 1
    requires Consistent(s) && !KillFails(s)
    ensures var last := world(LastAttempt(world, from, budget));
      p in SessionAfterConnect(s, template, world, from, budget).files ==>
        (p in s.files && !Recorded(s, p)) || (Found(last) && Writes(last, p))
    decreases budget
  {
    var a := world(from);
    assert WellFormed(a);
    LeavesOnlyLastStep(s, template, world, from, budget, p);
    if Restarts(a) && budget > 1 {
      ConnectLeavesOnlyLastFiles(Probed(Attempted(s, template, a), a), template, world, from + 1, budget - 1, p);
    }
  }

  /** One nested call keeps an unrecorded file it does not write, and says where the rest of the call continues. */
  lemma KeepsOtherFileStep(s: Session, template: Template, world: nat -> Attempt, from: nat, budget: nat, p: string)
    requires FieldsBelow(template, 2) && budget >= 1 && WellFormed(world(from))
    requires Consistent(s) && !KillFails(s) && p in s.files && !Recorded(s, p) && !Writes(world(from), p)
    ensures var a := world(from);
      var next := Probed(Attempted(s, template, a), a);
      var d := SessionAfterConnect(s, template, world, from, budget);
      && (!(Restarts(a) && budget > 1) ==> p in d.files && d.files[p] == s.files[p])
      && (Restarts(a) && budget > 1 ==>
            && d == SessionAfterConnect(next, template, world, from + 1, budget - 1)
            && Consistent(next) && !KillFails(next)
            && p in next.files && next.files[p] == s.files[p] && !Recorded(next, p))
  {
    SessionStep(s, template, world, from, budget);
    AttemptFiles(s, template, world(from), p);
  }

  /** `connect()` leaves an unrecorded file that none of its attempts writes exactly as it was. */
  lemma {:induction false} ConnectKeepsOtherFiles(s: Session, template: Template, world: nat -> Attempt, from: nat, budget: nat, p: string)
    requires FieldsBelow(template, 2) && AllWellFormed(world) && budget >= 1
    requires Consistent(s) && !KillFails(s) && p in s.files && !Recorded(s, p)
    requires forall k: nat :: from <= k <= LastAttempt(world, from, budget) ==> !Writes(world(k), p)
    ensures var d := SessionAfterConnect(s, template, world, from, budget);
      p in d.files && d.files[p] == s.files[p]
    decreases budget
  {
    var a := world(from);
    assert WellFormed(a) && !Writes(a, p);
    KeepsOtherFileStep(s, template, world, from, budget, p);
    if Restarts(a) && budget > 1 {
      ConnectKeepsOtherFiles(Probed(Attempted(s, template, a), a), template, world, from + 1, budget - 1, p);
    }
  }

  // ---------------------------------------------------------------------------
  // The restart as written against the restart as evidently intended
  // ---------------------------------------------------------------------------

  /**
   * `connect()` as evidently intended: a daemon that exited is restarted like
   * one that never became protected, the restart's disconnect tolerating
   * the vanished process.
   */
  function IntendedAfterConnect(world: nat -> Attempt, from: nat, budget: nat): (r: Run)
    ensures r.used <= budget
    decreases budget
  {
    if budget == 0 then Run(StillRestarting, 0)
    else
      var a := world(from);
      if !Found(a) then Run(RaisedTypeError, 1)
      else if ProbeRun(a.probes, 0).ProtectedAt? then Run(Connected, 1)
      else
        var inner := IntendedAfterConnect(world, from + 1, budget - 1);
        Run(inner.outcome, inner.used + 1)
  }

  /**
   * The intended restart never raises ProcessLookupError: it ends connected
   * exactly when the last attempt's probe loop saw protection, raises only
   * when the last attempt found no server, and otherwise is still restarting
   * with the whole budget used.
   */
  lemma {:induction false} IntendedOutcomeReasons(world: nat -> Attempt, from: nat, budget: nat)
    requires budget >= 1
    ensures var r := IntendedAfterConnect(world, from, budget);
      var last := world(from + r.used - 1);
      && r.used >= 1
      && r.outcome != RaisedProcessLookupError
      && (r.outcome == Connected <==> Found(last) && ProbeRun(last.probes, 0).ProtectedAt?)
      && (r.outcome == RaisedTypeError <==> !Found(last))
      && (r.outcome == StillRestarting <==> !Final(last))
      && (r.outcome == StillRestarting ==> r.used == budget)
    decreases budget
  {
    if !Final(world(from)) && budget > 1 {
      IntendedOutcomeReasons(world, from + 1, budget - 1);
    }
  }

  /** As long as no daemon exits during a probe loop, the restart as written behaves as intended. */
  lemma {:induction false} IntendedAgreesWithoutExits(world: nat -> Attempt, from: nat, budget: nat)
    requires forall k :: from <= k < from + budget ==> !Exits(world(k))
    ensures AfterConnect(false, world, from, budget) == IntendedAfterConnect(world, from, budget)
    decreases budget
  {
    if budget > 0 {
      assert !Exits(world(from));
      IntendedAgreesWithoutExits(world, from + 1, budget - 1);
    }
  }

  // ---------------------------------------------------------------------------
  // The controller object
  // ---------------------------------------------------------------------------

  class Vpn {
    const authUser: Option<string>
    const authPassword: Option<string>
    var openvpnPid: Option<int>
    var configFile: Option<string>
    var authFile: Option<string>
    /** The temp files on the host: path to content. */
    var files: map<string, string>
    /** The kill commands this object has issued, oldest first. */
    var kills: seq<Kill>
    /** Whether `poll()` has reaped the recorded daemon, held by the `Popen` handle `self.openvpn`. */
    var daemonReaped: bool

    function State(): Session
      reads this
    {
      Session(authUser, authPassword, openvpnPid, configFile, authFile, files, kills, daemonReaped)
    }

    ghost predicate Valid()
      reads this
    {
      Consistent(State())
    }

    /** `VPN(user, password)` given the environment's NORD_USER and NORD_PASSWORD and the existing temp files. */
    constructor (user: string, password: string, envUser: Option<string>, envPassword: Option<string>, tempFiles: map<string, string>)
      ensures Valid()
      ensures State() == Session(ResolveCredential(user, envUser), ResolveCredential(password, envPassword),
                                 None, None, None, tempFiles, [], false)
    {
      openvpnPid := None;
      authUser := ResolveCredential(user, envUser);
      authPassword := ResolveCredential(password, envPassword);
      configFile := None;
      authFile := None;
      files := tempFiles;
      kills := [];
      daemonReaped := false;
    }

    /** `flush`: `os.kill(pid, 9)` for every process of the table named "openvpn". */
    method Flush(procs: seq<Process>)
      modifies this`kills
      ensures State() == old(State()).(kills := old(kills) + SweepKills(procs))
    {
      var i := 0;
      while i < |procs|
        invariant 0 <= i <= |procs|
        invariant State() == old(State()).(kills := old(kills) + SweepKills(procs[..i]))
      {
        assert procs[..i + 1][..i] == procs[..i];
        if procs[i].name == OPENVPN {
          kills := kills + [Kill(procs[i].pid, SIGKILL)];
        }
        i := i + 1;
      }
      assert procs[..i] == procs;
    }

    /**
     * `disconnect`: SIGTERM to the recorded daemon, remove the recorded
     * files, clear the fields, then flush.  Reports whether the SIGTERM
     * raised ProcessLookupError, which leaves everything as it was.
     */
    method Disconnect(procs: seq<Process>) returns (raised: bool)
      requires Valid()
      modifies this
      ensures Valid()
      ensures raised == KillFails(old(State()))
      ensures State() == AfterDisconnect(old(State()), procs)
    {
      if TruthyPid(openvpnPid) {
        if daemonReaped {
          return true;
        }
        kills := kills + [Kill(openvpnPid.value, SIGTERM)];
        openvpnPid := None;
      }
      if TruthyPath(configFile) {
        files := files - {configFile.value};
        configFile := None;
      }
      if TruthyPath(authFile) {
        files := files - {authFile.value};
        authFile := None;
      }
      Flush(procs);
      DisconnectClears(old(State()), procs);
      raised := false;
    }

    /**
     * The part of `connect` between the conditional disconnect and the probe
     * loop: fetch a server and, if there is one, write the profile and the
     * credentials and record the spawned daemon.  Reports whether a server
     * was found.
     */
    method StartAttempt(template: Template, a: Attempt) returns (found: bool)
      requires Valid()
      requires FieldsBelow(template, 2) && WellFormed(a)
      modifies this
      ensures Valid()
      ensures found == Found(a)
      ensures State() == Launched(old(State()), template, a)
    {
      var info := FetchServerInfo(a.servers, a.choice);
      if info.None? {
        return false;
      }
      var (hostname, ip) := info.value;
      configFile := Some(a.configPath);
      files := files[a.configPath := Format(template, [ip, hostname])];
      authFile := Some(a.authPath);
      files := files[a.authPath := AuthText(authUser, authPassword)];
      openvpnPid := Some(a.pid);
      daemonReaped := false;
      found := true;
    }

    /**
     * `connect()`, on the attempts numbered `from` on, observed for at most
     * `budget` nested calls: disconnect if a daemon is recorded (which raises
     * if it was reaped), run the attempt, and call `self.connect()` again
     * when it asks for a restart.
     */
    method Connect(template: Template, world: nat -> Attempt, from: nat, budget: nat) returns (outcome: Outcome)
      requires Valid()
      requires FieldsBelow(template, 2) && AllWellFormed(world)
      modifies this
      ensures Valid()
      ensures outcome == AfterConnect(KillFails(old(State())), world, from, budget).outcome
      ensures State() == SessionAfterConnect(old(State()), template, world, from, budget)
      decreases budget
    {
      if budget == 0 {
        return StillRestarting;
      }
      if TruthyPid(openvpnPid) {
        var raised := Disconnect(world(from).procs);
        if raised {
          return RaisedProcessLookupError;
        }
      }
      assert WellFormed(world(from));
      var restart;
      outcome, restart := Launch(template, world(from));
      if restart {
        outcome := Connect(template, world, from + 1, budget - 1);
      }
    }

    /**
     * An attempt of `connect()` after its disconnect: fetch, write and spawn;
     * no server: raise; probe loop protected: return; otherwise note whether
     * the loop saw the daemon exit, and ask for a restart.
     */
    method Launch(template: Template, a: Attempt) returns (outcome: Outcome, restart: bool)
      requires Valid()
      requires FieldsBelow(template, 2) && WellFormed(a)
      modifies this
      ensures Valid()
      ensures restart == !Final(a)
      ensures !restart ==> outcome == (if Found(a) then Connected else RaisedTypeError)
      ensures var s1 := Launched(old(State()), template, a);
        State() == if Final(a) then s1 else Probed(s1, a)
    {
      var found := StartAttempt(template, a);
      if !found {
        return RaisedTypeError, false;
      }
      var protected, count := ProbeLoop(a.probes);
      if protected {
        return Connected, false;
      }
      daemonReaped := count < MAX_PROBES;
      outcome, restart := StillRestarting, true;
    }
  }
}
