/**
 * The `Client` controller of njord/client.py: credentials from arguments or
 * the environment, a protection check that accepts only the boolean `true`,
 * and a `connect` that always disconnects first and retries by calling
 * itself with a bounded counter.
 *
 * Each connection attempt's view of the outside world (the process table the
 * disconnect sweeps, the recommended servers and the random pick, the fresh
 * temp-file paths, the spawned pid and the status answer) is an `Attempt`;
 * the world answers attempt number k with `world(k)`.
 */
module ClientModel {
  import opened NordApi

  /** The default of `connect(max_retries=5)`, also what the recursive retry uses. */
  const DEFAULT_MAX_RETRIES: int := 5

  /** `user or os.getenv("NORD_USER", "")`: an explicit non-empty value wins, else the environment, else "". */
  function ResolveCredential(explicit: string, env: Option<string>): (r: string)
    ensures explicit != "" ==> r == explicit
    ensures explicit == "" && env.Some? ==> r == env.value
    ensures r == "" <==> explicit == "" && (env.None? || env.value == "")
  {
    if explicit != "" then explicit
    else match env
      case Some(v) => v
      case None => ""
  }

  /** `status.get("status", False) is True`: only the JSON boolean true counts. */
  predicate IsProtected(status: StatusObject)
  {
    match Get(status, "status")
    case Some(JBool(true)) => true
    case _ => false
  }

  /** The protection check against the status object, in both directions. */
  lemma IsProtectedExactly(status: StatusObject)
    ensures IsProtected(status) <==> "status" in status && status["status"] == JBool(true)
    ensures "status" !in status ==> !IsProtected(status)
  {
  }

  /** What one attempt sees of the world. */
  datatype Attempt = Attempt(
    procs: seq<Process>,      // process table swept by the disconnect that starts the attempt
    servers: seq<Server>,     // the recommendations response
    choice: nat,              // the index random.choice picks
    configPath: string,       // tempdir joined with os.urandom(24).hex()
    authPath: string,         // tempdir joined with os.urandom(16).hex()
    pid: int,                 // pid of the spawned daemon
    status: StatusObject)     // the status response after the settle delay

  /** The world's answers are of the kinds the source gets: two distinct non-empty paths, a positive pid. */
  predicate WellFormed(a: Attempt) {
    && a.configPath != "" && a.authPath != "" && a.configPath != a.authPath
    && a.pid > 0
  }

  /** The attempt finds a server and the probe says protected. */
  predicate Succeeds(a: Attempt) {
    FetchServerInfo(a.servers, a.choice).Some? && IsProtected(a.status)
  }

  /** The attempt finds a server but the probe says not protected. */
  predicate Fails(a: Attempt) {
    FetchServerInfo(a.servers, a.choice).Some? && !IsProtected(a.status)
  }

  ghost predicate AllWellFormed(world: nat -> Attempt) {
    forall k: nat :: WellFormed(world(k))
  }

  /** The fields of a `Client` other than the retry counter, with the temp files on disk (path to content) and the kill commands issued so far. */
  datatype Session = Session(
    authUser: string,
    authPassword: string,
    pid: Option<int>,
    configFile: Option<string>,
    authFile: Option<string>,
    files: map<string, string>,
    kills: seq<Kill>)

  /**
   * The session invariant: a daemon, a profile file and a credentials file
   * are recorded together or not at all; a recorded pid is a real (positive)
   * pid; recorded paths are distinct, exist, and the credentials file holds
   * the credentials text.
   */
  predicate Consistent(s: Session) {
    && (s.pid.Some? <==> s.configFile.Some?)
    && (s.configFile.Some? <==> s.authFile.Some?)
    && (s.pid.Some? ==> s.pid.value > 0)
    && (s.configFile.Some? ==>
          && s.configFile.value != "" && s.authFile.value != ""
          && s.configFile.value != s.authFile.value
          && s.configFile.value in s.files && s.authFile.value in s.files
          && s.files[s.authFile.value] == CredentialsText(s.authUser, s.authPassword))
  }

  /** The state after `disconnect`: kill -9 the recorded pid, remove the recorded files, then `flush`. */
  function AfterDisconnect(s: Session, procs: seq<Process>): Session {
    var s1 := if TruthyPid(s.pid) then s.(pid := None, kills := s.kills + [Kill(s.pid.value, SIGKILL)]) else s;
    var s2 := if TruthyPath(s1.configFile) then s1.(files := s1.files - {s1.configFile.value}, configFile := None) else s1;
    var s3 := if TruthyPath(s2.authFile) then s2.(files := s2.files - {s2.authFile.value}, authFile := None) else s2;
    s3.(kills := s3.kills + SweepKills(procs))
  }

  /** On a consistent session, disconnect clears every field, removes exactly the recorded files and kills the recorded pid before sweeping. */
  lemma DisconnectClears(s: Session, procs: seq<Process>)
    requires Consistent(s)
    ensures var d := AfterDisconnect(s, procs);
      && d.pid.None? && d.configFile.None? && d.authFile.None?
      && d.authUser == s.authUser && d.authPassword == s.authPassword
      && d.files == (if s.configFile.Some? then s.files - {s.configFile.value, s.authFile.value} else s.files)
      && d.kills == s.kills + (if s.pid.Some? then [Kill(s.pid.value, SIGKILL)] else []) + SweepKills(procs)
      && Consistent(d)
  {
  }

  /** A second disconnect changes no field and removes no file; it only repeats the sweep. */
  lemma DisconnectIdempotent(s: Session, procs: seq<Process>, procs': seq<Process>)
    requires Consistent(s)
    ensures var d := AfterDisconnect(s, procs);
      AfterDisconnect(d, procs') == d.(kills := d.kills + SweepKills(procs'))
  {
  }

  /** The profile, credentials and pid an attempt records once a server (hostname, ip) was found. */
  function Spawned(s: Session, template: Template, hostname: string, ip: string, a: Attempt): Session
    requires FieldsBelow(template, 2)
  {
    s.(configFile := Some(a.configPath),
       authFile := Some(a.authPath),
       files := s.files[a.configPath := Format(template, [ip, hostname])]
                       [a.authPath := CredentialsText(s.authUser, s.authPassword)],
       pid := Some(a.pid))
  }


  /** One attempt of `connect` up to the probe: disconnect, fetch a server and, if there is one, write the two files and spawn the daemon. */
  function Attempted(s: Session, template: Template, a: Attempt): Session
    requires FieldsBelow(template, 2)
  {
    var s1 := AfterDisconnect(s, a.procs);
    match FetchServerInfo(a.servers, a.choice)
    case None => s1
    case Some((hostname, ip)) => Spawned(s1, template, hostname, ip, a)
  }

  /**
   * What attempt `a` leaves behind, for a client with these credentials: its
   * daemon, its profile filled with the chosen server and its credentials
   * file if it found a server, and nothing recorded otherwise.
   */
  predicate LeftBy(d: Session, template: Template, a: Attempt, user: string, password: string)
    requires FieldsBelow(template, 2)
  {
    && (FetchServerInfo(a.servers, a.choice).None? ==> d.pid.None? && d.configFile.None? && d.authFile.None?)
    && (FetchServerInfo(a.servers, a.choice).Some? ==>
          var (hostname, ip) := FetchServerInfo(a.servers, a.choice).value;
          && d.pid == Some(a.pid)
          && d.configFile == Some(a.configPath) && d.authFile == Some(a.authPath)
          && a.configPath in d.files && a.authPath in d.files
          && d.files[a.configPath] == Format(template, [ip, hostname])
          && d.files[a.authPath] == CredentialsText(user, password))
  }

  /**
   * An attempt keeps the session invariant and the credentials, issues only
   * its disconnect's kills, leaves exactly the disconnected session when it
   * finds no server, and otherwise adds its two files to what the disconnect
   * left, as `LeftBy` describes.
   */
  lemma AttemptedEffect(s: Session, template: Template, a: Attempt)
    requires FieldsBelow(template, 2) && WellFormed(a)
    requires Consistent(s)
    ensures var r := Attempted(s, template, a);
      && Consistent(r)
      && r.authUser == s.authUser && r.authPassword == s.authPassword
      && r.kills == AfterDisconnect(s, a.procs).kills
      && (FetchServerInfo(a.servers, a.choice).None? ==> r == AfterDisconnect(s, a.procs))
      && (FetchServerInfo(a.servers, a.choice).Some? ==>
            var (hostname, ip) := FetchServerInfo(a.servers, a.choice).value;
            r.files == AfterDisconnect(s, a.procs).files[a.configPath := Format(template, [ip, hostname])]
                                                         [a.authPath := CredentialsText(s.authUser, s.authPassword)])
      && LeftBy(r, template, a, s.authUser, s.authPassword)
  {
    DisconnectClears(s, a.procs);
  }

  /** The session records path `p` as its profile or its credentials file. */
  predicate Recorded(s: Session, p: string) {
    s.configFile == Some(p) || s.authFile == Some(p)
  }

  /** Path `p` is one of the two fresh paths of attempt `a`. */
  predicate Writes(a: Attempt, p: string) {
    p == a.configPath || p == a.authPath
  }

  /**
   * How one attempt changes the presence of a path: a file present afterwards
   * was there before unrecorded or is one the attempt wrote; an unrecorded
   * file afterwards was unrecorded before; an unrecorded file the attempt
   * does not write keeps its content.
   */
  lemma AttemptFiles(s: Session, template: Template, a: Attempt, p: string)
    requires FieldsBelow(template, 2) && WellFormed(a)
    requires Consistent(s)
    ensures var r := Attempted(s, template, a);
      && (p in r.files ==> (p in s.files && !Recorded(s, p)) || (FetchServerInfo(a.servers, a.choice).Some? && Writes(a, p)))
      && (p in r.files && !Recorded(r, p) ==> p in s.files && !Recorded(s, p))
      && (p in s.files && !Recorded(s, p) && !Writes(a, p) ==> p in r.files && r.files[p] == s.files[p] && !Recorded(r, p))
  {
    DisconnectClears(s, a.procs);
  }

  /** With a single qualifying server and the line `remote {0} {1}`, the profile an attempt writes names the station, then the hostname. */
  lemma ProfileScenario(s: Session, a: Attempt)
    requires WellFormed(a)
    requires a.servers == [Server("us1.example.com", "1.2.3.4", [OPENVPN_TCP])]
    ensures var d := Attempted(s, RemoteLine(), a);
      a.configPath in d.files && d.files[a.configPath] == "remote 1.2.3.4 us1.example.com\n"
  {
    assert a.servers[1..] == [];
    assert Qualifying(a.servers) == a.servers;
    assert FetchServerInfo(a.servers, a.choice) == Some(("us1.example.com", "1.2.3.4"));
    RemoteLineExample();
  }

  /** An attempt issues the kills of its disconnect and no others, after those issued before. */
  lemma AttemptedKills(s: Session, template: Template, a: Attempt)
    requires FieldsBelow(template, 2)
    ensures s.kills <= AfterDisconnect(s, a.procs).kills == Attempted(s, template, a).kills
  {
  }

  /** What `connect(max_retries)` returns: True, False, None (after a retry), or the exception. */
  datatype Outcome = ReturnedTrue | ReturnedFalse | ReturnedNone | RaisedCheckCredentials

  /** The outcome, the final retry counter, and how many attempts were made. */
  datatype Run = Run(outcome: Outcome, retries: nat, used: nat)

  /** How many attempts `connect(maxRetries)` can make at most, starting from counter `retries`. */
  function AttemptBound(maxRetries: int, retries: nat): (n: nat)
    ensures n >= 1
  {
    if retries < maxRetries then 2 + (if retries + 1 < DEFAULT_MAX_RETRIES then DEFAULT_MAX_RETRIES - 1 - retries else 0)
    else 1
  }

  function Max(a: int, b: int): int { if a < b then b else a }

  /** The outcome seen by the caller of a call whose nested `self.connect()` produced `inner`: the return value is dropped. */
  function Dropped(inner: Outcome): Outcome {
    if inner == RaisedCheckCredentials then inner else ReturnedNone
  }

  /**
   * The decisions of `connect(max_retries)` as written, on the attempts
   * numbered `from` on, starting with counter `retries`: no server: return
   * False; protected: reset the counter and return True; otherwise, below
   * the bound, count and call `self.connect()` (default bound, result
   * dropped); at the bound, raise.  The decisions depend on nothing but the
   * attempts' answers and the counter; the session the attempts leave is
   * `SessionAfterConnect`.
   */
  function AfterConnect(retries: nat, maxRetries: int, world: nat -> Attempt, from: nat): (r: Run)
    ensures r.used >= 1
    decreases AttemptBound(maxRetries, retries)
  {
    var a := world(from);
    if FetchServerInfo(a.servers, a.choice).None? then Run(ReturnedFalse, retries, 1)
    else if IsProtected(a.status) then Run(ReturnedTrue, 0, 1)
    else if retries < maxRetries then
      var inner := AfterConnect(retries + 1, DEFAULT_MAX_RETRIES, world, from + 1);
      Run(Dropped(inner.outcome), inner.retries, inner.used + 1)
    else Run(RaisedCheckCredentials, retries, 1)
  }

  /** The session `connect(max_retries)` leaves: each attempt's, until one does not retry. */
  function SessionAfterConnect(s: Session, retries: nat, maxRetries: int, template: Template, world: nat -> Attempt, from: nat): Session
    requires FieldsBelow(template, 2)
    decreases AttemptBound(maxRetries, retries)
  {
    var a := world(from);
    var s1 := Attempted(s, template, a);
    if FetchServerInfo(a.servers, a.choice).Some? && !IsProtected(a.status) && retries < maxRetries
    then SessionAfterConnect(s1, retries + 1, DEFAULT_MAX_RETRIES, template, world, from + 1)
    else s1
  }

  /** However many attempts connect makes, the session invariant holds and the credentials are the client's. */
  lemma {:induction false} ConnectKeepsConsistent(s: Session, retries: nat, maxRetries: int, template: Template, world: nat -> Attempt, from: nat)
    requires FieldsBelow(template, 2) && AllWellFormed(world)
    requires Consistent(s)
    ensures var d := SessionAfterConnect(s, retries, maxRetries, template, world, from);
      Consistent(d) && d.authUser == s.authUser && d.authPassword == s.authPassword
    decreases AttemptBound(maxRetries, retries)
  {
    var a := world(from);
    assert WellFormed(a);
    AttemptedEffect(s, template, a);
    if FetchServerInfo(a.servers, a.choice).Some? && !IsProtected(a.status) && retries < maxRetries {
      ConnectKeepsConsistent(Attempted(s, template, a), retries + 1, DEFAULT_MAX_RETRIES, template, world, from + 1);
    }
  }

  lemma PrefixTransitive(a: seq<Kill>, b: seq<Kill>, c: seq<Kill>)
    requires a <= b && b <= c
    ensures a <= c
  {
    assert a == b[..|a|] && b == c[..|b|];
    assert a == c[..|a|];
  }

  /**
   * Kill commands are only ever appended, and the first ones connect issues
   * are those of its opening disconnect.
   */
  lemma {:induction false} ConnectDisconnectsFirst(s: Session, retries: nat, maxRetries: int, template: Template, world: nat -> Attempt, from: nat)
    requires FieldsBelow(template, 2)
    ensures s.kills <= AfterDisconnect(s, world(from).procs).kills
                    <= SessionAfterConnect(s, retries, maxRetries, template, world, from).kills
    decreases AttemptBound(maxRetries, retries)
  {
    var a := world(from);
    AttemptedKills(s, template, a);
    if FetchServerInfo(a.servers, a.choice).Some? && !IsProtected(a.status) && retries < maxRetries {
      var next := Attempted(s, template, a);
      ConnectDisconnectsFirst(next, retries + 1, DEFAULT_MAX_RETRIES, template, world, from + 1);
      PrefixTransitive(next.kills, AfterDisconnect(next, world(from + 1).procs).kills,
                       SessionAfterConnect(next, retries + 1, DEFAULT_MAX_RETRIES, template, world, from + 1).kills);
    }
  }

  /** The number of the last attempt connect makes. */
  function LastAttempt(retries: nat, maxRetries: int, world: nat -> Attempt, from: nat): nat
    decreases AttemptBound(maxRetries, retries)
  {
    var a := world(from);
    if FetchServerInfo(a.servers, a.choice).Some? && !IsProtected(a.status) && retries < maxRetries
    then LastAttempt(retries + 1, DEFAULT_MAX_RETRIES, world, from + 1)
    else from
  }

  /** The last attempt is the one after the first `used - 1`. */
  lemma {:induction false} LastAttemptCounts(retries: nat, maxRetries: int, world: nat -> Attempt, from: nat)
    ensures LastAttempt(retries, maxRetries, world, from) == from + AfterConnect(retries, maxRetries, world, from).used - 1
    decreases AttemptBound(maxRetries, retries)
  {
    var a := world(from);
    if FetchServerInfo(a.servers, a.choice).Some? && !IsProtected(a.status) && retries < maxRetries {
      LastAttemptCounts(retries + 1, DEFAULT_MAX_RETRIES, world, from + 1);
    }
  }

  /** The session connect leaves is what its last attempt left: that attempt's daemon and files if it found a server, nothing recorded otherwise. */
  lemma {:induction false} ConnectEndsWithLast(s: Session, retries: nat, maxRetries: int, template: Template, world: nat -> Attempt, from: nat)
    requires FieldsBelow(template, 2) && AllWellFormed(world)
    requires Consistent(s)
    ensures LeftBy(SessionAfterConnect(s, retries, maxRetries, template, world, from), template,
                   world(LastAttempt(retries, maxRetries, world, from)), s.authUser, s.authPassword)
    decreases AttemptBound(maxRetries, retries)
  {
    var a := world(from);
    assert WellFormed(a);
    AttemptedEffect(s, template, a);
    if FetchServerInfo(a.servers, a.choice).Some? && !IsProtected(a.status) && retries < maxRetries {
      ConnectEndsWithLast(Attempted(s, template, a), retries + 1, DEFAULT_MAX_RETRIES, template, world, from + 1);
    }
  }

  /**
   * Connect leaves no temp file of an earlier attempt behind: every file
   * present afterwards was present and unrecorded before, or is one the last
   * attempt wrote.
   */
  lemma {:induction false} ConnectLeavesOnlyLastFiles(s: Session, retries: nat, maxRetries: int, template: Template, world: nat -> Attempt, from: nat, p: string)
    requires FieldsBelow(template, 2) && AllWellFormed(world)
    requires Consistent(s)
    ensures var last := world(LastAttempt(retries, maxRetries, world, from));
      p in SessionAfterConnect(s, retries, maxRetries, template, world, from).files ==>
        (p in s.files && !Recorded(s, p)) || (FetchServerInfo(last.servers, last.choice).Some? && Writes(last, p))
    decreases AttemptBound(maxRetries, retries)
  {
    var a := world(from);
    assert WellFormed(a);
    AttemptedEffect(s, template, a);
    AttemptFiles(s, template, a, p);
    if FetchServerInfo(a.servers, a.choice).Some? && !IsProtected(a.status) && retries < maxRetries {
      ConnectLeavesOnlyLastFiles(Attempted(s, template, a), retries + 1, DEFAULT_MAX_RETRIES, template, world, from + 1, p);
    }
  }

  /** Connect leaves an unrecorded file that none of its attempts writes exactly as it was. */
  lemma {:induction false} ConnectKeepsOtherFiles(s: Session, retries: nat, maxRetries: int, template: Template, world: nat -> Attempt, from: nat, p: string)
    requires FieldsBelow(template, 2) && AllWellFormed(world)
    requires Consistent(s) && p in s.files && !Recorded(s, p)
    requires forall k: nat :: from <= k < from + AfterConnect(retries, maxRetries, world, from).used ==> !Writes(world(k), p)
    ensures var d := SessionAfterConnect(s, retries, maxRetries, template, world, from);
      p in d.files && d.files[p] == s.files[p]
    decreases AttemptBound(maxRetries, retries)
  {
    var a := world(from);
    assert WellFormed(a) && !Writes(a, p);
    AttemptedEffect(s, template, a);
    AttemptFiles(s, template, a, p);
    if FetchServerInfo(a.servers, a.choice).Some? && !IsProtected(a.status) && retries < maxRetries {
      ConnectKeepsOtherFiles(Attempted(s, template, a), retries + 1, DEFAULT_MAX_RETRIES, template, world, from + 1, p);
    }
  }

  /** Connect makes at most AttemptBound attempts: six from a fresh counter with the default bound. */
  lemma {:induction false} AttemptsBounded(retries: nat, maxRetries: int, world: nat -> Attempt, from: nat)
    ensures AfterConnect(retries, maxRetries, world, from).used <= AttemptBound(maxRetries, retries)
    decreases AttemptBound(maxRetries, retries)
  {
    var a := world(from);
    if FetchServerInfo(a.servers, a.choice).Some? && !IsProtected(a.status) && retries < maxRetries {
      AttemptsBounded(retries + 1, DEFAULT_MAX_RETRIES, world, from + 1);
    }
  }

  /** With no qualifying server, connect returns False after its disconnect alone: no file created, no daemon, counter untouched. */
  lemma NoServerReturnsFalse(s: Session, retries: nat, maxRetries: int, template: Template, world: nat -> Attempt, from: nat)
    requires FieldsBelow(template, 2)
    requires forall srv :: srv in world(from).servers ==> !SupportsOpenVpnTcp(srv)
    ensures var r := AfterConnect(retries, maxRetries, world, from);
      && r.outcome == ReturnedFalse && r.used == 1 && r.retries == retries
      && SessionAfterConnect(s, retries, maxRetries, template, world, from) == AfterDisconnect(s, world(from).procs)
  {
    FetchServerInfoSound(world(from).servers, world(from).choice);
  }

  /** A protected first probe returns True with the counter reset, and leaves the profile of the chosen server and the credentials on disk. */
  lemma ProtectedReturnsTrue(s: Session, retries: nat, maxRetries: int, template: Template, world: nat -> Attempt, from: nat)
    requires FieldsBelow(template, 2) && AllWellFormed(world)
    requires Consistent(s) && Succeeds(world(from))
    ensures var r := AfterConnect(retries, maxRetries, world, from);
      var a := world(from);
      var (hostname, ip) := FetchServerInfo(a.servers, a.choice).value;
      var d := SessionAfterConnect(s, retries, maxRetries, template, world, from);
      && r.outcome == ReturnedTrue && r.retries == 0 && r.used == 1
      && d.pid == Some(a.pid)
      && d.configFile == Some(a.configPath) && d.authFile == Some(a.authPath)
      && a.configPath in d.files && a.authPath in d.files
      && d.files[a.configPath] == Format(template, [ip, hostname])
      && d.files[a.authPath] == CredentialsText(s.authUser, s.authPassword)
  {
    assert WellFormed(world(from));
    AttemptedEffect(s, template, world(from));
  }

  /**
   * The counter is only incremented while below the bound in force (the
   * caller's, then the default), so it never passes the larger of its start
   * value and those bounds.
   */
  lemma {:induction false} RetriesBounded(retries: nat, maxRetries: int, world: nat -> Attempt, from: nat)
    ensures AfterConnect(retries, maxRetries, world, from).retries <= Max(retries, Max(maxRetries, DEFAULT_MAX_RETRIES))
    decreases AttemptBound(maxRetries, retries)
  {
    var a := world(from);
    if FetchServerInfo(a.servers, a.choice).Some? && !IsProtected(a.status) && retries < maxRetries {
      RetriesBounded(retries + 1, DEFAULT_MAX_RETRIES, world, from + 1);
    }
  }

  /** Starting within the default bound, the counter never exceeds it. */
  lemma RetriesStayBounded(retries: nat, maxRetries: int, world: nat -> Attempt, from: nat)
    requires retries <= DEFAULT_MAX_RETRIES && maxRetries <= DEFAULT_MAX_RETRIES
    ensures AfterConnect(retries, maxRetries, world, from).retries <= DEFAULT_MAX_RETRIES
  {
    RetriesBounded(retries, maxRetries, world, from);
  }

  /**
   * With the default bound and a counter at most 5, attempts that all fail
   * make connect raise after exactly 6 - retries of them, with the counter at 5.
   */
  lemma {:induction false} AllFailingRaises(retries: nat, world: nat -> Attempt, from: nat)
    requires retries <= DEFAULT_MAX_RETRIES
    requires forall k: nat :: from <= k < from + 6 - retries ==> Fails(world(k))
    ensures var r := AfterConnect(retries, DEFAULT_MAX_RETRIES, world, from);
      r.outcome == RaisedCheckCredentials && r.used == 6 - retries && r.retries == DEFAULT_MAX_RETRIES
    decreases DEFAULT_MAX_RETRIES - retries
  {
    assert Fails(world(from));
    if retries < DEFAULT_MAX_RETRIES {
      AllFailingRaises(retries + 1, world, from + 1);
    }
  }

  /** From a fresh counter with the default bound, five failed retries and the sixth attempt raises. */
  lemma SixthAttemptRaises(world: nat -> Attempt)
    requires forall k: nat :: k < 6 ==> Fails(world(k))
    ensures var r := AfterConnect(0, DEFAULT_MAX_RETRIES, world, 0);
      r.outcome == RaisedCheckCredentials && r.used == 6
  {
    AllFailingRaises(0, world, 0);
  }

  // ---------------------------------------------------------------------------
  // The retry as written against the retry as evidently intended
  // ---------------------------------------------------------------------------

  /** A failed first probe followed by a successful retry: the caller gets None, not True. */
  lemma RetriedSuccessReturnsNone(retries: nat, maxRetries: int, world: nat -> Attempt)
    requires retries < maxRetries
    requires Fails(world(0)) && Succeeds(world(1))
    ensures AfterConnect(retries, maxRetries, world, 0).outcome == ReturnedNone
  {
    assert AfterConnect(retries + 1, DEFAULT_MAX_RETRIES, world, 1).outcome == ReturnedTrue;
  }

  /** `connect(max_retries=7)` from a fresh counter gives up after 6 attempts, not 8: the nested call falls back to 5. */
  lemma RetryIgnoresMaxRetries(world: nat -> Attempt)
    requires forall k: nat :: k < 8 ==> Fails(world(k))
    ensures var r := AfterConnect(0, 7, world, 0);
      r.outcome == RaisedCheckCredentials && r.used == 6
  {
    assert Fails(world(0));
    AllFailingRaises(1, world, 1);
  }

  /** How many attempts the intended retry can make: one plus one per retry left. */
  function IntendedBound(maxRetries: int, retries: nat): (n: nat)
    ensures n >= 1
  {
    if retries < maxRetries then maxRetries - retries + 1 else 1
  }

  /** `connect` as evidently intended: `return self.connect(max_retries)`, so the bound is kept and the result passed up. */
  function IntendedConnect(retries: nat, maxRetries: int, world: nat -> Attempt, from: nat): (r: Run)
    ensures r.used >= 1
    decreases IntendedBound(maxRetries, retries)
  {
    var a := world(from);
    if FetchServerInfo(a.servers, a.choice).None? then Run(ReturnedFalse, retries, 1)
    else if IsProtected(a.status) then Run(ReturnedTrue, 0, 1)
    else if retries < maxRetries then
      var inner := IntendedConnect(retries + 1, maxRetries, world, from + 1);
      Run(inner.outcome, inner.retries, inner.used + 1)
    else Run(RaisedCheckCredentials, retries, 1)
  }

  /**
   * The intended retry reports what happened: never None; True exactly when
   * the last attempt made was protected, False exactly when it found no
   * server; the counter never passes the caller's bound; at most
   * IntendedBound attempts are made.
   */
  lemma {:induction false} IntendedConnectReports(retries: nat, maxRetries: int, world: nat -> Attempt, from: nat)
    ensures var r := IntendedConnect(retries, maxRetries, world, from);
      var last := world(from + r.used - 1);
      && r.outcome != ReturnedNone
      && (r.outcome == ReturnedTrue <==> Succeeds(last))
      && (r.outcome == ReturnedFalse <==> FetchServerInfo(last.servers, last.choice).None?)
      && r.retries <= Max(retries, maxRetries)
      && r.used <= IntendedBound(maxRetries, retries)
    decreases IntendedBound(maxRetries, retries)
  {
    var a := world(from);
    if FetchServerInfo(a.servers, a.choice).Some? && !IsProtected(a.status) && retries < maxRetries {
      IntendedConnectReports(retries + 1, maxRetries, world, from + 1);
    }
  }

  /** The intended retry, with every attempt failing, makes exactly max_retries - retries + 1 attempts before raising. */
  lemma {:induction false} IntendedExhaustsMaxRetries(retries: nat, maxRetries: int, world: nat -> Attempt, from: nat)
    requires retries <= maxRetries
    requires forall k: nat :: from <= k <= from + maxRetries - retries ==> Fails(world(k))
    ensures var r := IntendedConnect(retries, maxRetries, world, from);
      r.outcome == RaisedCheckCredentials && r.used == maxRetries - retries + 1 && r.retries == maxRetries
    decreases maxRetries - retries
  {
    assert Fails(world(from));
    if retries < maxRetries {
      IntendedExhaustsMaxRetries(retries + 1, maxRetries, world, from + 1);
    }
  }

  // ---------------------------------------------------------------------------
  // The controller object
  // ---------------------------------------------------------------------------

  class Client {
    const authUser: string
    const authPassword: string
    var openvpnPid: Option<int>
    var configFile: Option<string>
    var authFile: Option<string>
    var connectionRetries: nat
    /** The temp files on the host: path to content. */
    var files: map<string, string>
    /** The kill commands this object has issued, oldest first. */
    var kills: seq<Kill>

    function State(): Session
      reads this`openvpnPid, this`configFile, this`authFile, this`files, this`kills
    {
      Session(authUser, authPassword, openvpnPid, configFile, authFile, files, kills)
    }

    ghost predicate Valid()
      reads this`openvpnPid, this`configFile, this`authFile, this`files, this`kills
    {
      Consistent(State())
    }

    /** `Client(user, password)` given the environment's NORD_USER and NORD_PASSWORD and the existing temp files. */
    constructor (user: string, password: string, envUser: Option<string>, envPassword: Option<string>, tempFiles: map<string, string>)
      ensures Valid()
      ensures State() == Session(ResolveCredential(user, envUser), ResolveCredential(password, envPassword),
                                 None, None, None, tempFiles, [])
      ensures connectionRetries == 0
    {
      authUser := ResolveCredential(user, envUser);
      authPassword := ResolveCredential(password, envPassword);
      openvpnPid := None;
      configFile := None;
      authFile := None;
      connectionRetries := 0;
      files := tempFiles;
      kills := [];
    }

    /** `flush`: SIGKILL every process of the table named "openvpn". */
    method Flush(procs: seq<Process>)
      modifies this`kills
      ensures State() == old(State()).(kills := old(kills) + SweepKills(procs))
    {
      var i := 0;
      while i < |procs|
        invariant 0 <= i <= |procs|
        invariant State() == old(State()).(kills := old(kills) + SweepKills(procs[..i]))
      {
        assert procs[..i + 1][..i] == procs[..i];
        if procs[i].name == OPENVPN {
          kills := kills + [Kill(procs[i].pid, SIGKILL)];
        }
        i := i + 1;
      }
      assert procs[..i] == procs;
    }

    /** `disconnect`: kill the recorded daemon, remove the recorded files, clear the fields, then flush. */
    method Disconnect(procs: seq<Process>)
      requires Valid()
      modifies this`openvpnPid, this`configFile, this`authFile, this`files, this`kills
      ensures Valid()
      ensures State() == AfterDisconnect(old(State()), procs)
    {
      if TruthyPid(openvpnPid) {
        kills := kills + [Kill(openvpnPid.value, SIGKILL)];
        openvpnPid := None;
      }
      if TruthyPath(configFile) {
        files := files - {configFile.value};
        configFile := None;
      }
      if TruthyPath(authFile) {
        files := files - {authFile.value};
        authFile := None;
      }
      Flush(procs);
      DisconnectClears(old(State()), procs);
    }

    /**
     * The part of `connect` before the probe: disconnect, fetch a server and,
     * if there is one, write the profile and the credentials and record the
     * spawned daemon.  Reports whether a server was found.
     */
    method StartAttempt(template: Template, a: Attempt) returns (found: bool)
      requires Valid()
      requires FieldsBelow(template, 2) && WellFormed(a)
      modifies this`openvpnPid, this`configFile, this`authFile, this`files, this`kills
      ensures Valid()
      ensures found == FetchServerInfo(a.servers, a.choice).Some?
      ensures State() == Attempted(old(State()), template, a)
    {
      Disconnect(a.procs);
      var info := FetchServerInfo(a.servers, a.choice);
      if info.None? {
        return false;
      }
      var (hostname, ip) := info.value;
      var content := Format(template, [ip, hostname]);
      configFile := Some(a.configPath);
      authFile := Some(a.authPath);
      files := files[a.configPath := content];
      files := files[a.authPath := CredentialsText(authUser, authPassword)];
      openvpnPid := Some(a.pid);
      AttemptedEffect(old(State()), template, a);
      found := true;
    }

    /**
     * `connect(max_retries)`, on the attempts numbered `from` on: attempt;
     * no server: False; protected: reset the counter, True; otherwise, the
     * failed-probe branch.
     */
    method Connect(maxRetries: int, template: Template, world: nat -> Attempt, from: nat) returns (outcome: Outcome)
      requires Valid()
      requires FieldsBelow(template, 2) && AllWellFormed(world)
      modifies this
      ensures Valid()
      ensures var r := AfterConnect(old(connectionRetries), maxRetries, world, from);
        && outcome == r.outcome && connectionRetries == r.retries
        && State() == SessionAfterConnect(old(State()), old(connectionRetries), maxRetries, template, world, from)
      decreases AttemptBound(maxRetries, connectionRetries), 1
    {
      assert WellFormed(world(from));
      var found := StartAttempt(template, world(from));
      if !found {
        outcome := ReturnedFalse;
      } else if IsProtected(world(from).status) {
        connectionRetries := 0;
        outcome := ReturnedTrue;
      } else {
        outcome := Retry(maxRetries, template, world, from + 1);
      }
    }

    /**
     * The failed-probe branch of `connect`: below the bound, count the retry
     * and call `self.connect()` with the default bound, discarding its result
     * but not its exception; at the bound, raise.
     */
    method Retry(maxRetries: int, template: Template, world: nat -> Attempt, next: nat) returns (outcome: Outcome)
      requires Valid()
      requires FieldsBelow(template, 2) && AllWellFormed(world)
      modifies this
      ensures Valid()
      ensures old(connectionRetries) < maxRetries ==>
        var r := AfterConnect(old(connectionRetries) + 1, DEFAULT_MAX_RETRIES, world, next);
        && outcome == Dropped(r.outcome) && connectionRetries == r.retries
        && State() == SessionAfterConnect(old(State()), old(connectionRetries) + 1, DEFAULT_MAX_RETRIES, template, world, next)
      ensures old(connectionRetries) >= maxRetries ==>
        outcome == RaisedCheckCredentials && connectionRetries == old(connectionRetries) && State() == old(State())
      decreases AttemptBound(maxRetries, connectionRetries), 0
    {
      if connectionRetries < maxRetries {
        connectionRetries := connectionRetries + 1;
        var inner := Connect(DEFAULT_MAX_RETRIES, template, world, next);
        outcome := Dropped(inner);
      } else {
        outcome := RaisedCheckCredentials;
      }
    }
  }
}
