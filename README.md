# njord, modelled in Dafny

njord drives NordVPN from Python. It ships two near-duplicate controllers: `Client` in njord/client.py and `VPN` in njord/vpn.py. Each controller does the same things:

- it asks the provider for recommended servers and keeps those advertising "OpenVPN TCP";
- it picks one of them at random;
- it writes an OpenVPN profile and a credentials file to the temp directory;
- it spawns `openvpn`, asks the provider's status endpoint whether the connection is protected, and tears everything down on `disconnect`.

The two controllers differ in these ways:

- **How they retry.** `Client.connect` retries by calling itself and counting in `connection_retries`. Only the outermost call compares the counter with the caller's `max_retries`; the nested calls use the default 5, so the counter reaches 5 even when `max_retries` is smaller. `VPN.connect` probes up to five times, then restarts itself without any bound.
- **How they handle no server.** `Client.connect` returns False (njord/client.py:83-84). `VPN.connect` unpacks `None` and raises TypeError (njord/vpn.py:73).
- **When they disconnect first.** `Client.connect` always disconnects (njord/client.py:80). `VPN.connect` disconnects only when a pid is recorded (njord/vpn.py:70-71).
- **Credentials with no value.** `Client` falls back to "" (njord/client.py:32-33). `VPN` falls back to `None`, because `os.getenv` has no default there (njord/vpn.py:27-28).
- **sudo.** `Client` refreshes sudo and runs `openvpn` and `kill` under it (njord/client.py:79, 99). `VPN` uses no sudo.
- **How they test protection.** `Client` uses `is True`. `VPN` uses `== True`, which also accepts `1`.
- **How they stop the daemon.** `Client` runs `kill -9` through `os.system`, which does not raise. `VPN` uses `os.kill` with SIGTERM, which raises ProcessLookupError for a pid that names no process.

The project has three modules:

- `NordApi` (NordApi.dfy) holds the values both controllers share:
  - server records and the "OpenVPN TCP" filter;
  - the random pick;
  - the profile template as literal text and numbered fields `{0}`, `{1}`, each field replaced by the positional argument of that number;
  - the credentials text `user + "\n" + password`, and how a reader splits it back into a pair;
  - the process table and the kill commands that `flush` issues.
- `ClientModel` (Client.dfy) models njord/client.py. It has:
  - a `Session` value for the object's fields, plus the temp files (a map from path to content) and the kill commands issued so far, oldest first;
  - the invariant `Consistent`: pid, profile and credentials file are recorded together, with distinct existing paths and the right credentials text;
  - `AfterDisconnect`, and `Attempted` for one attempt up to the probe;
  - `AfterConnect`, the control decisions of `connect` as written, and `SessionAfterConnect`, the session those attempts leave;
  - `IntendedConnect`, the evidently intended retry, for the findings below;
  - the class `Client`, whose methods update the fields in place and are proved against those functions.
- `VpnModel` (Vpn.dfy) models njord/vpn.py in the same shape. It adds:
  - the probe loop, as the function `ProbeRun` and the loop method `ProbeLoop`;
  - the connect that disconnects only when a pid is recorded;
  - whether `poll()` has reaped the recorded daemon, which makes the next SIGTERM raise;
  - the unbounded restart.

The outside world is passed in as parameters, and the world answers attempt number k with `world(k)`. One `Attempt` bundles everything a single attempt sees:

- the process table the disconnect sweeps;
- the server list and the index `random.choice` picks;
- the two fresh temp paths and the spawned pid;
- the status answers, and for `VPN` also the `poll()` answers.

The model assumes the two paths are distinct and non-empty and the pid is positive (`WellFormed`).

A few consequences of the code that the model keeps:

- the credentials file has no trailing newline;
- `VPN` accepts `1` as protected;
- `VPN` restarts without bound;
- with no server, `VPN` raises the `TypeError` of unpacking `None`;
- with no explicit user and no `NORD_USER`, `VPN` writes the text `None` as the user name (`VpnModel.MissingUserWritesNone`);
- after the probe loop sees the daemon exit, `VPN`'s restart raises ProcessLookupError (see Findings).

## Model

| member | source | states |
|---|---|---|
| NordApi.Qualifying | njord/client.py:45-49 | the filtered list is no longer than the response |
| NordApi.QualifyingExact | njord/client.py:45-49 | a server is in the filtered list iff it is in the response and some technology is named exactly "OpenVPN TCP" |
| NordApi.FetchServerInfoSound | njord/client.py:45-55 | the pick is None iff no server qualifies; otherwise it is the (hostname, station) of a qualifying server |
| NordApi.EveryQualifyingServerCanBeChosen | njord/client.py:50 | every qualifying server is a possible outcome of the random choice |
| NordApi.FormatConcat | njord/client.py:87 | filling a template works piece by piece: a joined template renders as the joined texts |
| NordApi.FormatSingleField | njord/client.py:87 | a field `{k}` renders as the k-th argument |
| NordApi.RemoteLineFilled | njord/client.py:87 | `remote {0} {1}` filled with (station, hostname) puts the station first and the hostname second |
| NordApi.CredentialsTextLayout | njord/client.py:95 | the credentials text is the user, one newline, the password, with nothing after it |
| NordApi.CredentialsRoundTrip | njord/client.py:95 | for a user name without a newline, the first line of the text is the user and the rest is the password |
| NordApi.SweepKillsExact | njord/client.py:128-130 | `flush` kills exactly the processes named "openvpn", with signal 9, and no others |
| ClientModel.ResolveCredential | njord/client.py:32-33 | a non-empty explicit value wins, else the environment's, else ""; the result is empty only when both are |
| ClientModel.IsProtectedExactly | njord/client.py:69-71 | protected iff the `status` key holds the boolean true; a missing key, `1` or `"true"` give false |
| ClientModel.DisconnectClears | njord/client.py:132-148 | on a consistent session: pid, profile and credentials fields all None; exactly the recorded files removed; the recorded pid killed with -9 before the sweep; invariant kept |
| ClientModel.DisconnectIdempotent | njord/client.py:132-148 | a second disconnect changes no field and removes no file; only the sweep repeats |
| ClientModel.AttemptedEffect | njord/client.py:80-110 | one attempt keeps the invariant and credentials and issues only its disconnect's kills. With no server it leaves exactly the disconnected session. With a server the files are the disconnected session's plus exactly the filled profile at the fresh profile path and the credentials text at the fresh credentials path, and the pid and paths are recorded |
| ClientModel.AttemptFiles | njord/client.py:80-95 | a file present after an attempt was present and unrecorded before, or is one of the attempt's two paths; an unrecorded file the attempt does not write keeps its content |
| ClientModel.ProfileScenario | njord/client.py:85-92 | an attempt whose only server is us1.example.com at 1.2.3.4, with the line `remote {0} {1}`, writes `remote 1.2.3.4 us1.example.com` to its profile |
| ClientModel.AttemptedKills | njord/client.py:80 | an attempt appends the kills of its disconnect and no others |
| ClientModel.AfterConnect | njord/client.py:73-122 | every connect makes at least one attempt |
| ClientModel.AttemptsBounded | njord/client.py:117-122 | connect makes at most `AttemptBound` attempts: 6 from a fresh counter with the default bound |
| ClientModel.ConnectKeepsConsistent | njord/client.py:73-122 | after any number of retries, the session invariant holds and the credentials are unchanged |
| ClientModel.ConnectDisconnectsFirst | njord/client.py:80 | kill commands are only appended, and the first ones connect issues are its opening disconnect's |
| ClientModel.LastAttemptCounts | njord/client.py:117-120 | the last attempt made is number `from + used - 1` |
| ClientModel.ConnectEndsWithLast | njord/client.py:85-110 | the session connect leaves records the pid, files and contents of its last attempt, or nothing when that attempt found no server |
| ClientModel.ConnectLeavesOnlyLastFiles | njord/client.py:80-120 | every file present after connect was present and unrecorded before, or is one of the last attempt's two paths: no earlier attempt's file is left behind |
| ClientModel.ConnectKeepsOtherFiles | njord/client.py:80-120 | an unrecorded file that no attempt writes is still present with the same content after connect |
| ClientModel.NoServerReturnsFalse | njord/client.py:80-84 | no qualifying server: False after one attempt, counter unchanged, session exactly the disconnected one, so no files and no pid |
| ClientModel.ProtectedReturnsTrue | njord/client.py:113-116 | a protected probe: True, counter reset to 0, one attempt, the chosen server's profile and the credentials on disk |
| ClientModel.RetriesBounded | njord/client.py:117-120 | the counter never passes the larger of its start value, the caller's bound and the default bound |
| ClientModel.RetriesStayBounded | njord/client.py:117-122 | when both the starting counter and `max_retries` are at most 5, the counter never exceeds 5 |
| ClientModel.AllFailingRaises | njord/client.py:117-122 | all attempts failing raises after exactly 6 - retries attempts, counter at 5 |
| ClientModel.SixthAttemptRaises | njord/client.py:117-122 | from a fresh counter with the default bound, five failed retries and the sixth attempt raises |
| ClientModel.RetriedSuccessReturnsNone | njord/client.py:117-120 | a failed probe followed by a protected one returns None, not True |
| ClientModel.RetryIgnoresMaxRetries | njord/client.py:117-120 | `connect(max_retries=7)` with every attempt failing raises after 6 attempts, not 8 |
| ClientModel.IntendedConnect | njord/client.py:73-122 | the intended retry makes at least one attempt |
| ClientModel.IntendedConnectReports | njord/client.py:73-122 | the intended retry never returns None. It returns True iff the last attempt was protected, and False iff that attempt found no server. The counter stays within the caller's bound, and there are at most max_retries - retries + 1 attempts |
| ClientModel.IntendedExhaustsMaxRetries | njord/client.py:117-122 | the intended retry with every attempt failing raises after exactly max_retries - retries + 1 attempts |
| ClientModel.Client.constructor | njord/client.py:23-36 | resolved credentials, no pid, no files recorded, counter 0, invariant holds |
| ClientModel.Client.Flush | njord/client.py:124-130 | appends exactly the sweep's kill commands and changes nothing else |
| ClientModel.Client.Disconnect | njord/client.py:132-148 | the new state is `AfterDisconnect` of the old one, and the invariant is kept |
| ClientModel.Client.StartAttempt | njord/client.py:79-110 | the new state is `Attempted` of the old one; reports whether a server was found; invariant kept |
| ClientModel.Client.Connect | njord/client.py:73-122 | outcome and counter as `AfterConnect` decides, session as `SessionAfterConnect`, invariant kept |
| ClientModel.Client.Retry | njord/client.py:117-122 | below the bound: counter incremented, then the nested connect's effect, with its result dropped; at the bound: raises, nothing changed |
| VpnModel.ResolveCredentialAgreesWithClient | njord/vpn.py:27-28 | the credential is missing iff there is neither an explicit value nor an environment value; when present it equals the `Client`'s, and when missing the `Client` has "" |
| VpnModel.MissingUserWritesNone | njord/vpn.py:27-28 | with no explicit user and no NORD_USER, the credentials text starts with `None\n` |
| VpnModel.ProtectedExactly | njord/vpn.py:59-64 | protected iff the `status` key holds the boolean true or the integer 1 |
| VpnModel.ProtectedWeakerThanClient | njord/vpn.py:61 | every status `Client` accepts is accepted here; `{"status": 1}` only here; `"true"` nowhere |
| VpnModel.ProbeRunFacts | njord/vpn.py:94-106 | the loop ends protected at probe k only after k unprotected probes of a running daemon. An exited daemon ends it at k without counting. It gives up only after five unprotected probes of a running daemon. The counter never exceeds 5 |
| VpnModel.ProtectedFirstProbe | njord/vpn.py:96-98 | a protected first probe ends the loop at once |
| VpnModel.ProbeLoop | njord/vpn.py:94-106 | the loop's result and final counter are `ProbeRun`'s, and the counter is at most 5 |
| VpnModel.DisconnectClears | njord/vpn.py:116-132 | on a consistent session whose daemon was not reaped: all three fields None; exactly the recorded files removed; SIGTERM to the recorded pid before the sweep. After a reaped daemon: nothing changes. Invariant kept either way |
| VpnModel.DisconnectIdempotent | njord/vpn.py:116-132 | a second disconnect changes no field and removes no file; only the sweep repeats, or it raises again |
| VpnModel.AttemptedEffect | njord/vpn.py:70-92 | one attempt keeps the invariant and credentials. When the opening SIGTERM raises, nothing changes. With no pid recorded, nothing is killed or removed. With no server, nothing is written. With a server the files are the disconnected ones plus exactly the filled profile and the credentials text at the two fresh paths, and a live daemon is recorded |
| VpnModel.AttemptFiles | njord/vpn.py:70-84 | a file present after an attempt was present and unrecorded before, or is one of the attempt's two paths; an unrecorded file the attempt does not write keeps its content |
| VpnModel.ProfileScenario | njord/vpn.py:73-79 | an attempt whose only server is us1.example.com at 1.2.3.4, with the line `remote {0} {1}`, writes `remote 1.2.3.4 us1.example.com` to its profile |
| VpnModel.RestartTerminatesPrevious | njord/vpn.py:70-71 | a restart after five unprotected probes sends SIGTERM to the daemon the previous attempt spawned, then sweeps |
| VpnModel.AfterConnect | njord/vpn.py:66-108 | no more attempts are made than the budget of nested calls observed |
| VpnModel.StaleConnectRaises | njord/vpn.py:70-71 | a connect on a session whose daemon was reaped raises ProcessLookupError before any attempt and changes nothing |
| VpnModel.NoServerRaises | njord/vpn.py:73 | no qualifying server: TypeError after one attempt, with the session only conditionally disconnected, so no file written and no daemon spawned |
| VpnModel.ExitedDaemonBlocksRestart | njord/vpn.py:101-108 | a daemon that exits during the probe loop makes the restart raise ProcessLookupError after that one attempt; its pid and files stay recorded and on disk, and every later disconnect raises too |
| VpnModel.LastAttempt | njord/vpn.py:108 | the last attempt lies within the budget |
| VpnModel.LastAttemptCounts | njord/vpn.py:108 | the last attempt made is number `from + used - 1` |
| VpnModel.ConnectOutcomeReasons | njord/vpn.py:66-108 | Connected iff the last attempt found a server and probed protected. TypeError iff the last attempt found no server. ProcessLookupError iff the last attempt's daemon exited and the restart was observed. Still restarting iff the last attempt did not end the call and the whole budget was used |
| VpnModel.EarlierAttemptsRestarted | njord/vpn.py:108 | every attempt before the last found a server and gave up after five probes of a running daemon |
| VpnModel.NoRestartBound | njord/vpn.py:108 | there is no retry bound: while attempts keep giving up on a running daemon, every budget is used up restarting |
| VpnModel.ConnectKeepsConsistent | njord/vpn.py:66-108 | after any number of restarts, the invariant holds and the credentials are unchanged |
| VpnModel.ConnectEndsWithLast | njord/vpn.py:73-92 | the session connect leaves records the pid, files and contents of its last attempt when that attempt found a server, and no pid and no files when it found none |
| VpnModel.ConnectLeavesOnlyLastFiles | njord/vpn.py:70-108 | every file present after connect was present and unrecorded before, or is one of the last attempt's two paths: no earlier attempt's file is left behind |
| VpnModel.ConnectKeepsOtherFiles | njord/vpn.py:70-108 | an unrecorded file that no attempt writes is still present with the same content after connect |
| VpnModel.IntendedAfterConnect | njord/vpn.py:66-108 | the intended restart makes no more attempts than the budget |
| VpnModel.IntendedOutcomeReasons | njord/vpn.py:66-108 | the intended restart never raises ProcessLookupError; Connected iff the last attempt found a server and probed protected, TypeError iff it found no server, still restarting iff neither, and then the whole budget was used |
| VpnModel.IntendedAgreesWithoutExits | njord/vpn.py:101-108 | while no daemon exits during a probe loop, the restart as written behaves exactly as intended |
| VpnModel.Vpn.constructor | njord/vpn.py:19-30 | resolved credentials, no pid, no files recorded, nothing reaped, invariant holds |
| VpnModel.Vpn.Flush | njord/vpn.py:110-114 | appends exactly the sweep's kill commands and changes nothing else |
| VpnModel.Vpn.Disconnect | njord/vpn.py:116-132 | raises exactly when the recorded daemon was reaped; the new state is `AfterDisconnect` of the old one, and the invariant is kept |
| VpnModel.Vpn.StartAttempt | njord/vpn.py:73-92 | the new state is `Launched` of the old one; reports whether a server was found; invariant kept |
| VpnModel.Vpn.Launch | njord/vpn.py:73-106 | asks for a restart exactly when the attempt found a server and its probe loop did not see protection; otherwise Connected or TypeError as the attempt decides; the daemon is marked reaped exactly when the loop saw it exit |
| VpnModel.Vpn.Connect | njord/vpn.py:66-108 | outcome as `AfterConnect` decides, starting stale when the recorded daemon was reaped; session as `SessionAfterConnect`; invariant kept |

## Findings

| source | as written | input that shows it | evidently intended | confidence | as-written member | corrected member |
|---|---|---|---|---|---|---|
| njord/client.py:120 | the retry calls `self.connect()` and drops its result, so `connect` falls off the end and returns None | first attempt finds a server but is not protected; the retry is protected | `return self.connect(...)`: the caller gets True | not executed | ClientModel.RetriedSuccessReturnsNone | ClientModel.IntendedConnectReports |
| njord/client.py:120 | the retry does not pass `max_retries`, so every nested call falls back to the default of 5 | `connect(max_retries=7)` with every attempt failing raises after 6 attempts | the caller's bound holds throughout: 8 attempts | not executed | ClientModel.RetryIgnoresMaxRetries | ClientModel.IntendedExhaustsMaxRetries |
| njord/vpn.py:101-108 | once `poll()` sees the daemon exit it has reaped it, and the restart's disconnect sends SIGTERM to that pid (njord/vpn.py:121), which raises ProcessLookupError: connect ends with it, the pid and both files stay recorded, and every later `disconnect` raises again | the first attempt finds a server, its first status is unprotected and `poll()` reports the daemon exited | the restart goes ahead with a fresh pick, as after five unprotected probes | not executed | VpnModel.ExitedDaemonBlocksRestart | VpnModel.IntendedOutcomeReasons |

`ClientModel.IntendedConnect` is the corrected retry, and `VpnModel.IntendedAfterConnect` the corrected restart. `Client.Connect` and `Vpn.Connect` model the code as written.

## Left out

- HTTP and JSON decoding are not modelled: `requests.get(...).json()`, `list_countries` and `status`. The decoded recommendation list and status objects are inputs. JSON floats (Python's `1.0 == True`) are not modelled.
- `random.choice` is replaced by an input number taken modulo the number of qualifying servers. Every server is reachable this way (`NordApi.EveryQualifyingServerCanBeChosen`).
- `os.urandom(...).hex()` names and `tempfile.gettempdir()` are replaced by input paths. They are assumed distinct and non-empty.
- `subprocess.run(["sudo", "-v"])` is not modelled, and neither is a `Popen` that fails. The spawned pid is an input, assumed positive.
- `os.system("sudo kill -9 ...")` and `os.kill` are recorded as kill commands. Their effect on the process table is not modelled; each attempt's process table is its own input.
- `os.kill` on a pid the operating system has reused for another process is not modelled: a reaped daemon's pid is taken to name no process, so the SIGTERM raises.
- `open`/`write`/`os.remove` failures are not modelled. Files are a map from path to content.
- The real `OPENVPN_TEMPLATE` is not modelled, because `_templates` is not part of this model. It is any template whose fields are `{0}` and `{1}`; `{}` automatic numbering, `{{` escapes and format specifications are not modelled.
- `sleep` and `print` are not modelled: they change no state.
- `load_dotenv` is not modelled. The environment values are inputs.
- `self.openvpn`, the `Popen` handle, is not a field. Its `poll()` answers are the probes' `running` flags, and whether it reaped the daemon is the field `daemonReaped`.
- VpnModel.Vpn.Connect: observes at most `budget` nested calls of `connect()` and reports `StillRestarting` when they run out. The unbounded self-recursion, and Python's eventual `RecursionError`, are not modelled.
- VpnModel.AfterConnect: the same bound on the number of nested calls observed applies.
- VpnModel.IntendedAfterConnect: models only the intended outcome and attempt count, not the session the intended restart would leave.
