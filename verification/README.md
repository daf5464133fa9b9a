# SSH Launchpad: verified models

SSH Launchpad brings up applications on remote servers: it reserves a local port, leases an SSH session from a
pool, starts the application if it must, tunnels the port and watches it.  This project models the stateful
parts of that program in Dafny and proves what they promise over every run, not over single calls.

- **Runtime, session pool, tunnels** (`runtime_*.dfy`, `session_pool*.dfy`, `tunnel_*.dfy`).  JavaScript runs
  one stretch of code at a time, so a step of the state machines is the code between two awaits, and a run is
  any interleaving of such steps with what the network and the clients do.  The classes hold the program's own
  fields and are proved to take exactly the steps of the machines.
- **SSH configuration import** (`ssh_*.dfy`): comment scanner, tokeniser, block builder and host emitter of the
  server and of the browser.
- **Server records and credentials** (`credential_id.dfy`, `server_*.dfy`): two stores and compensating calls,
  any of which may fail.
- **Log store** (`log_store.dfy`, `redaction.dfy`): memory tail, rotation and redaction.
- **Agent registry** (`agent_registry*.dfy`): requests, responses, timeouts and superseded sockets.
- **Shell quoting** (`posix_command.dfy`), read by a lexer that follows sections 2.2 and 2.3 of the Shell
  Command Language of POSIX.1-2017.

## What is found not to hold

- The pool loses a session for good exactly when a connect ends for a server that has an entry by then
  (`PoolModel.ReplacesExactly`, `PoolModel.ReplacedIsNeverClosed`, `PoolModel.OverlapLosesSession`).  The
  service can cause that (`RuntimeSessions.ReplacesExactly`, `RuntimeLostSession.ServiceLosesSession`).
- The manager forgets a bound reservation exactly when a second bind succeeds for an application that has one
  (`TunnelModel.StaysExactExactly`, `TunnelModel.OverlapForgetsReservation`); the runtime service never causes that.
- A forward whose client hung up before its stream was there keeps an open stream with a closed socket
  (`TunnelModel.EndsTogetherExactly`, `TunnelModel.HangUpLeavesStream`).
- An active application need not show healthy: it does exactly as long as nothing else publishes for it, such as a
  second connect or the late end of a teardown (`RuntimeStatus.ActiveIsHealthyExactly`, `RuntimeWitnesses`).
- Server and browser differ on an empty `Port` (`SshConfigTheorems.ServerAgainstBrowser`).
- A failed write with a credential of another kind leaves the new secret behind, and a secret may dangle only if
  a compensation fails (`ServerTheorems.TightExactly`, `ServerTheorems.KeepsInvExactly`).
- A server with an empty stored secret cannot be changed or removed (`ServerTheorems.EmptySecretBlocks`).
- A secret can reappear in a redacted line exactly if it can be laid over the marker without a disagreement
  (`Redaction.HiddenExactly`).
- A log line that is empty, has a line feed or ends in a carriage return is not read back as it was written
  (`LogStore.ReadsBackExactly`).
- Lines before the first Host of a configuration can change the hosts of one that is put before it
  (`SshConfigHosts.HostsComposeExactly`).
- An agent id that continues another one with a colon lets that other agent answer for it
  (`AgentRegistryModel.ReachIsExact`); random ids have no colon.

## Assumptions

- Event listeners and socket callbacks do not throw.
- Every connect of the session factory returns a session of its own, and the operating system binds a port once.
- A settled promise resumes its waiter at once: the steps between two turns of the microtask queue are one step.
  In particular the activation of a reservation and its record in the manager are one step.
- A port is free again when its server is told to close; the close callback comes when the last connection has
  ended, whether or not an openForward for it is still pending.  A client may end its connection
  at any time, but in order: an error event before openForward resolves has no listener yet and is not modelled.
- Operations of the server service do not overlap, and a call to a store that fails leaves the store unchanged.
- Appends to one log do not overlap; renaming a missing file is the only failure of a file operation, and a log
  directory holds only the five files.
- Random identifiers are fresh and have no colon.
- Strings are sequences of characters; lines are measured by their UTF-8 length.

## Model

| member | source | states |
|---|---|---|
| `PoolModel.RunKeepsInv` | apps/server/src/ssh/session-pool.ts:12-50 | in every interleaving of acquire, connect results, release, disconnect callbacks and closeAll the invariant holds: entries count their leases, every session is stored, closed once, dropped or replaced, and only one of these |
| `PoolModel.LeasesAreCounted` | apps/server/src/ssh/session-pool.ts:24-38 | a stored entry counts exactly the unreleased leases on its session, and there is at least one |
| `PoolModel.ClosedAtMostOnce` | apps/server/src/ssh/session-pool.ts:35-37 | the pool never closes a session twice |
| `PoolModel.ReleaseClosesOnlyIdle` | apps/server/src/ssh/session-pool.ts:28-39 | a release closes at most the session of its own lease, and only if that lease was the last one on it |
| `PoolModel.IdleIsClosedUnlessLost` | apps/server/src/ssh/session-pool.ts:18-38 | a session without leases has been closed by the pool if and only if it neither disconnected first nor was replaced by an overlapping acquire |
| `PoolModel.ReplacedIsNeverClosed` | apps/server/src/ssh/session-pool.ts:22 | an entry overwritten by a second first acquire is never closed by any later event |
| `PoolModel.ReplacesExactly` | apps/server/src/ssh/session-pool.ts:16-22 | a step replaces a session if and only if it connects for a server that has an entry by then |
| `PoolModel.NothingReplacedExactly` | apps/server/src/ssh/session-pool.ts:13-22 | over a run nothing is replaced if and only if that never happened |
| `PoolModel.ReplacedExactly` | apps/server/src/ssh/session-pool.ts:16-22 | over a run a session was replaced if and only if some such connect overwrote the entry that held it |
| `PoolModel.LastReleaseClosesExactly` | apps/server/src/ssh/session-pool.ts:28-38 | a session that nobody holds any more has been closed if and only if it did not disconnect first and no such connect overwrote its entry |
| `PoolModel.OverlapLosesSession` | apps/server/src/ssh/session-pool.ts:13-22 | two overlapping first acquires do replace an entry: a run that shows it |
| `PoolModel.NoOverlapNothingReplaced` | apps/server/src/ssh/session-pool.ts:13-22 | if first acquires of a server do not overlap, nothing is ever replaced |
| `PoolModel.LastReleaseCloses` | apps/server/src/ssh/session-pool.ts:28-38 | without overlap the last release closes the session exactly when it has not disconnected |
| `PoolHistory.AcquireShares` | apps/server/src/ssh/session-pool.ts:12-28 | an acquire hands out the stored session of its server at once, and connects if and only if none is stored |
| `PoolHistory.LeaseHasOrigin` | apps/server/src/ssh/session-pool.ts:12-28 | over a run every lease goes back to one acquire: it is on the session stored for its server then, or on one that the call opened because none was stored |
| `PoolHistory.ReleasedExactly` | apps/server/src/ssh/session-pool.ts:25-30 | over a run a lease is released if and only if its release was called |
| `PoolHistory.ClosedByEvents` | apps/server/src/ssh/session-pool.ts:18-39 | told by the calls alone: a session all of whose leases were released has been closed if and only if no disconnect callback found it in the pool and no later connect overwrote its entry |
| `PoolHistory.DisconnectedIsForgotten` | apps/server/src/ssh/session-pool.ts:18-21 | a session that disconnected is never in the pool again, and no later acquire of a stored session hands it out |
| `PoolHistory.CloseAllCloses` | apps/server/src/ssh/session-pool.ts:43-50 | closeAll leaves no entry, closes each pooled session once, and no other session |
| `SessionPools.SessionPool.StartAcquire` | apps/server/src/ssh/session-pool.ts:12-25 | acquire up to its await is the Acquire step of the model; a hit hands out a lease object |
| `SessionPools.SessionPool.FinishAcquire` | apps/server/src/ssh/session-pool.ts:16-25 | acquire after the connect is the Connected step |
| `SessionPools.SessionPool.Release` | apps/server/src/ssh/session-pool.ts:28-39 | the release closure is the Release step, and a second call changes nothing |
| `SessionPools.SessionPool.OnDisconnect` | apps/server/src/ssh/session-pool.ts:18-21 | the disconnect callback is the Disconnect step: it removes the entry only while it still holds this session |
| `SessionPools.SessionPool.CloseAll` | apps/server/src/ssh/session-pool.ts:43-50 | closeAll empties the map and closes every stored session once |
| `SessionPools.SessionPool.CloseEntries` | apps/server/src/ssh/session-pool.ts:46-49 | the loop over the captured entries closes each of their sessions exactly once |
| `TunnelModel.RunKeepsInv` | apps/server/src/tunnels/tunnel-manager.ts:40-125 | in every interleaving, a client that hangs up at any moment included, the invariant of reservations, ports, sockets and streams holds |
| `TunnelModel.NoForwardAfterRelease` | apps/server/src/tunnels/tunnel-manager.ts:52-60 | once a reservation is being released it never again has a live forward or a target, late openForward results included |
| `TunnelModel.EndsTogetherExactly` | apps/server/src/tunnels/tunnel-manager.ts:69-90 | socket and stream of a forward end together in every later state, the forward being listed exactly until then, if and only if the client had not hung up before openForward resolved |
| `TunnelModel.HangUpLeavesStream` | apps/server/src/tunnels/tunnel-manager.ts:72-86 | a hang-up before that does leave a listed forward with a closed socket and an open stream: a run that shows it |
| `TunnelModel.ListedWhileStreaming` | apps/server/src/tunnels/tunnel-manager.ts:79-86 | in any case a forward is listed exactly while its stream is open, and its socket is closed with the stream at the latest |
| `TunnelModel.NothingSurvivesRelease` | apps/server/src/tunnels/tunnel-manager.ts:52-77 | when the server of a released reservation has closed, every socket it ever accepted has ended and every stream, one opened later included, is destroyed |
| `TunnelModel.ReleasedExactlyOnce` | apps/server/src/tunnels/tunnel-manager.ts:52-67 | onReleased has run exactly once for a released reservation and not at all for any other |
| `TunnelModel.OpenPortsDiffer` | apps/server/src/tunnels/tunnel-manager.ts:40-42 | open reservations have pairwise distinct ports |
| `TunnelHistory.PhasesExactly` | apps/server/src/tunnels/tunnel-manager.ts:44-67 | over a run a reservation is open with its port bound if and only if its release was not called, released if and only if its server closed, and has a target if and only if it was activated while open and its release was not called |
| `TunnelHistory.SocketsExactly` | apps/server/src/tunnels/tunnel-manager.ts:69-90 | over a run, told by the events alone: when a connection waits for its stream, when its stream was opened and is destroyed, and when the connection itself is closed |
| `TunnelModel.StaysExactExactly` | apps/server/src/tunnels/tunnel-manager.ts:97-112 | the two maps go on listing exactly the unreleased and the activated reservations if and only if the step is not a bind for an application that has a reservation by then |
| `TunnelModel.ExactUntilClash` | apps/server/src/tunnels/tunnel-manager.ts:97-112 | over a run the maps are exact all the way if and only if no such bind happened |
| `TunnelModel.NoOverlapKeepsSole` | apps/server/src/tunnels/tunnel-manager.ts:97-104 | reserve calls of one application that do not overlap never clash, so the maps are exact |
| `TunnelModel.OverlapWithoutClash` | apps/server/src/tunnels/tunnel-manager.ts:97-104 | overlap alone is harmless: a run in which one of two overlapping calls fails to listen |
| `TunnelModel.ActiveIsReserved` | apps/server/src/tunnels/tunnel-manager.ts:97-116 | while the maps are exact every active tunnel is the reservation of its application, which is listed exactly while it has an unreleased one |
| `TunnelModel.OverlapForgetsReservation` | apps/server/src/tunnels/tunnel-manager.ts:98-104 | two overlapping reserve calls that both bind make the manager forget the first reservation while its port stays bound: a run that shows it |
| `TunnelManagers.Reservation.Activate` | apps/server/src/tunnels/tunnel-manager.ts:44-50 | refuses a released and an active reservation and otherwise sets the target |
| `TunnelManagers.Reservation.Release` | apps/server/src/tunnels/tunnel-manager.ts:52-67 | drops the target, destroys both ends of every forward, and does nothing the second time |
| `TunnelManagers.Reservation.Accept` | apps/server/src/tunnels/tunnel-manager.ts:69-72 | a connection without a target is destroyed, any other waits for its stream |
| `TunnelManagers.Reservation.ForwardOpened` | apps/server/src/tunnels/tunnel-manager.ts:72-79 | a stream that arrives after the release is destroyed with its socket, any other becomes a live forward |
| `TunnelManagers.Reservation.Cleanup` | apps/server/src/tunnels/tunnel-manager.ts:80-84 | removes the forward and destroys both of its ends |
| `TunnelManagers.TunnelManager.StartReserve` | apps/server/src/tunnels/tunnel-manager.ts:97-103 | reserve up to its await is the Reserve step of the model; busy exactly when the application is listed |
| `TunnelManagers.TunnelManager.FinishReserve` | apps/server/src/tunnels/tunnel-manager.ts:103-112 | reserve after the bind is the Listening step |
| `TunnelManagers.TunnelManager.Activate` | apps/server/src/tunnels/tunnel-manager.ts:105-110 | the wrapped activate is the Activate step, of a forgotten reservation too: target and manager map together |
| `TunnelManagers.TunnelManager.OnServerClosed` | apps/server/src/tunnels/tunnel-manager.ts:61-66 | the close callback is the ServerClosed step: both maps lose the application, even if they list a successor by then |
| `TunnelManagers.TunnelManager.CloseAll` | apps/server/src/tunnels/tunnel-manager.ts:122-124 | every listed reservation is being released |
| `RuntimeSteps.StepKeepsInv` | apps/server/src/runtime/app-runtime-service.ts:41-143 | every resumption of every task keeps the invariant |
| `RuntimeSteps.RunKeepsInv` | apps/server/src/runtime/app-runtime-service.ts:41-143 | the invariant holds in every interleaving of connects, disconnects, unexpected disconnects, retries and network events |
| `RuntimeTheorems.OneConnectPerApp` | apps/server/src/runtime/app-runtime-service.ts:41-47 | at most one connectInternal runs per application |
| `RuntimeSteps.NeverOverwrites` | apps/server/src/runtime/app-runtime-service.ts:90-113 | active.set never overwrites an entry |
| `RuntimeSteps.ActivateSucceeds` | apps/server/src/runtime/app-runtime-service.ts:107-108 | activate never finds the reservation released or active |
| `RuntimeTheorems.ResourcesHaveOneOwner` | apps/server/src/runtime/app-runtime-service.ts:54-67 | every unreleased reservation and every unreleased lease has exactly one owner: a running connect, an active entry or a running teardown |
| `RuntimeTheorems.RestIsBalanced` | apps/server/src/runtime/app-runtime-service.ts:54-143 | at rest the reserved applications are the active ones, exactly their ports are bound, and a pooled session counts exactly the active applications that use it |
| `RuntimeSessions.RestClosesUnused` | apps/server/src/runtime/app-runtime-service.ts:54-143 | at rest a session that no active application uses has been closed if and only if it neither disconnected nor was replaced |
| `RuntimeSessions.ReplacesExactly` | apps/server/src/runtime/app-runtime-service.ts:92 | a step of the service makes the pool lose a session if and only if it ends the connect of a session for an application whose server has an entry by then |
| `RuntimeLostSession.ServiceLosesSession` | apps/server/src/runtime/app-runtime-service.ts:92 | a reachable state in which nothing is under way and no application is active, but a session is still open: two applications of one server connected at the same time |
| `RuntimeTheorems.ActiveSessionIsOpen` | apps/server/src/runtime/app-runtime-service.ts:92-113 | the session of an active application is one of the server of that application, and the pool has not closed it |
| `RuntimeTheorems.HealthyMeansActive` | apps/server/src/runtime/app-runtime-service.ts:113-142 | a last status 'healthy' means that the application is active or that a teardown of it has still to publish; at rest it means active |
| `RuntimeStatus.StepTells` | apps/server/src/runtime/app-runtime-service.ts:41-148 | a step sets the last status of an application to the word of its event and guard, or leaves it alone; only the handover of an entry publishes healthy |
| `RuntimeOutcomes.SucceedsExactly` | apps/server/src/runtime/app-runtime-service.ts:89-123 | over a run a call succeeds if and only if none of its awaits failed, and if and only if its health check passed and its entry was stored; it is in the catch block if and only if one failed |
| `RuntimeOutcomes.SaidExactly` | apps/server/src/runtime/app-runtime-service.ts:91-121 | over a run a call has published connecting if and only if it got its reservation, starting if and only if the first probe said no and it may start the application, tunneling if and only if a probe said yes, healthy if and only if the health check passed |
| `RuntimeOutcomes.LaunchedExactly` | apps/server/src/runtime/app-runtime-service.ts:97-99 | over a run the start command of a call has run if and only if its execDetached resolved |
| `RuntimeOutcomes.SuccessWasEarned` | apps/server/src/runtime/app-runtime-service.ts:88-115 | a call that succeeded saw its port answer and ran its start command if and only if it published starting; the flag of a running call and of an active entry says whether theirs has run |
| `RuntimeStatus.EntryHasHandover` | apps/server/src/runtime/app-runtime-service.ts:110-114 | every active entry has its handover, after which it was there all the time |
| `RuntimeStatus.ActiveIsHealthyExactly` | apps/server/src/runtime/app-runtime-service.ts:41-143 | the last status of an active application is healthy if and only if no event after the handover of its entry published for it |
| `RuntimeWitnesses.ConnectingActiveAppPublishesError` | apps/server/src/runtime/app-runtime-service.ts:90-121 | a reachable state at rest in which an application is active and shows error, because it was connected again |
| `RuntimeWitnesses.LateTeardownHidesHealthy` | apps/server/src/runtime/app-runtime-service.ts:54-67 | a reachable state at rest in which an application is active and shows disconnected, because the teardown of its previous entry published late |
| `RuntimeTheorems.StatusesFollowTheScript` | apps/server/src/runtime/app-runtime-service.ts:84-121 | a connect publishes checking, connecting, perhaps starting, tunneling and healthy in this order, or ends on the way with one error; the call succeeds exactly with the whole story |
| `RuntimeTheorems.FailureIsClean` | apps/server/src/runtime/app-runtime-service.ts:116-122 | by the time a failed connect publishes 'error' nothing it acquired is held any more, and that stays so |
| `RuntimeTheorems.SuccessAddsOneEntry` | apps/server/src/runtime/app-runtime-service.ts:110-115 | the successful health check adds one entry, which afterwards owns a listed, open reservation and an unreleased lease |
| `RuntimeStops.StopsAreJustified` | apps/server/src/runtime/app-runtime-service.ts:54-62 | a stop command is sent only by the disconnect of an entry whose own connect ran the start command, with no other application active on its server, while its reservation and its lease are still held |
| `RuntimeStops.StopsDiffer` | apps/server/src/runtime/app-runtime-service.ts:54-62 | over any run no entry is sent two stop commands |
| `RuntimeStops.StopsAreSentExactly` | apps/server/src/runtime/app-runtime-service.ts:54-62 | over a run an event sends a stop command if and only if it disconnects an active application whose own connect ran the start command, with no other active application on its server, and with stopOnDisconnect and a stop command |
| `RuntimeWitnesses.StartedAppIsStopped` | apps/server/src/runtime/app-runtime-service.ts:93-115 | a reachable state in which a disconnect sends a stop command: the application was found closed, started and found healthy |
| `RuntimeRetries.TakesDownStep` | apps/server/src/runtime/app-runtime-service.ts:55-58 | a disconnect and a lost session take the entry out of the map at once, and its teardown keeps that entry |
| `RuntimeRetries.TeardownHasOrigin` | apps/server/src/runtime/app-runtime-service.ts:54-67 | over a run every teardown was begun by one disconnect or one lost session, and its kind says by which |
| `RuntimeRetries.TeardownEnds` | apps/server/src/runtime/app-runtime-service.ts:54-67 | when a teardown ends, its reservation and its lease are back; after a disconnect the application shows disconnected and no retry waits, after a lost session it shows connecting and attempt 0 waits |
| `RuntimeRetries.LostSessionIsTriedAgain` | apps/server/src/runtime/app-runtime-service.ts:131-136 | after the last await of an unexpected disconnect a retry of attempt 0 of that application waits, where there was none before |
| `RuntimeRetries.RetryHasOrigin` | apps/server/src/runtime/app-runtime-service.ts:126-141 | over a run every retry comes from a lost session, and its attempt is the number of its failures since, which is below 3 |
| `RuntimeRetries.ThreeAttempts` | apps/server/src/runtime/app-runtime-service.ts:134-142 | a retry ends if and only if the call it waits for succeeded or for the third time an attempt failed; then the application shows error, and after the first and the second failed attempt it shows connecting and the next attempt waits |
| `RuntimeRetries.RetriesCanGoOn` | apps/server/src/runtime/app-runtime-service.ts:134-141 | no retry is stuck: it joins the call in flight or begins one, and the call it joined is under way or has settled |
| `RuntimeTheorems.TasksCanGoOn` | apps/server/src/runtime/app-runtime-service.ts:54-133 | no connect and no teardown is stuck: it can always resume, or it waits for its own closing server |
| `RuntimeTheorems.ServersCanClose` | apps/server/src/tunnels/tunnel-manager.ts:61-77 | a closing server can close, or it waits for an open connection whose openForward can settle and then ends it |
| `RuntimeService.AppRuntimeService.ConnectInternal` | apps/server/src/runtime/app-runtime-service.ts:79-124 | all or nothing, with the exact condition of success: one new entry with one reservation and one lease, or reservation map, bound ports, lease counts and entries as before and a failed status story |
| `RuntimeService.AppRuntimeService.CatchBlock` | apps/server/src/runtime/app-runtime-service.ts:116-119 | whatever the try block held when it threw, the catch block restores reservations, ports and lease counts |
| `RuntimeService.AppRuntimeService.PollUntilOpen` | apps/server/src/runtime/app-runtime-service.ts:100-104 | the loop finds the port open exactly when some probe does and none before it throws |
| `RuntimeService.AppRuntimeService.Disconnect` | apps/server/src/runtime/app-runtime-service.ts:54-63 | before the first await the entry is gone, and either the stop command was sent, exactly for a started entry that wants it and has no peer on its server, or its tunnel has begun to close |
| `RuntimeService.AppRuntimeService.Shutdown` | apps/server/src/runtime/app-runtime-service.ts:73-74 | before any await resumes every captured entry is gone, stop commands went to the applications of Told, and the tunnels are as Closings says |
| `RuntimeService.ToldExactly` | apps/server/src/runtime/app-runtime-service.ts:59-62 | Told holds an application exactly when its entry was started here, wants its stop command and is the last of its server in the order of the shutdown |
| `RuntimeService.OneStopPerServer` | apps/server/src/runtime/app-runtime-service.ts:59-74 | a shutdown sends at most one stop command per server |
| `RuntimeService.ClosingsExactly` | apps/server/src/runtime/app-runtime-service.ts:59-74 | a shutdown begins to close exactly the tunnels of the applications that get no stop command first |
| `SshComment.CutsAtFirstComment` | apps/server/src/servers/ssh-config-parser.ts:22-42 | stripComment returns the prefix before the first unquoted, unescaped # of the scanner |
| `SshComment.StripsOutsideQuotes` | apps/server/src/servers/ssh-config-parser.ts:22-42 | outside quotes a comment character cuts, a backslash keeps the next character, and any other character stays |
| `SshComment.StripKeepsQuotes` | apps/server/src/servers/ssh-config-parser.ts:22-42 | a single-quoted and a double-quoted string stay whole, comment characters in them included, and so does an unclosed quotation to the end of the line |
| `SshComment.StripIsIdempotent` | apps/server/src/servers/ssh-config-parser.ts:22-42 | a stripped line has no comment left |
| `SshComment.Strip` | apps/server/src/servers/ssh-config-parser.ts:22-42 | the loop over quote and escaped computes StripComment |
| `SshTokens.MatchIsExact` | apps/server/src/servers/ssh-config-parser.ts:46 | the matcher takes exactly what the regular expression takes, which is one length only |
| `SshTokens.MatchesPartition` | apps/server/src/servers/ssh-config-parser.ts:44-57 | raw matches and blank gaps put together again are the line: no character but white space is lost, none used twice |
| `SshTokens.MatchesAreWords` | apps/server/src/servers/ssh-config-parser.ts:46-49 | no match is empty or starts with white space |
| `SshTokens.Tokenise` | apps/server/src/servers/ssh-config-parser.ts:44-57 | the loop computes the words of the matches |
| `SshTokens.QuotedReadsBack` | apps/server/src/servers/ssh-config-parser.ts:46-51 | a double-quoted, backslash-escaped argument is one match, whatever follows, and its word is the argument |
| `SshTokens.SingleQuotedReadsBack` | apps/server/src/servers/ssh-config-parser.ts:46-51 | the word of a single-quoted match is what stands inside, its escapes undone |
| `SshTokens.UnescapeLaws` | apps/server/src/servers/ssh-config-parser.ts:51 | a backslash is dropped before a backslash and before either quotation mark, and stays before every other character |
| `SshTokens.PlainReadsBack` | apps/server/src/servers/ssh-config-parser.ts:46-53 | a run without white space that does not begin with a quotation mark is one match and its own word |
| `SshConfig.ReadText` | apps/server/src/servers/ssh-config-parser.ts:70-112 | the loop over the lines computes the fold that the theorems are about |
| `SshConfig.ParseOnServer` | apps/server/src/servers/ssh-config-parser.ts:70-141 | the server parser computes Parse in the server dialect |
| `SshConfig.ParseInBrowser` | apps/web/src/state/ssh-config-parser.ts:34-58 | the browser parser computes Parse in the browser dialect |
| `SshConfigLines.LineSays` | apps/server/src/servers/ssh-config-parser.ts:73-80 | a keyword with any plain, single-quoted and double-quoted arguments is read as that keyword in lower case and those words |
| `SshConfigLines.CommentIsIgnored` | apps/server/src/servers/ssh-config-parser.ts:73-80 | a comment character outside quotes and whatever follows it change nothing about what the line before it says |
| `SshConfigLines.CommentsDoNotMatter` | apps/server/src/servers/ssh-config-parser.ts:70-141 | texts whose lines differ only in comments give the same import, in either dialect |
| `SshConfigLines.AddedCommentsDoNotMatter` | apps/server/src/servers/ssh-config-parser.ts:70-141 | adding any comment to every line of a configuration without comments does not change the import |
| `SshConfigBlocks.BlocksAreHostLines` | apps/server/src/servers/ssh-config-parser.ts:73-112 | the loop builds exactly one block per Host line with an alias, each field being the first value before the next Host line |
| `SshConfigTheorems.ReadingWarns` | apps/server/src/servers/ssh-config-parser.ts:83-109 | each line gives at most one warning, determined by that line and by whether a block is open |
| `SshConfigHosts.TextYields` | apps/server/src/servers/ssh-config-parser.ts:70-141 | for a whole text: the hosts are, for each accepted Host line in order, one per alias with the first values that follow; the warnings are those of the lines and then one for each rejected Host line |
| `SshConfigHosts.HostsAreValid` | apps/server/src/servers/ssh-config-parser.ts:116-127 | every imported host has a port in 1 to 65535 and an alias without wildcards |
| `SshConfigValues.AcceptedExactly` | apps/server/src/servers/ssh-config-parser.ts:116-127 | a Host line is accepted if and only if no alias has one of the three wildcard characters and the first Port of its block, if there is one, reads as a number in 1 to 65535; the server passes over an empty one |
| `SshConfigValues.RejectionSays` | apps/server/src/servers/ssh-config-parser.ts:115-127 | a rejected Host line is warned about for its wildcard if it has one and for its port otherwise, and an accepted one is not |
| `SshConfigValues.AliasAlone` | apps/server/src/servers/ssh-config-parser.ts:119-137 | a Host line alone imports its alias as host name, with port 22, no user and no key |
| `SshConfigValues.ValueIsJoined` | apps/server/src/servers/ssh-config-parser.ts:111 | the value of a directive is its words separated by one blank each |
| `SshConfigValues.NamesIgnoreCase` | apps/server/src/servers/ssh-config-parser.ts:79 | two directive names are read as the same if and only if they differ at most in the case of letters |
| `SshConfigValues.LinesWarn` | apps/server/src/servers/ssh-config-parser.ts:83-109 | which warning each directive gives, by name, by its having a value and by whether a block is open |
| `SshConfigTheorems.ParsingComposes` | apps/server/src/servers/ssh-config-parser.ts:70-140 | if B starts afresh, the hosts of A followed by B are the hosts of A and then those of B, and the warnings add up |
| `SshConfigTheorems.ReadingComposes` | apps/server/src/servers/ssh-config-parser.ts:70-112 | the same for blocks and warnings with their line numbers |
| `SshConfigTheorems.ComposesExactly` | apps/server/src/servers/ssh-config-parser.ts:83-101 | the warnings of B append to those of every A if and only if B starts afresh: at most Include and ProxyJump before the first Host |
| `SshConfigHosts.HostsComposeExactly` | apps/server/src/servers/ssh-config-parser.ts:70-139 | the hosts of B follow those of every A unchanged if and only if B gives, before its first Host, no non-empty host name, user or identity file and no port other than 22 |
| `SshConfigTheorems.ServerAgainstBrowser` | apps/web/src/state/ssh-config-parser.ts:46-57 | both copies give the same hosts up to identity files and as many warnings, if and only if no block without wildcards recorded an empty port; each such block costs the browser one warning more |
| `SshConfigPrint.LineReads` | apps/web/src/state/ssh-config-parser.ts:36-38 | a printed directive goes through stripComment, trim and tokens unchanged |
| `SshConfigPrint.NumberReads` | apps/web/src/state/ssh-config-parser.ts:49 | a decimal port is read as its number |
| `SshConfigPrint.PrintedHostsComeBack` | apps/web/src/state/ssh-config-parser.ts:34-58 | printing hosts and running the browser parser gives exactly these hosts and no warning |
| `SshConfigPrint.PrintedHostsReachServer` | apps/server/src/servers/ssh-config-parser.ts:70-141 | the server parser gives them with their identity files expanded |
| `CredentialIds.PartsExact` | apps/server/src/servers/server-service.ts:22-29 | credentialParts undoes credentialId, the server id followed by :password or :private-key-passphrase, for every non-empty server id and accepts nothing else |
| `CredentialIds.OwnersDiffer` | apps/server/src/credentials/keyring-store.ts:15-17 | no credential id belongs to two servers |
| `ServerServices.ServerService.Create` | apps/server/src/servers/server-service.ts:42-53 | create with its compensation reaches the state and the result of Perform |
| `ServerServices.ServerService.Change` | apps/server/src/servers/server-service.ts:60-101 | the common part of update and setCredential, with the deletion after the write inside the try block |
| `ServerServices.ServerService.RollBack` | apps/server/src/servers/server-service.ts:69-78 | the catch block of update and setCredential |
| `ServerServices.ServerService.DeleteCredential` | apps/server/src/servers/server-service.ts:103-117 | deleteCredential with its compensation |
| `ServerServices.ServerService.Remove` | apps/server/src/servers/server-service.ts:119-144 | remove with its compensation and its busy and missing cases |
| `ServerTheorems.KeepsInvExactly` | apps/server/src/servers/server-service.ts:42-144 | for every pattern of failing calls each credential id still resolves, except exactly when deleteCredential or remove deleted the secret, the write failed and putting it back failed |
| `ServerTheorems.AllOrNothingExactly` | apps/server/src/servers/server-service.ts:42-144 | input, credential kind and secret that every record shows are as asked for if the write was committed and as before if not; this fails exactly when the operation dangles or overwrote the old secret and could not put it back |
| `ServerTheorems.SuccessMeansCommitted` | apps/server/src/servers/server-service.ts:42-144 | the caller is told of success exactly when the write was committed and a replaced secret of another kind was deleted |
| `ServerTheorems.ErrorsExactly` | apps/server/src/servers/server-service.ts:42-144 | the caller is told of the first thing that went wrong: invalid input, then a missing server, then one in use, then the credential store, then the repository; of success if nothing went wrong; never of a malformed credential id |
| `ServerTheorems.RollsBackExactly` | apps/server/src/servers/server-service.ts:49-52 | if compensations succeed, a write that was not committed leaves the records as they were, and both stores exactly as they were unless it leaks |
| `ServerTheorems.TightExactly` | apps/server/src/servers/server-service.ts:64-77 | an operation leaves a secret that no record refers to exactly under the condition Leaks, for example a failed write with a credential of another kind |
| `ServerTheorems.RunKeepsInv` | apps/server/src/servers/server-service.ts:42-144 | in every run, whatever fails, every credential id resolves as long as no operation dangled |
| `ServerTheorems.SuccessesKeepStoresEqual` | apps/server/src/servers/server-service.ts:42-144 | after a run of successful operations the stored keys are exactly the referenced ids |
| `ServerTheorems.UnreadableSecretBlocks` | apps/server/src/servers/server-service.ts:60-62 | a server whose secret cannot be read can neither be changed nor removed |
| `ServerTheorems.EmptySecretBlocks` | apps/server/src/credentials/keyring-store.ts:41-45 | without any failing call: a server created with an empty secret is created with success, and after that no operation on it succeeds or changes anything |
| `LogStore.FilesAreSuffix` | apps/server/src/runtime/log-store.ts:21-35 | after any appends archive-4 to archive-1 followed by current are a suffix of everything written, in order |
| `LogStore.AppendKeepsOrder` | apps/server/src/runtime/log-store.ts:27-34 | an append loses nothing but archive-4, and that only when the line would make current.log longer than 1048576 bytes |
| `LogStore.BytesOfLine` | apps/server/src/runtime/log-store.ts:30 | what is counted for a line are the bytes of its UTF-8 encoding and of one newline |
| `LogStore.FilesAreBounded` | apps/server/src/runtime/log-store.ts:30-34 | there are at most five files, and each holds at most 1 MiB or one single line |
| `LogStore.FilesFit` | apps/server/src/runtime/log-store.ts:30-34 | if every encoded line with its newline fits into 1 MiB, so does every file |
| `LogStore.MemoryIsTail` | apps/server/src/runtime/log-store.ts:23-26 | the memory is the last min(n, 200) lines of the same history |
| `LogStore.MemoryAndFilesAgree` | apps/server/src/runtime/log-store.ts:21-35 | of memory and files the shorter is the end of the longer |
| `LogStore.ReadsBackExactly` | apps/server/src/runtime/log-store.ts:40-43 | current.log is read back as written if and only if each of its lines is non-empty, has no line feed and does not end in a carriage return |
| `LogStore.RestartReadsSuffix` | apps/server/src/runtime/log-store.ts:40-44 | if all lines are of that kind, a store without memory reads the end of the history back from current.log |
| `LogStore.RenameShifts` | apps/server/src/runtime/log-store.ts:55-59 | each rename of the loop moves a file into a free slot |
| `LogStore.FileLogStore.Rotate` | apps/server/src/runtime/log-store.ts:53-61 | the downward loop moves every file one slot up and loses only archive-4 |
| `LogStore.FileLogStore.Append` | apps/server/src/runtime/log-store.ts:21-35 | append changes memory and files as the two specification functions say |
| `LogStore.FileLogStore.Trim` | apps/server/src/runtime/log-store.ts:25 | shifting from the front leaves the last 200 lines |
| `LogStore.FileLogStore.Read` | apps/server/src/runtime/log-store.ts:37-45 | read returns the last lines from memory, else from current.log, else nothing |
| `Redaction.NoSecretSurvives` | apps/server/src/runtime/log-store.ts:47-51 | a registered secret that is clear of the marker does not occur in the redacted line, whatever the order and overlap of the secrets |
| `Redaction.DisjointIsClear` | apps/server/src/runtime/log-store.ts:49 | a secret that shares no character with [REDACTED] is clear of it |
| `Redaction.HiddenExactly` | apps/server/src/runtime/log-store.ts:47-51 | redaction hides a secret in every line and among all other secrets if and only if it is clear of the marker: wherever it is laid over [REDACTED], some character disagrees |
| `Redaction.UnclearReappears` | apps/server/src/runtime/log-store.ts:49 | for a secret that is not clear, the line and the second secret that make it reappear |
| `Redaction.Redact` | apps/server/src/runtime/log-store.ts:47-51 | the loop over the set computes RedactAll |
| `Strings.ReplacesWhole` | apps/server/src/runtime/log-store.ts:49 | replaceAll cuts the text at its leftmost occurrences, takes each of them out whole, and leaves the pieces between them as they are and in order |
| `Redaction.RedactsWhole` | apps/server/src/runtime/log-store.ts:47-51 | the redacted line comes from the line by taking out the secrets one by one, each occurrence whole and replaced by [REDACTED], and nothing else |
| `AgentRegistryModel.RunKeepsInv` | apps/control-plane/src/agents/agent-registry.ts:36-78 | the invariant holds in every order of attach, detach, revoke, request, response and timeout |
| `AgentRegistryModel.SettlesOnce` | apps/control-plane/src/agents/agent-registry.ts:63-77 | a sent request is settled at most once; until then it has its timer and exactly one key, afterwards neither |
| `AgentRegistryModel.OnlySentIsSettled` | apps/control-plane/src/agents/agent-registry.ts:63-77 | what was not sent is never settled |
| `AgentRegistryModel.SettlementHasCause` | apps/control-plane/src/agents/agent-registry.ts:63-77 | over a run every settlement has its event: a response with the same outcome, the timeout, or the send that failed |
| `AgentRegistryModel.CauseSettles` | apps/control-plane/src/agents/agent-registry.ts:63-77 | and each such event settles its request at once and with that outcome |
| `AgentRegistryModel.RequestGoesOut` | apps/control-plane/src/agents/agent-registry.ts:58-62 | a request is sent if and only if its agent has a socket that is ready; otherwise nothing changes |
| `AgentRegistryModel.ResponsesReach` | apps/control-plane/src/agents/agent-registry.ts:73-77 | a response settles only a request to the same agent, or to one whose id continues the sender's id with a colon |
| `AgentRegistryModel.OnlyTheAddresseeAnswers` | apps/control-plane/src/agents/agent-registry.ts:73-77 | with agent ids without a colon a response settles only a request that was sent to that agent |
| `AgentRegistryModel.ReachIsExact` | apps/control-plane/src/agents/agent-registry.ts:64-73 | the condition is exact: a run in which the other agent answers |
| `AgentRegistryModel.SocketIsTheLatest` | apps/control-plane/src/agents/agent-registry.ts:36-56 | an agent has exactly the socket that was attached last and not detached or revoked since; a late close of a replaced socket does not count |
| `AgentRegistryModel.SocketsAreAccounted` | apps/control-plane/src/agents/agent-registry.ts:36-56 | every attached socket is still held, was closed by the registry, or was detached |
| `AgentRegistries.AgentRegistry.Request` | apps/control-plane/src/agents/agent-registry.ts:58-68 | request is the Request step, the pending entry of a failed send taken back |
| `AgentRegistries.AgentRegistry.Accept` | apps/control-plane/src/agents/agent-registry.ts:73-77 | accept of a response is the Accept step |
| `AgentRegistries.AgentRegistry.Attach` | apps/control-plane/src/agents/agent-registry.ts:36-40 | attach is the Attach step: the previous socket is closed and replaced |
| `AgentRegistries.AgentRegistry.Detach` | apps/control-plane/src/agents/agent-registry.ts:42-45 | detach is the Detach step: only the socket named is removed |
| `AgentRegistries.AgentRegistry.Expire` | apps/control-plane/src/agents/agent-registry.ts:64 | the timer is the Timeout step |
| `PosixCommand.QuotePosixReadsBack` | apps/server/src/ssh/posix-command.ts:12-14 | in any unquoted context, in a word, between tokens or right after an operator, the shell reads quotePosix(v) as exactly the characters of v, all literal |
| `PosixCommand.ShellQuoteReadsBack` | apps/bridge/src/main.rs:787-789 | the same for shell_quote |
| `PosixCommand.QuotedIsOneWord` | apps/server/src/ssh/posix-command.ts:12-14 | at a word boundary either quotation is exactly the one word v |
| `PosixCommand.DetachedCommandReads` | apps/server/src/ssh/posix-command.ts:16-26 | the words of the built command: working directory and command each one whole literal word, whatever they are; and for an application id without quotes, backslashes and expansions all tokens, the log path one word |
| `PosixCommand.BridgeCommandReads` | apps/bridge/src/main.rs:757-771 | the same for the command of start_remote, whose application id has to be plain for the rest |
| `PosixCommand.DetachedCommandText` | apps/server/src/ssh/posix-command.ts:16-26 | the parts of the built command, put together, are the text that the source joins |
| `PosixCommand.BridgeCommandText` | apps/bridge/src/main.rs:757-771 | the same for the text that start_remote formats |

## Left out

- RuntimeTheorems.RestIsBalanced: a run of the machine has no shutdown, because shutdown closes the pool under connects that are still running; shutdown is modelled up to its first resumed await.
- RuntimeService.AppRuntimeService.Shutdown: does not model the two closeAll calls that follow; the pool and the tunnel manager have their own.
- RuntimeService.AppRuntimeService.ConnectInternal: the call without interference, from its first statement after the record lookups to its last; interleavings are those of the state machine.
- LogStore.FileLogStore.Append: takes the line after the pattern for sensitive keys was applied, which may be any text, and takes creation of the directory for granted.
- SshConfig.ParseOnServer: expandIdentityFile is an arbitrary function and so is Number for a text that is neither blank nor decimal digits.
- PosixCommand.DetachedCommandReads: says how the words are read, not what the command does; mkdir and what follows it are joined by a blank without a separator.  The application id stands inside double quotes, so one with a quote, a backslash or an expansion is not claimed to stay in one word; random ids have none.
- PosixCommand.BridgeCommandReads: the bridge writes the application id without any quotation, so only one of plain characters is claimed to stay in one word.
- Redaction.HiddenExactly: names a character that the secret does not contain; a secret made of all characters there are is not covered.
- Event bus: only the last published status per application (part of the runtime state); subscribers and whole snapshots are left out.
- Lower-casing of directives beyond ASCII: no supported directive is affected.
- The rest of the bridge, whose tunnels rest on cancellation in its asynchronous runtime.
- ssh2, sockets, fetch, SQLite, the native keyring and HTTP routing: abstract operations that succeed or fail.
- Validation schemas, sessions and cookies, pairing codes and the user interface: single checks without state worth a proof.
- Agent events, listing and authentication of agents: direct reads of the database.
