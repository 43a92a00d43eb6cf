# caochuan in Dafny

caochuan forwards TCP and UDP ports and tunnels them through clients that dial in from behind NAT.
The sockets are plumbing; what can go wrong sits in the state around them: id tables, two
reconcilers, a versioned cache, counters that several goroutines change, a token bucket, lockouts
and binary framing. This project models that state and proves what it keeps.

Code that changes things step by step appears as classes and loops proved against functions of the
old state. Goroutines appear as interleaved atomic steps, cut where the source takes a mutex or uses
an atomic operation, and the theorems are about every run of those steps. Binds, saves, dials,
writes, the clock and map iteration order are the environment's choice: a theorem holds whatever
they turn out to be. `dafny verify dfyconfig.toml` checks everything.

| file | what it models |
|---|---|
| `Streams.dfy`, `Frames.dfy`, `Writers.dfy` | chunked byte streams, the JSON and UDP frame formats, writers behind one mutex |
| `Visitors.dfy`, `UdpTunnel.dfy` | the visitor table of a UDP relay, and both ends of UDP over the tunnel with streams that die and reopen |
| `UdpStreams.dfy`, `UdpConversations.dfy`, `UdpRequests.dfy`, `UdpOrder.dfy`, `UdpConservation.dfy`, `UdpSockets.dfy` | about the runs of that: which stream is current, conversations that work before and after a stream dies, the order of packets and of answers, where each of them is, and the sockets a stream leaves behind |
| `Rules.dfy`, `Acl.dfy`, `Dialing.dfy` | rule validation and port checks, access lists, target lists and balanced dialling |
| `Reconciler.dfy`, `ServerState.dfy`, `ServerEffects.dfy`, `Server.dfy` | the diff of rules against listeners, the configuration operations as functions over whole runs, what each of them achieves, and the server object that carries them out in place |
| `Reverse.dfy`, `ReverseMgr.dfy` | reverse rules: the client's reconciler and its object |
| `ReverseOverlap.dfy`, `ReverseLeaks.dfy` | the same when pushes and the end of a session meet starts still pending: what a push achieves, when binds clash, which listeners nobody closes |
| `Broadcast.dfy`, `ControlLink.dfy` | what is pushed to a client, and the control stream that carries it, byte by byte |
| `Blacklist.dfy`, `BlacklistEdits.dfy` | the versioned blacklist cache of the accept loops, and the server's operations as its steps |
| `ConnCap.dfy`, `Sessions.dfy` | the connection cap; token check, session takeover and what ends a session |
| `Lockout.dfy`, `LockoutVerdicts.dfy` | the lockout machine: how many failures it lets through, and whom it turns away for how long |
| `Limiting.dfy` | the token bucket, the pipes that share it, and the copying loop as moves of them |
| `Socks.dfy`, `ProxyHeader.dfy` | the SOCKS5 handshake (RFC 1928) and PROXY headers (HAProxy PROXY protocol, sections 2.1 and 2.2) |
| `Maps.dfy` | facts about finite maps, and one step of a range loop |

## Where the code falls short of what one would expect

Each of these is a theorem, with the exact condition or a concrete run that shows the failure.

- A JSON body of exactly 65536 bytes passes the writer's size check, but its 16-bit length is 0 and the
  reader rejects it; the comment at proto/proto.go:17 promises 64 KB (`Frames.JsonRoundTripIff`).
- The binary PROXY header for two IPv4 addresses declares 16 address bytes where 12 follow, so a reader
  takes four bytes of payload for part of it (`ProxyHeader.V2RoundTripIff`).
- An import does not check ports, so the reconciler may try to bind a port that one of its own runners
  still holds (`ServerState.ImportNeverClashesIff`, `ServerState.MovedPortClashes`); and it does not
  bump the blacklist version, so accept loops keep the old list (`Blacklist.ImportIsLinearizableIff`).
- When saving fails, deleting a rule and adding or deleting a client stay in effect in memory although
  an error is returned (`ServerState.FailureIsRolledBackIff`).
- A reverse rule's start that binds or registers after its session has ended leaves a listener that no
  later stopAll closes; and so does, within a session, a start that a later push has overtaken. A session
  ends clean exactly when no pending start may still bind, every listener has its rule, and no socket is
  lost (`ReverseLeaks.SessionEndsCleanIff`). A listener is without a rule exactly when a start registered it
  after its rule had gone, or a failed start took the rule away, and no later push has brought one
  (`ReverseLeaks.EntriesAreStrandedIff`); a socket is lost exactly when another registration replaced its
  entry (`ReverseLeaks.SocketsAreLostIff`). `ReverseLeaks.OvertakenStartIsStranded` is such a run.
- A push that may swap ports when no start is pending may clash with one that is
  (`ReverseOverlap.PushNeverClashesIff`, `ReverseOverlap.PendingStartClashes`); and a listener that
  an overtaken start registers may be on another port than the rule it is filed under
  (`ReverseOverlap.PushListensOnPortIff`).
- A client deleted after its token was looked up and before its session is registered comes online
  nevertheless, and exactly then (`Sessions.OpenSessionIsIllegitimateIff`, `Sessions.DeletedInBetween`).
- When a UDP stream ends, its dispatcher leaves exactly those backend sockets open that the late cleanup of
  an older one had taken out of the table (`UdpSockets.LeaveLeavesOpenIff`, `UdpSockets.ASocketIsLeftOpen`).
- A rule change reaches the client exactly when its push has at most 65535 bytes, no earlier push had
  exactly 65536, and no push went out before the control stream's header
  (`ControlLink.CurrentRulesArriveIff`). A longer push is dropped while the operation reports success
  (`ControlLink.OversizedPushIsLost`), an early one costs the client its control stream
  (`ControlLink.EarlyPushDropsTheClient`), and overlapping ones may arrive in the wrong order
  (`ControlLink.OverlapMayDeliverOldRules`).
- The lockout counts failures, not attempts: with k attempts of one source under way at once, its limit is
  maxFails + k failures, and that is exact (`Lockout.LockoutRateIff`).
- Two connections that arrive together under a cap of one may both be refused (`ConnCap.BothMayBeRefused`).
- After 2^63 draws the round robin index can turn negative, which panics (`Dialing.IndexPanicsIff`);
  two of n visitors alive at once share an id exactly when n exceeds 2^32 (`Visitors.CrowdCollidesIff`).
- A sweep takes two clock readings, so it spares the entry of the packet in hand only if they lie at most
  90 s apart (`Visitors.SweepIsExact`).

## Model

| member | source | states |
|---|---|---|
| Streams.Conn.ReadFull | proto/proto.go:78-91 | succeeds exactly when enough bytes are still to come, in whatever chunks, and takes exactly those off the stream |
| Frames.ParseUdpInvertsEncode | proto/proto.go:111-137 | a frame followed by anything reads back as itself and leaves exactly the rest |
| Frames.UdpLayout | proto/proto.go:111-120 | the bytes of a frame: id and length, most significant byte first, then the payload |
| Frames.EncodeInvertsParseUdp | proto/proto.go:123-137 | whatever is read as a frame is the encoding of a sendable packet |
| Frames.ProperPrefixIsIncomplete | proto/proto.go:123-137 | no proper prefix of a frame is read as a frame |
| Frames.ParseAllInvertsEncodeAll | proto/proto.go:110-137 | any sequence of frames with an incomplete tail parses back to exactly that sequence and tail |
| Frames.EncodeAllInvertsParseAll | proto/proto.go:123-137 | every byte string is, in one way, a run of whole frames and an incomplete tail |
| Frames.WireIsQueue | proto/proto.go:110-137 | a wire of whole frames behaves as a queue of packets |
| Frames.JsonRoundTripIff | proto/proto.go:78-108 | an accepted body comes back exactly when it has 1 to 65535 bytes; the accepted one of 65536 bytes does not |
| Frames.ParseJsonAllInvertsEncode | proto/proto.go:78-108 | a control stream of such bodies parses back to exactly those bodies |
| Frames.DataStreamRoundTrip | proto/proto.go:1-6 | header then UDP frames: the header reader leaves the frame reader exactly the first frame |
| Frames.WriteUdpPacket | proto/proto.go:110-121 | refuses payloads over 65535 bytes without writing; otherwise puts the whole frame on the wire, or a prefix if the wire breaks |
| Frames.ReadUdpPacket | proto/proto.go:123-137 | reads the first frame of the bytes to come, independently of their chunking, and fails exactly when they end inside it |
| Frames.ReadPackets | client/client.go:252-257 | the receive loop gets every whole frame of the stream, in order |
| Frames.WriteJsonFrame | proto/proto.go:94-108 | refuses bodies over 65536 bytes; otherwise writes the truncated length and the body in one piece |
| Frames.ReadJsonFrame | proto/proto.go:78-91 | reads one body under every chunking; a zero length or a short stream is an error |
| Writers.WireIsFramesInLockOrder | client/client.go:234-239 | for any number of writers and partial writes, the wire parses as whole frames in lock order, and as all of them when the mutex is free |
| Visitors.VisitorTable.OnPacket | server/forward.go:368-397 | one datagram's locked section: access check, limit, id, refresh, sweep every 64 packets |
| Visitors.VisitorTable.SweepIdle | server/forward.go:387-395 | removes exactly the entries idle for more than 90 s, in any iteration order, and gives their count back to the gauge |
| Visitors.VisitorTable.Lookup | server/forward.go:322-330 | finds an address filed under the id, or there is none |
| Visitors.TableInvariant | server/forward.go:373-395 | over every run below 2^32 ids: each entry carries its own address and an id in 1..nextID handed to it, a positive limit is kept, the gauge equals its start plus the entries |
| Visitors.AdmissionIff | server/forward.go:368-386 | in every run a datagram is forwarded exactly if its source is allowed and is known or finds room under the limit, under the source's own id or the next one; any other changes nothing |
| Visitors.IdServesOneAddress | server/forward.go:379-384 | two entries with one id at any two moments of a run, however much expired in between, belong to one address |
| Visitors.SweepIsExact | server/forward.go:385-395 | after a sweep every survivor was seen within 90 s, nothing else is lost, and exactly when the packet in hand keeps its entry |
| Visitors.FreshIdCollidesIff | server/forward.go:379-382 | a new visitor makes ids collide exactly when the wrapped next id is still live |
| Visitors.CrowdCollidesIff | server/forward.go:379-382 | in a run in which n visitors come within 90 s, two live entries share an id exactly when n exceeds 2^32 |
| UdpTunnel.Dispatcher.FindOrDial | client/client.go:258-281 | the dispatcher's locked section: the connID's socket, a new one filed under it, or none |
| UdpTunnel.Dispatcher.WriteTo | client/client.go:282-289 | writes the payload to the socket, or forgets and closes it |
| UdpTunnel.Dispatcher.Close | client/client.go:243-250 | closes exactly the sockets in the table |
| UdpTunnel.DispatchKeepsInv | client/client.go:258-281 | finding or dialling keeps every id that travels tied to the visitor it was handed to |
| UdpTunnel.FeedKeepsInv | client/client.go:282-289 | so does writing to a backend, whatever happened to the socket since it was found |
| UdpTunnel.SocketEndsKeepsInv | client/client.go:274-277 | so does a backend goroutine's cleanup, which deletes by connID |
| UdpTunnel.RunKeepsInv | server/forward.go:298-406 | every interleaving of receive loop, dispatchers, backend goroutines and stream readers keeps every id that travels tied to the visitor it was handed to; what it does with streams is the next four rows |
| UdpStreams.CurrentStreamIsTheOneRead | server/forward.go:298-319 | in every run a stream is being read exactly when it is the relay's current one, so at most one is |
| UdpStreams.DeathForgetsOnlyItself | server/forward.go:312-319 | the reader of a failed stream forgets that stream if it is the current one, and leaves any other one, and all else, as it is |
| UdpStreams.StreamIsCurrentUntilItDies | server/forward.go:298-319 | in every run a stream that has become current stays so exactly until it dies, and never comes back |
| UdpStreams.PacketGoesToALiveStream | server/forward.go:399-401 | in every run a packet is bound to a stream that is alive; one is opened exactly when none is alive and the client is online, and the packet is dropped exactly when it is offline then |
| UdpTunnel.RepliesReachTheirOwnVisitor | server/forward.go:298-407 | below 2^32 ids, whatever a visitor gets was read from a socket made for one of its own ids and fed by nobody else |
| UdpTunnel.ReplyIsDroppedIffEntryIsGone | server/forward.go:322-335 | a reply is dropped at the lookup exactly when its visitor's entry no longer carries its id |
| UdpOrder.StepKeepsOrder | client/client.go:264-278 | every step keeps the replies of each socket in the order in which it read them, unaltered |
| UdpOrder.RepliesKeepTheirOrder | server/forward.go:309-337 | in every interleaving a delivered reply is an answer its socket read, and of two from one socket the one delivered first was read first: none is altered, doubled or overtaken |
| UdpRequests.StepKeepsOrder | client/client.go:252-289 | every step keeps the packets for each socket in the order in which they were let in, unaltered |
| UdpRequests.RequestsKeepTheirOrder | server/forward.go:360-406 | in every interleaving a packet written to a backend is a datagram that was let in, and of two to one socket the one let in first is written first: none is altered, doubled or overtaken |
| UdpConservation.NothingIsLostButByFailures | server/forward.go:298-407 | in every run the packets let in are those in hand, under way or heard by a backend, plus one for each step that failed; and the answers read are those unframed, under way or delivered, plus one for each step that failed |
| UdpConversations.ConversationCompletes | client/client.go:233-291 | a first packet does reach a backend and the answer its visitor |
| UdpConversations.NewStreamServes | server/forward.go:298-407 | whenever no stream is alive, however that came about, the next packet let in opens one, reaches a backend unaltered, and the answer reaches its visitor |
| UdpConversations.ConversationResumes | server/forward.go:312-319 | a run in which the stream dies between two packets of a visitor: the second one goes over a new stream, and both answers arrive |
| UdpConversations.SecondPacketSharesTheSocket | client/client.go:258-289 | without a death the second packet goes over the same stream to the same socket, and both answers arrive in order |
| UdpSockets.LeaveLeavesOpenIff | client/client.go:243-250 | in every run, an open socket of a stream that ends stays open exactly when the late cleanup of an older socket of the same connID had deleted its entry |
| UdpSockets.LeftSocketsEndThemselves | client/client.go:266-277 | whatever happens afterwards, such a socket is closed when its own goroutine ends, and by nothing else |
| UdpSockets.LeavingIsFinal | client/client.go:243-257 | a dispatcher that has left dials no socket again and writes to none, in any continuation |
| UdpSockets.EndingIsFinal | client/client.go:266-277 | a socket whose goroutine has ended stays closed and silent, in any continuation |
| UdpSockets.ASocketIsLeftOpen | client/client.go:274-289 | a run that leaves one: a failed write, a new socket, and the cleanup of the old one |
| Dialing.ParseTargets | relay/proxyproto.go:37-46 | the trimmed non-empty fields, in order |
| Dialing.ParseInvertsJoin | relay/proxyproto.go:37-46 | parsing inverts joining with commas, and yields clean targets only |
| Dialing.RoundRobin.DialBalanced | server/forward.go:87-104 | draws one counter value and tries one position after the other up to the first reachable target or negative index, for every counter; below 2^63 that is cyclic order, none twice, and it fails exactly when none is reachable |
| Dialing.CycleVisitsEach | relay/proxyproto.go:18-21 | one round comes to every target exactly once |
| Dialing.IndexPanicsIff | server/forward.go:92-95 | the index is negative exactly when the wrapped sum is and is no multiple of the list length; below 2^63 it is the plain remainder |
| Dialing.FirstChoicesClosedForm | server/forward.go:92-95 | how often a target is at the first index of m successive calls, each drawing what the last one left, in closed form, for counters below 2^63 |
| Dialing.RoundRobinIsFair | server/forward.go:92-95 | that is floor(m/n) or ceil(m/n) |
| Limiting.PollIsBounded | relay/limiter.go:37-46 | one refill and take keeps tokens in [0, rate] and spends no more than was there or earned |
| Limiting.ServedIff | relay/limiter.go:40-46 | a request can ever be granted exactly when it is at most one second's quota, as all 16 KB chunks and datagrams are |
| Limiting.WindowBound | relay/limiter.go:30-52 | over any window of any interleaving of waiters, the bytes granted are at most rate plus rate times its span |
| Limiting.WrittenBound | relay/relay.go:43-50 | all directions of all pipes on one bucket write at most rate * (1 + t) bytes by time t |
| Limiting.LoneSenderPace | relay/limiter.go:47-49 | a lone sender with exact sleeps finishes S bytes at max(0, (S - rate) / rate) |
| Limiting.SecondPollIsGranted | relay/limiter.go:43-49 | after sleeping at least the requested time a lone waiter is granted |
| Limiting.NewLimiter | relay/limiter.go:18-27 | nil exactly for a non-positive limit, else a full bucket of at least 131072 bytes a second |
| Limiting.Limiter.TryTake | relay/limiter.go:37-46 | one pass of the loop under the mutex |
| Limiting.RoundsArePolls | relay/limiter.go:36-51 | a waiter's rounds, with what others polled during its sleeps, are one sequence of polls of the bucket |
| Limiting.Wait | relay/limiter.go:30-52 | for requests of any size and among any other waiters: granted exactly if at most one second's quota; refused and asleep long enough, again and again, until then, at the latest the second time after the others stop; the bucket sees exactly the polls of all in the order of their times |
| Limiting.ChargeAndWrite | relay/relay.go:43-50 | the whole chunk is granted by the bucket, among any other waiters, before any of it is written |
| Limiting.CopyChunk | relay/relay.go:59-67 | one turn moves at most 16 KB; to the pipes that share the limiter it is an Ask, granted, and then a Wrote of what went through, and the bucket has lost at least that |
| Limiting.CopyDirection | relay/relay.go:24-34 | one direction delivers the source's bytes once and in order until the source ends or the sink breaks, as a run of such moves: never more bytes than the bucket held at the start plus rate times the time passed |
| Limiting.FollowingSpends | relay/relay.go:43-50 | for any run of moves of the pipes: what one direction has written was in the bucket or has been earned since, however much others take |
| ConnCap.CapHolds | server/forward.go:120-130 | in every interleaving at most MaxConns handlers are past the check, the counter returns to its start, and who is refused |
| ConnCap.BothMayBeRefused | client/reverse.go:207-214 | two handlers that add before either loads are both refused under a cap of one |
| Sessions.Registry.Takeover | server/server.go:261-267 | closes the session in the map for the name and takes its place; what that means for all others is the next two rows |
| Sessions.RegistrationSparesOthers | server/server.go:261-267 | in every run a registration closes the session that was online under its own name and no other, and every other name keeps its session |
| Sessions.SessionEndsIff | server/server.go:261-284 | in every run a registered session is closed exactly if, since then, it was closed by the network, a session was registered under its name, its client was deleted, or an import came without its name; until then it is the one online |
| Sessions.Registry.CleanUp | server/server.go:279-284 | removes the entry only if it is the handler's own |
| Sessions.OpenSessionsAreTheRegisteredOnes | server/server.go:259-284 | in every interleaving, also with clients deleted or imported, a registered session that is open is the one in the map for its name; after all cleanups the map holds exactly the open ones |
| Sessions.CleanupSparesSuccessor | server/server.go:279-284 | a late cleanup ends its own handler, takes out its own session's entry, and leaves every other entry alone |
| Sessions.OpenSessionIsIllegitimateIff | server/server.go:236-267 | an open session belongs to a client that is not configured exactly when that client was removed between the token check and the registration and has not come back since |
| Sessions.DeletedInBetween | server/state.go:299-317 | such a run |
| Lockout.FailTable.Admit | server/server.go:212-217 | drops exactly the stale records and admits exactly the sources that are not locked |
| Lockout.FailTable.Record | server/server.go:302-318 | counts a failure, or locks for ten minutes and starts counting again |
| Lockout.FailTable.Forget | server/server.go:245-247 | a success removes the source's record |
| Lockout.LockoutRate | server/server.go:86-96 | over every run with at most k attempts of a source at once, any maxFails + k of its failures without a success between them span at least the blocking time, despite sweeps and count resets |
| Lockout.LockoutRateIff | server/server.go:211-240 | and no smaller number does: the bound holds for all such runs exactly from maxFails + k on, so maxFails + 1 exactly when attempts do not overlap |
| Lockout.LockoutInstances | panel/panel.go:350-388 | so 10 + k bad tunnel tokens from a non-loopback host, or 5 + k bad panel passwords, take at least 10 minutes |
| Lockout.OverlappingAttemptsEscape | server/server.go:211-240 | without a bound on the overlap any number of failures may fall on one moment |
| LockoutVerdicts.VerdictIff | server/server.go:211-217 | in every run, for a source whose failures come at most the blocking time apart: an attempt is turned away exactly if the source is not exempt and its last failure to complete a group of maxFails is less than the blocking time ago; and its record is kept exactly as long as it matters |
| LockoutVerdicts.RefusalHasCause | server/server.go:205-217 | in every run: a source that is turned away has failed at least maxFails times since its last success, the last of these locks less than the blocking time ago; so every lock ends, a success clears it, and nobody else's failures count |
| Acl.BuildAcl | config/config.go:78-95 | the compiled list, or the error of the first entry that does not parse |
| Acl.AclMeaning | config/config.go:97-114 | an unparsable entry is an error; otherwise an address is let through exactly when the list is empty or an entry covers it |
| Acl.PrefixCoversIff | config/config.go:97-114 | a prefix of n bits covers exactly the addresses of its family with the same first n bits |
| Acl.AddressCoversIff | config/config.go:97-114 | any other entry covers exactly the address it is |
| Acl.EitherFormIsCovered | config/config.go:97-114 | an IPv4 address counts the same in its IPv6 form, in an entry and in a visitor |
| Acl.BlocksIff | server/forward.go:34-37 | a blacklist blocks exactly the addresses that an entry covers, if all entries parse |
| Blacklist.AcceptLoop.constructor | server/forward.go:54-61 | an accept loop starts with the list and version it read under the lock |
| Blacklist.AcceptLoop.Refresh | server/forward.go:69-77 | recompiles exactly when the version read differs from its own |
| Blacklist.RecompilesOncePerEdit | server/forward.go:69-77 | in every run a loop compiles the list again at most once for each edit saved since the version it has |
| Blacklist.StepKeepsInv | server/forward.go:69-77 | a loop whose version is current holds the compiled configured list, at every step |
| Blacklist.DecisionIsLinearizable | server/state.go:350-364 | in every interleaving of accept loops with edits and imports, saved or not, a verdict is, address by address, what the entries of a list configured between the version read and the decision say, unless an import was saved between the loop's last compilation and the read |
| Blacklist.WithoutImportsLinearizable | server/state.go:350-364 | so every verdict is, when SetIPBlacklist is the only writer |
| Blacklist.ImportIsLinearizableIff | server/state.go:388-396 | after an import in any reachable state, a waiting loop's next verdict is one exactly when the loop was behind anyway or the lists give the same verdicts |
| BlacklistEdits.OperationsAreBlacklistSteps | server/state.go:350-396 | every operation leaves the list and its version as they are, or is one writer's Begin, save and Unlock of the blacklist machine, agreeing with it before and after |
| BlacklistEdits.RunsAreBlacklistRuns | server/state.go:350-396 | so every run of operations is a run of that machine |
| BlacklistEdits.EditOutcome | server/state.go:350-364 | an edit is refused exactly if an entry does not parse; saved, it replaces the list and raises the version; else it changes neither |
| BlacklistEdits.SavedEditIsEnforced | server/forward.go:69-77 | after a saved edit, a waiting loop whose version is no newer than the one before enforces exactly the new entries on its next connection |
| Rules.ValidateRule | server/state.go:81-136 | no complaint exactly when the rule breaks none of the fourteen conditions; otherwise the first one broken in the order of the checks |
| Rules.WellFormedIff | server/state.go:81-136 | the fourteen conditions |
| Rules.PortConflict | server/state.go:139-152 | the first rule that wants the port at the same place, or there is none |
| Reconciler.Desired | server/server.go:324-330 | exactly the enabled server-side rules, by id |
| Reconciler.DesiredIsTheLast | server/server.go:324-330 | of rules with one id, the last that is enabled and not the client's |
| Reconciler.ApplyConserves | server/server.go:323-354 | every listener ever opened belongs to exactly one runner or was stopped exactly once |
| Reconciler.ReplacedRunnersAreStopped | server/server.go:331-353 | a runner whose rule is unchanged is not stopped, every other one is stopped once |
| Reconciler.ApplyReconciles | server/server.go:323-354 | for every iteration order and outcome of binds: each runner has the protocol, port, target and client of its rule; a runner from before is the same object, never stopped, exactly if its rule has all four as it had them, else stopped once; a rule has a runner exactly if it kept one, or is tcp or udp and its bind worked |
| Reconciler.ApplyNeverClashesIff | server/server.go:331-347 | no bind meets another live runner, in any order, exactly when no rule to be started has a rival |
| Reconciler.RivalsClash | server/server.go:331-347 | two rivals: an order that makes a bind clash |
| ServerState.OpKeepsLive | server/state.go:154-265 | from any configuration, every operation keeps listeners accounted for, runners following rules, and notifier and settings equal |
| ServerState.OpKeepsWellFormed | server/state.go:81-136 | every operation keeps all stored rules passing the check |
| ServerState.ReachableStatesAreSound | server/state.go:154-452 | so does every run, imports included, from any configuration; and if the configuration's rules pass the check, no rule ever names an unregistered client |
| ServerState.FailureIsRolledBackIff | server/state.go:284-317 | a refused operation changes nothing; a failed save changes nothing exactly for the operations that roll back |
| ServerState.ImportIsAllOrNothing | server/state.go:380-452 | an import takes over everything but the network identity, or leaves every field and the notifier as before |
| ServerState.AddedRuleIsApart | server/state.go:160-166 | a rule that passes the port check keeps ports apart |
| ServerState.ReplacedRuleIsApart | server/state.go:198-202 | so does a replaced one |
| ServerState.SwitchedRuleIsApart | server/state.go:238-250 | switching a rule needs no check to keep ports apart |
| ServerState.ChangeAtOneIdHasNoRivals | server/server.go:331-347 | after a change at one id that keeps ports apart, no rule to be started has a rival |
| ServerState.OpKeepsPortsApart | server/state.go:139-265 | every operation but import keeps ports apart and binds without clashes |
| ServerState.DisciplinedRunsNeverClash | server/state.go:139-265 | so does every run of them |
| ServerState.ImportNeverClashesIff | server/state.go:388-396 | an import is free of clashes exactly when no rule to be started has a rival |
| ServerState.MovedPortClashes | server/state.go:420-436 | a server running one rule that imports another with its port under a new id, both configurations passing all checks, may bind its own port |
| ServerEffects.AddOutcomeIff | server/state.go:154-176 | an addition is refused exactly if the rule breaks a condition or another rule has its port at the same place |
| ServerEffects.AddRuleMeans | server/state.go:154-176 | an added rule is stored last, enabled, under the new id, all else as given, and is listened for if its bind works |
| ServerEffects.UpdateOutcomeIff | server/state.go:178-204 | an update is refused exactly if there is no such rule, the new one breaks a condition, or another id has its port |
| ServerEffects.UpdateRuleMeans | server/state.go:178-212 | an update keeps place, id and switch of the first rule with the id, takes over all else, spares the other rules, and the new version is listened for |
| ServerEffects.DeleteRuleMeans | server/state.go:214-236 | a deletion takes out the first rule with the id, stops its listener once, and touches no other rule or listener |
| ServerEffects.SwitchMeans | server/state.go:238-265 | a switch changes nothing but the switch of the first rule with the id |
| ServerEffects.SwitchedRuleIsServedIff | server/state.go:238-265 | switched off, a rule's listener is stopped once and gone; switched on, it is listened for if its bind works |
| ServerEffects.AddClientMeans | server/state.go:284-297 | a new client goes to the end of the list; an empty or taken name is refused |
| ServerEffects.DeleteClientMeans | server/state.go:299-317 | a client leaves the list exactly if it is there and no rule refers to it |
| ServerEffects.SetNotifyMeans | server/state.go:527-542 | settings and notifier change together or not at all; unknown formats are refused for an address, else generic |
| ServerEffects.ImportOutcomeIff | server/state.go:380-412 | an import goes through exactly if it is saved, both lists parse and every rule meets the conditions against the imported clients |
| ServerEffects.DeleteUndoesAdd | server/state.go:154-236 | adding a rule under an unused id and deleting it restores the configuration |
| ServerEffects.SwitchingBackRestores | server/state.go:238-265 | so does switching a rule there and back |
| ServerEffects.UpdatingBackRestores | server/state.go:178-212 | so does updating a rule there and back |
| Server.Server.constructor | server/server.go:98-124 | a server that has read its configuration, with no listeners |
| Server.Server.StopRunner | server/server.go:335-338 | stops a rule's listener once and forgets it |
| Server.Server.StartRule | server/server.go:357-383 | binds and registers a listener, or leaves the rule without one |
| Server.Server.ApplyRulesLocked | server/server.go:323-354 | both range loops over live maps refine the reconciler for some order that visits every key once; each runner then has its rule's protocol, port, target and client, and is untouched exactly if it had them before |
| Server.Server.Boot | server/server.go:149-151 | reconciles once at the start |
| Server.Server.AddRule | server/state.go:154-176 | validates, checks the port, appends, saves, and reconciles or takes the rule back |
| Server.Server.UpdateRule | server/state.go:178-212 | the same for a replaced rule, which keeps its id and switch |
| Server.Server.DeleteRule | server/state.go:214-236 | removes the first rule with the id and stops its listener, also when saving fails |
| Server.Server.SetRuleEnabled | server/state.go:238-265 | switches a rule and reconciles, or switches it back |
| Server.Server.AddClient | server/state.go:284-297 | registers a new name; in memory also when saving fails |
| Server.Server.DeleteClient | server/state.go:299-317 | refuses while a rule refers to the client; otherwise removes it and closes its session |
| Server.Server.SetBlacklist | server/state.go:350-364 | replaces the list and bumps the version, or neither, as `BlacklistEdits` says |
| Server.Server.SetNotify | server/state.go:527-542 | sets both the settings and the notifier, or neither |
| Server.Server.CloseOrphans | server/state.go:422-433 | closes exactly the sessions of clients that are no longer registered |
| Server.Server.ImportConfig | server/state.go:380-438 | takes over, checks, saves, closes orphaned sessions and reconciles, or restores every field |
| Server.Server.Restore | server/state.go:441-452 | puts every imported field and the notifier back |
| Server.OperationsAreSessionSteps | server/state.go:284-317 | every operation leaves the configured names as they are or is the step that the session machine makes of it |
| ReverseOverlap.PushConverges | client/reverse.go:89-179 | in any state that a run reaches, starts pending or not: once all have settled, the client's rules agree with the push on id, protocol, port and target except those for which some start failed, and each has a listener in the map of its protocol |
| ReverseOverlap.RunsServe | client/reverse.go:89-179 | in every run, each rule to listen for has a listener in the map of its protocol or a start still to come, and unregistered sockets are on their rule's port |
| ReverseOverlap.PushListensOnPortIff | client/reverse.go:145-175 | that listener is on the rule's port exactly when the last start to register there had a rule with that port, or none did and it was there before |
| Reverse.SettledPushConverges | client/reverse.go:89-133 | for a push read when no start is pending: the same, and what has the pushed protocol, port and target already keeps its rule and socket, anything else has a new one |
| Reverse.DesiredIsTheLast | client/reverse.go:89-95 | of pushed rules with one id the last counts |
| Reverse.StepKeepsInv | client/reverse.go:89-179 | every step keeps each known rule in exactly one place and each open socket with one owner, if pushes and stopAll come when no start is pending |
| Reverse.ListenersPartitionTheRules | client/reverse.go:115-179 | in runs in which pushes and stopAll meet no pending start, the TCP and UDP maps partition the rule ids whenever all starts have settled, and all other sockets were closed exactly once |
| ReverseOverlap.RoundNeverClashesIff | client/reverse.go:135-179 | from any state, pending starts never make the client bind a port of its own, in any order, exactly when none waits for a port that is taken or that another waits for |
| ReverseOverlap.PushNeverClashesIff | client/reverse.go:95-112 | a push, starts pending or not, never clashes exactly when no goroutine will have to bind a port that the push leaves taken or that another has to bind |
| ReverseOverlap.SettledPushNeverClashesIff | client/reverse.go:95-112 | for a push read when no start is pending: exactly when no rule to be started shares a port with another pushed rule; old holders of ports, so swaps, do not matter |
| ReverseOverlap.PendingStartClashes | client/reverse.go:109-112 | a pending start makes the swap clash |
| ReverseLeaks.StopAllReaches | client/reverse.go:127-133 | in every run, stopAll leaves exactly those sockets open that are lost, not yet registered, or filed under an id without a rule; all others have been closed exactly once |
| ReverseLeaks.StopAllEmptiesAndClosesIff | client/reverse.go:127-133 | in every run, it empties all three maps exactly when every listener has its rule, and has then closed every socket exactly when also none is lost or unregistered |
| ReverseLeaks.SessionEndsCleanIff | client/reverse.go:135-179 | in any state that a run reaches: whatever pending starts do after the end, every socket stays closed exactly when each of them has failed to bind or has nothing to bind, every listener has its rule and no socket is lost |
| ReverseLeaks.RunEndsCleanIff | client/reverse.go:89-179 | the same in terms of the steps of the run that has led there |
| ReverseLeaks.EntriesAreStrandedIff | client/reverse.go:145-155 | in every run, a listener is without a rule exactly when it was registered after its rule had gone, or a failed start deleted the rule, and no later push has that id |
| ReverseLeaks.OvertakenStartIsStranded | client/reverse.go:96-100 | a rule pushed and taken back before its start has bound: nothing is pending or lost, and the session does not end clean |
| ReverseLeaks.LateStartIsNeverStopped | client/reverse.go:145-155 | a start that binds or registers afterwards leaves a listener without a rule that stopAll never closes |
| ReverseLeaks.SocketsAreLostIff | client/reverse.go:89-179 | in runs of any shape no socket is closed twice, and those nothing refers to any more are exactly those whose entry a registration replaced |
| ReverseMgr.ReverseMgr.Apply | client/reverse.go:89-113 | stops everything stale, then registers and launches exactly what is missing |
| ReverseMgr.ReverseMgr.StopStale | client/reverse.go:96-100 | ranging over a map while deleting from it stops exactly the stale rules |
| ReverseMgr.ReverseMgr.StopLocked | client/reverse.go:115-125 | closes and forgets whatever the id has |
| ReverseMgr.ReverseMgr.StopAll | client/reverse.go:127-133 | the same for every rule |
| ReverseMgr.ReverseMgr.Listen | client/reverse.go:145-146 | one start's bind, outside the mutex |
| ReverseMgr.ReverseMgr.Finish | client/reverse.go:146-175 | one start's critical section: register the listener, or drop the rule |
| Broadcast.PushRules | server/reverse.go:183-191 | the rules meant for one client, in order |
| Broadcast.PushFollowsOrder | server/reverse.go:183-191 | the push keeps the order of the rules and leaves out exactly those that are off, not the client's side's or another client's |
| Broadcast.DesiredOfPush | server/reverse.go:183-191 | with unique ids the client is to run exactly the enabled client-side rules for it, with every field as the server has it |
| Broadcast.PushMatches | server/reverse.go:182-191 | after a push that found the client in any state, once all starts have settled, it runs exactly those, except where a start has failed |
| Broadcast.DisciplinedPushesNeverClash | server/state.go:147-149 | ports apart at the server keep a client from clashing with itself, when it reads the push with no start pending |
| ControlLink.ClientHolds | client/client.go:172-187 | what the client has made of every byte written so far: nothing yet, the last push, or a dropped stream |
| ControlLink.LastPushIsCurrentIff | server/reverse.go:142-218 | once all changes are broadcast the client runs the current rules exactly when no push preceded the header, none written had 65536 bytes, and the last one written says what the last snapshot says |
| ControlLink.CurrentRulesArriveIff | server/reverse.go:182-205 | without overlap, exactly when the header came first, no snapshot ever had 65536 bytes and the current one has at most 65535 |
| ControlLink.ClientFollowsServer | server/reverse.go:142-218 | end to end: then the client, whatever it was still starting, runs exactly the server's enabled rules for it, except where a start has failed |
| ControlLink.EarlyChangeArrives | server/reverse.go:142-218 | a run: a change whose own push finds no stream yet arrives with the push of the set-up |
| ControlLink.OversizedPushIsLost | server/reverse.go:202-205 | a longer push leaves the client on the old rules |
| ControlLink.EarlyPushDropsTheClient | server/reverse.go:145-158 | a push between publishing the stream and its header ends every reverse rule |
| ControlLink.OverlapMayDeliverOldRules | server/reverse.go:183-201 | with overlap the client may end up with replaced rules |
| Socks.HandshakeInvertsEncode | client/socks5.go:49-114 | for all address types the parser gets back destination and port and consumes exactly the handshake |
| Socks.EncodeInvertsHandshake | client/socks5.go:49-114 | nothing else leads to a connection, and no payload byte is eaten |
| Socks.HandleSocks | client/socks5.go:45-128 | the verdict, for every input and chunking, and exactly the part of the answer that a client takes which stops listening anywhere |
| Socks.AnswerTells | client/socks5.go:45-128 | what each answer means, for every input: success exactly for a request to connect whose destination was reached, and which bytes lead to codes 5, 7, 1, 255, to no reply and to silence |
| ProxyHeader.V1RoundTrip | relay/proxyproto.go:56-62 | the text header for two IPv4 addresses reads back, ends where the payload begins, and has at most 56 bytes |
| ProxyHeader.V2RoundTripIff | relay/proxyproto.go:63-82 | the binary header reads back exactly when the addresses are not both IPv4, then from 52 bytes |
| ProxyHeader.BuildHeader | relay/proxyproto.go:50-86 | which header is built, or the error |

## Left out

- Sockets, smux, TLS, certificates, DNS, file I/O and JSON text are choices of the environment or opaque bytes.
- Shutting a pipe down: deadlines of one direction are reset by the other, so no clean termination follows from the code; only what each direction copies is modelled.
- Limiting.Wait: watches a waiter for finitely many polls, because it can starve while others go on, and a request for more than one second's quota is never granted. Times and tokens are reals, so floating-point rounding and nanosecond truncation are not modelled.
- Dialing.RoundRobinIsFair: speaks of counters up to 2^63, because beyond that the index may be negative as `Dialing.IndexPanicsIff` says.
- Visitors.TableInvariant: needs fewer than 2^32 ids, because they wrap; it speaks of the running loop, since the entries left when a relay stops are never given back to the gauge.
- UdpTunnel.RepliesReachTheirOwnVisitor: the relay's own end (its `done` channel) is not a step of the model, the stream is opened as one step, and the relay's Wait for the limiter only delays a step.
- The backends table of udpLocalRelay (server/forward.go:190-266), which maps addresses to sockets without ids.
- The gauge of udpBackendFromStream and all byte counters; the check for an empty target there.
- ReverseMgr.ReverseMgr.Apply: keeps the rules to start as a map by id, because the order in which goroutines are launched does not matter. A UDP relay that ends by itself closes its socket and stays in the map, so a later stop closes it a second time; the model counts the manager's closes only. Status reports are not modelled.
- Reverse.StepKeepsInv: needs pushes and stopAll to meet no pending start, because the partition fails otherwise; `ReverseOverlap` and `ReverseLeaks` say what holds in all runs.
- Broadcast.DisciplinedPushesNeverClash: needs a client with no pending start, because a pending one may hold or claim a port of the new push (`ReverseOverlap.PushNeverClashesIff`).
- ControlLink.ClientHolds: the client has read all that was written; pushes read back from their JSON text (valid UTF-8), and a failed write means that the session is over, which a new stream replaces.
- Server.Server.ImportConfig: the error text at server/state.go:412 looks up the restored rule list and is not modelled; what a closed session does is the business of `Sessions`.
- LockoutVerdicts.VerdictIff: needs failures at most the blocking time apart, because after a longer pause the count depends on when the table was swept; `LockoutVerdicts.RefusalHasCause` holds without that.
- Agreement of allow_from, limits and the like between an edited rule and its running listener: both reconcilers compare only protocol, port, target and, at the server, client.
- Stopping the server: what happens after its context ends (server/server.go:183-195).
- Blacklist.DecisionIsLinearizable: "configured" means last saved. The loopback exemption, which exists for TCP visitors, tunnel clients and the panel but not in the UDP relays, is not modelled.
- Server.Server.AddRule: fresh ids come from the caller; the source draws eight random characters.
- ExportConfig, SetIPWhitelist, SetPassword, IPAllowed, the list views, notifications, health probes, history, logs, HTTP and cookies: easy members or plain I/O.
- ProxyHeader.V1RoundTrip: IPv6 and mixed families are left to the library's text form.
- Socks.HandleSocks: what a destination's text looks like and the piping after the handshake are not modelled.
