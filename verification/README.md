# Session Affinity Engine: a verified model

This project models the routing engine of the Session Affinity Engine in Dafny and proves what
its parts promise, one by one and together. The engine is a layer-4 load balancer: a request is a
5-tuple and a payload, and the engine keeps every 5-tuple on the same backend.

How the model is laid out:

- Each component of the engine is a class with the source's own fields, and its methods edit them
  in place (`ConsistentHashRing`, `SessionManager`, `RateLimiter`, `Security`, `RequestHandler`,
  `LoadBalancer`, `UdpServer`). Each method is proved equal to a function on the component's state
  as a value. What the source promises is proved about those functions: over single calls, and
  over every run.
- `Routing` is the ring and the session table as one state machine, with whole-run results in
  `Affinity`, `Timeouts` and `LazyExpiry`. `Engines` adds the limiter, the spoof trackers and the
  backends, with backend crashes as steps of the environment, and `EngineRuns`,
  `EngineScreening`, `EngineAffinity`, `EngineFailover` and `EngineExpiry` hold its whole-run
  results. `UdpServers` puts the primary and the standby load balancer on top of one engine, and
  `UdpClients` says what a source address and port may rely on.
- Every public call is one atomic step at one instant `now`, counted in nanoseconds; a call that
  reads the clock twice reads the same instant. Runs have a clock that never goes back wherever a
  result needs it.
- Facts about the ring that hold even if virtual nodes of different servers collide are separate
  from those that need distinct positions. The latter name the condition (`CollisionFree`,
  `HoldsItsPositions`, `OwnsAll`), or state that the property holds exactly under it.

Where the code and its own words disagree, the model follows the code:

- `src/rate_limiter.h:42` says that a client's queue never holds more than the limit. Rejected
  requests are recorded in the same queue, so it can (`QueueCanExceedTheLimit`). Over any run the
  bound holds exactly if each request of the client came when fewer than the limit of its earlier
  requests, allowed or rejected, lay within the window (`QueueNeverExceedsTheLimit`; for one
  request `QueueBoundHoldsForTheRecent`).
- `src/common.h:34` calls the key canonical. A tuple shares it with another one exactly when a field
  of it holds what looks like the end of a field (`KeyIsShared`); validation rules that out
  (`ValidTuplesHaveOwnKeys`).
- `Presentation_final.md:37` says that only one load balancer routes at a time. That holds for
  every relayed packet, but after a revival that follows a takeover both are flagged active until
  the next traffic packet or kill, and at no other time (`FlagsOverEveryTrace`, `BothCanBeFlagged`).
- `src/session_manager.h:97` resets a timeout with -1. Any negative number does it, and no later
  answer or report tells them apart (`AnyNegativeTimeoutResets`).
- `src/session_manager.cpp:213` revives an expired session without looking at its backend. Then a
  live session may name a server that is gone (`RevivedSessionIsStranded`). `StepStrands` says
  exactly which calls do this.

## Model

| member | source | states |
|---|---|---|
| Fnv.HashKey | src/consistent_hash.cpp:25-33 | the loop computes 64-bit FNV-1a, wrapping modulo 2^64 |
| Fnv.KnownHashes | src/consistent_hash.cpp:25-33 | the published test vectors of the empty string and of "a" |
| Fnv.StepIsPermutation | src/consistent_hash.cpp:28-31 | XOR with a character and multiplying by the prime is undone by the inverse prime, so one hash step permutes the 64-bit states |
| Fnv.OneDifferenceNeverCollides | src/consistent_hash.cpp:25-33 | two keys of equal length that differ in exactly one position never have the same hash |
| HashRing.VnodeKeyInjective | src/consistent_hash.cpp:49-50 | different (server, index) pairs have different virtual-node keys |
| HashRing.SameIndexNeverCollides | src/consistent_hash.cpp:48-52 | the same virtual node of two one-digit servers never shares a position |
| HashRing.VnodeKeyFormat | src/consistent_hash.cpp:49-50 | one virtual-node key, written out |
| ConsistentHash.ConsistentHashRing.AddServer | src/consistent_hash.cpp:38-61 | the loop overwrites every position of the server's virtual nodes and appends it to the active list; an active server is left alone |
| ConsistentHash.ConsistentHashRing.RemoveServer | src/consistent_hash.cpp:66-86 | the loop erases the server's positions, whoever holds them, and takes it off the active list |
| ConsistentHash.ConsistentHashRing.GetServer | src/consistent_hash.cpp:91-107 | the owner of the lower-bound position with wrap-around, -1 on an empty ring |
| HashRing.SuccessorIsNearest | src/consistent_hash.cpp:98-104 | lower bound with wrap-around is the one position at the least clockwise distance modulo 2^64 |
| HashRing.EveryHistoryIsWellFormed | src/consistent_hash.cpp:38-86 | after any additions and removals, collisions or not: active list without duplicates, every owner active and on a position hashed from its own key, and active are exactly those who joined last |
| HashRing.NewcomerOwnsAll | src/consistent_hash.cpp:48-55 | a newcomer takes all of its positions, whoever held them, touches no other, and joins at the end of the list |
| HashRing.RemovalFreesItsPositions | src/consistent_hash.cpp:70-80 | a removal frees exactly the positions of the server, whoever holds them |
| HashRing.WithoutOne | src/consistent_hash.cpp:79-80 | taking a server off the active list keeps the order of the others |
| HashRing.AdditionMovesOnlyToNew | src/consistent_hash.cpp:38-56 | adding a server moves keys only to it, with or without collisions |
| HashRing.RemovalMovesExactlyItsKeys | src/consistent_hash.cpp:66-80 | if no other server holds one of its positions, removing a server moves exactly the keys that were on it, to other active servers |
| HashRing.SubRingLookup | src/consistent_hash.cpp:91-107 | for active sets A within B without collisions, a lookup over B that lands in A is the lookup over A |
| HashRing.AddKeepsCanonical | src/consistent_hash.cpp:48-55 | on a ring where everybody owns all their positions, adding keeps it so exactly when no position was taken |
| HashRing.RemoveKeepsCanonical | src/consistent_hash.cpp:70-80 | removing keeps it so exactly when it erases nobody else's position, which always holds for an active server |
| HashRing.HistoryIndependence | src/consistent_hash.cpp:38-86 | two collision-free histories that end with the same active servers have the same ring and route every key alike |
| HashRing.AddThenRemove | src/consistent_hash.cpp:38-86 | adding a new server and removing it restores the whole ring exactly when it hit no taken position |
| HashRing.RemoveThenAdd | src/consistent_hash.cpp:38-86 | removing an active server and adding it again restores every position exactly when it owned all of its own |
| FiveTuples.Deserialize | src/common.h:56-82 | the verdict and what is left in the out parameter: the text fields are written before a bad port is found, a rejection keeps the ports, and with fields missing everything |
| FiveTuples.BadPortLeavesTheText | src/common.h:65-79 | with five fields or more the text fields are written whatever the ports; the ports are written only if both read as numbers from 0 to 65535 |
| Decimal.StoIReads | src/common.h:72-73 | wherever a number stands after white space, with a sign or none and any text behind it, the port reader finds its value, if it fits an int |
| Decimal.StoIRefuses | src/common.h:72-77 | and it refuses everything else |
| FiveTuples.RoundTrip | src/common.h:46-82 | reading back a serialised tuple succeeds and returns it exactly when no text field contains a pipe and the protocol is not empty |
| FiveTuples.ReadAndPrintBack | src/common.h:46-82 | the other way round: printing the tuple of an accepted message gives the message again, up to one closing pipe, exactly when it has five fields and its ports are numerals without sign, spaces, leading zeros or trailing text |
| FiveTuples.KeyIsShared | src/common.h:37-40 | some other tuple has the same key exactly when a field of this one holds a decoy: a colon, a port and an arrow inside an address, or a colon, a port and a slash inside the destination or the protocol |
| FiveTuples.UnmarkedKeysAreOwn | src/common.h:37-40 | so colons alone do no harm: a tuple with no `>` in its addresses and no `/` in its destination and protocol shares its key with nobody |
| FiveTuples.KeyFormat | src/common.h:37-40 | one key, written out |
| FiveTuples.WireFormat | src/common.h:46-49 | one wire form, written out |
| FiveTuples.ToKeyNotInjective | src/common.h:37-40 | a concrete pair of different tuples with one key |
| Ipv4.IsValidIPv4 | src/security.cpp:25-55 | the loop over the fields accepts exactly four canonical octets below 256 |
| Ipv4.AcceptedStrings | src/security.cpp:25-55 | the accepted strings are the IPv4address strings of section 3.2.2 of RFC 3986, each also with one trailing dot |
| Ipv4.ParseOfDotted | src/security.cpp:32-54 | every printed address is accepted, also with a trailing dot, and parses back to its four numbers |
| Ipv4.DottedOfParse | src/security.cpp:32-54 | an accepted string is the print of the numbers it parses to, up to a trailing dot |
| Validation.SubnetOfAddress | src/security.cpp:60-64 | the tracked prefix is the first three octets; with a trailing dot it is the whole address |
| Validation.ValidTuplesHaveOwnKeys | src/security.cpp:69-98 | a tuple that passes validation shares its session key with no other tuple, valid or not |
| Validation.TupleIsAccepted | src/security.cpp:69-98 | a tuple is accepted exactly for two addresses of the grammar, two ports that are not 0, and TCP or UDP in any spelling by case |
| Validation.FirstFaultDecides | src/security.cpp:158-181 | which verdict is given, in terms of the characters: size, emptiness, source, destination, source port, destination port, protocol, in this order; only a request without fault reaches the spoof check |
| Validation.Security.CheckSpoofing | src/security.cpp:117-153 | evict, record this source, count the distinct sources that remain, compare with the threshold |
| Validation.DecidesLikeTheFullLog | src/security.cpp:126-150 | with a clock that never goes back, the verdicts are those of a check that keeps every source, rejected ones included, and counts the distinct ones within the window |
| Validation.RejectedForTheRecent | src/security.cpp:117-153 | after any arrivals a source is rejected exactly when, with it, the distinct sources of its prefix that arrived within the window exceed the threshold, rejected ones included, counted from the arrivals alone |
| Validation.NoWindowExceedsTheThreshold | src/security.cpp:126-150 | in any closed 60 s window at most 50 distinct sources of one prefix are let through |
| Validation.Security.FullCheck | src/security.cpp:158-181 | payload, tuple and spoof checks in this order; the first failure decides and only the last check leaves a trace |
| RateLimiting.RateLimiter.AllowRequest | src/rate_limiter.cpp:37-73 | evict, compare the queue length with the limit, record the request whether allowed or rejected |
| SlidingWindow.EvictIsWithin | src/rate_limiter.cpp:26-32 | popping from the front of a time-ordered deque leaves exactly the records within the window |
| RateLimiting.DecidesLikeTheFullLog | src/rate_limiter.cpp:26-73 | with a clock that never goes back, every answer is that of a limiter that keeps all requests since the last reset, allowed or rejected, and counts those within the window |
| RateLimiting.NoWindowExceedsTheLimit | src/rate_limiter.cpp:46-72 | of one key, at most the limit of requests since the last reset is allowed in any closed window |
| RateLimiting.QueueBoundHoldsForTheRecent | src/rate_limiter.cpp:47-72 | after any calls a request is allowed exactly when fewer than the limit of requests of its key since the last reset, allowed or rejected, lie within the window, counted from the calls alone; and exactly then its queue stays within the limit |
| RateLimiting.QueueNeverExceedsTheLimit | src/rate_limiter.h:42 | over a whole run the queue of a key never exceeds the limit exactly when each of its requests found fewer than the limit of earlier ones within the window |
| RateLimiting.QueueCanExceedTheLimit | src/rate_limiter.h:42 | three requests under a limit of one leave a queue of three |
| SessionManagement.SessionManager.RouteRequest | src/session_manager.cpp:33-139 | blocked before expired before sticky before lazy failover, and the new-session path with its first audit entry |
| SessionManagement.SessionManager.ForceReassign | src/session_manager.cpp:144-185 | the search for another server and the move, for blocked and expired sessions too |
| SessionManagement.SessionManager.BlockSession | src/session_manager.cpp:190-202 | sets the flag of an existing session and nothing else |
| SessionManagement.SessionManager.SetSessionExpiry | src/session_manager.cpp:207-220 | sets the timeout of an existing session, expired or not, and nothing else |
| SessionManagement.SessionManager.HandleServerDown | src/session_manager.cpp:261-290 | in any order of visits, each unexpired session of the lost server with somewhere to go is moved and audited, and no other |
| SessionManagement.SessionManager.CleanupExpired | src/session_manager.cpp:295-311 | in any order of visits, exactly the expired sessions go and the live ones stay unchanged, blocked or not; the answer is how many went |
| SessionManagement.SessionManager.ActiveSessionCount | src/session_manager.cpp:235-242 | the number of unexpired sessions |
| SessionManagement.SessionManager.GetAllSessions | src/session_manager.cpp:247-256 | one pair of key and backend for each unexpired session and nothing else |
| Routing.RoutedSits | src/session_manager.cpp:33-139 | a successful answer names the active backend where the session now sits, unblocked and just used |
| Routing.RouteTouchesOneSession | src/session_manager.cpp:33-139 | routing one key leaves all other sessions alone; a refusal leaves its own as it was, except that an unblocked, expired session is erased with its trail before the ring is asked |
| Routing.RefusedWhen | src/session_manager.cpp:46-115 | a request is answered SESSION_BLOCKED exactly on a blocked session, and SERVER_DOWN exactly on an empty ring when the session is neither blocked nor live on an active server |
| Routing.ReassignSucceeds | src/session_manager.cpp:144-185 | a forced reassignment succeeds exactly when another server is active on a ring with positions; it goes to the hashed server, or from there to the first other one in the order of joining |
| Routing.OperatorIsAnswered | src/session_manager.cpp:144-220 | the operator's calls answer whether the session exists, set the one field they are for, and touch no other session |
| Routing.EveryRunIsAudited | src/session_manager.cpp:92-105 | over every run each audit trail starts with the initial assignment, every later entry leaves the backend of the entry before and names it, and the last is the current backend |
| Routing.StepOnSession | src/session_manager.cpp:33-290 | what one event may do to a session: reopen it new if it was to be erased, or at most one hop with the reason the event explains; its tuple and birth stay, and only the operator's own calls touch its flag and timeout |
| Routing.StepOpensOne | src/session_manager.cpp:110-139 | only a request opens a session, for its own key, where the key hashes to, unblocked, with the default timeout and a first hop |
| Routing.LosingMovesExactlyItsSessions | src/session_manager.cpp:261-290 | losing a server changes exactly its unexpired sessions; each goes to the server its key hashes to on the rest of the ring, with one more hop and a new time of use |
| Routing.LossKeepsHashed | src/session_manager.cpp:261-290 | if nobody else held its positions, a live session that sat where its key hashes still does |
| Routing.StepStrands | src/session_manager.cpp:207-290 | an event leaves a live session on a server off the ring exactly when it empties the ring under one, or revives one whose server is gone |
| Routing.ReassignedMeansStranded | src/session_manager.cpp:78-106 | the lazy failover branch is taken exactly for an unblocked, unexpired session whose server is off a non-empty ring |
| Routing.NobodyIsEverStranded | src/session_manager.cpp:261-290 | over a whole run no live session is stranded after any event exactly when those guards hold at every event, and then no request is answered REASSIGNED |
| Timeouts.SilenceDecides | src/session_manager.cpp:46-139 | after any silence of an unblocked session, whatever passes by and clean-ups included, its next request is answered by its backend if it comes within the timeout, and otherwise routed by hash as a new session with a new trail |
| Timeouts.NewSessionLife | src/session_manager.cpp:110-139 | a session opened, or opened anew after expiring, survives a silence of exactly the default timeout |
| Timeouts.CustomTimeoutDecides | src/session_manager.cpp:24-28 | after a timeout of s seconds is set, 0 included, the session survives a silence of exactly s seconds |
| Timeouts.RedistributedLife | src/session_manager.cpp:261-290 | a session moved off a lost server survives a silence of exactly its timeout, counted from the loss |
| Timeouts.ReassignedLife | src/session_manager.cpp:144-185 | so does one reassigned by hand, counted from the reassignment |
| Timeouts.AnyNegativeTimeoutResets | src/session_manager.cpp:24-28 | every negative timeout is as good as -1: over every later run all answers and all reports of live sessions are the same |
| LazyExpiry.RevivedSessionIsStranded | src/session_manager.cpp:207-220 | a concrete run: expiry, server loss, then a longer timeout strands the session, and its next request is answered REASSIGNED |
| LazyExpiry.CleanUpGoesUnnoticed | src/session_manager.cpp:295-311 | an extra clean-up anywhere changes no later answer and no later report of live sessions, if what it removes is unblocked and no operator names it before it is requested again |
| LazyExpiry.OtherwiseItShows | src/session_manager.cpp:295-311 | both conditions are needed: cleaning up a blocked session changes its next answer, and a block call on a removed session is answered differently |
| EngineExpiry.EngineCleanUpGoesUnnoticed | src/session_manager.cpp:295-311 | the same through the whole pipeline: an extra clean-up anywhere in a run of the engine, with crashes and repairs, changes no later answer, no counter, no limiter or tracker state and no later report of live sessions, under the same two conditions |
| Affinity.RunKeepsAffinity | src/session_manager.cpp:33-139 | while nobody touches the session or its server and it is never idle beyond its timeout, each of its requests is answered with the same backend, or blocked exactly while the operator has it blocked |
| Affinity.RoutedStaysPut | src/session_manager.cpp:33-139 | the same from the moment a request was routed |
| Affinity.BlockedStaysRejected | src/session_manager.cpp:46-58 | a blocked session is rejected, also past its expiry, until it is unblocked or cleaned up |
| Backends.RequestHandler.ProcessRequest | src/request_handler.cpp:28-49 | an online backend counts the request once in total and once for its key, an offline one nothing |
| LoadBalancing.LoadBalancer.HandleRequest | src/load_balancer.cpp:46-128 | the whole pipeline over the shared parts, with one repair and retry; a passive balancer changes nothing |
| LoadBalancing.LoadBalancer.TakeBackendOffline | src/load_balancer.cpp:173-184 | stop, remove from the ring, redistribute; ids out of range do nothing |
| LoadBalancing.LoadBalancer.BringBackendOnline | src/load_balancer.cpp:186-196 | start and add to the ring; ids out of range do nothing |
| Engines.HandleDelivers | src/load_balancer.cpp:46-128 | one request keeps all parts in agreement, counts at most once, shows no internal error, and takes only dead servers off the ring |
| Engines.AnswerIsDecided | src/load_balancer.cpp:71-128 | past the screening, each answer is given exactly when the engine left behind shows it: success iff the session is open on an online backend, a failed failover iff it is open on one that is on the ring but offline, blocked iff it is blocked, no backends iff the ring is empty under it |
| EngineRuns.EveryRunIsSound | src/load_balancer.cpp:84-116 | over every run with crashes: every ring and session id is a real backend, every online backend is on the ring, audit trails are sound, each backend's total is the sum over its keys |
| EngineRuns.EveryAnswerIsProper | src/load_balancer.cpp:84-116 | over every run the invalid-id error and the unchecked index after the retry never go wrong, a success comes from the online backend recorded for the open session, a failed failover leaves it on an offline one, "no backends" means an empty ring |
| EngineRuns.SessionsAreNeverShared | src/load_balancer.cpp:48-73 | after every run a request that reaches routing finds under its key only a session opened by the very same tuple |
| EngineRuns.OnlyValidTuplesHaveSessions | src/load_balancer.cpp:57-73 | from the start on, only tuples that pass validation ever have sessions |
| EngineRuns.RequestMakesProgress | src/load_balancer.cpp:71-113 | a request that is not turned away succeeds, or finds the ring empty, or takes a dead server off the ring |
| EngineRuns.CrashesPayForFailures | src/load_balancer.cpp:92-113 | over every run, failed failovers plus servers dead at the end are at most the servers dead at the start plus the crashes |
| EngineRuns.CrashesPayFromTheStart | src/load_balancer.cpp:92-113 | from the start, a run with c crashes has at most c failed failovers |
| EngineFailover.OneDeadServerIsRepaired | src/load_balancer.cpp:92-113 | with at most one dead server and a ring that stays non-empty, an unblocked request past the screening succeeds |
| EngineFailover.NoteMeansStranded | src/load_balancer.cpp:119-121 | a success carries the reassignment note exactly if the live session was on a server off the ring and the hashed server answered at once |
| EngineFailover.SessionsFollowTheHash | src/load_balancer.cpp:100-104 | whatever happens but a forced reassignment of it, a session stays on its backend or ends up where its key hashes to on the ring as it is then |
| EngineFailover.EveryoneSitsWhereHashed | src/load_balancer.cpp:92-184 | over every run of losses, crashes and repairs without disputed positions, returns or an operator's moves, every live session sits where its key hashes to |
| EngineFailover.OfflineTakesEffect | src/load_balancer.cpp:173-184 | for every id in range the backend is stopped and off the ring, nothing else changes there, and no live session is left on it while the ring has positions |
| EngineFailover.OfflineServesNobody | src/load_balancer.cpp:173-184 | in every run after that, no success names it until it is brought online |
| EngineFailover.OnlineTakesEffect | src/load_balancer.cpp:186-196 | for every id in range the backend is started and on the ring with all of its positions, and nothing else changes |
| EngineFailover.CrashOnlyStops | src/request_handler.cpp:64-68 | a silent stop clears the backend's online flag and is seen nowhere else |
| EngineFailover.StrangersChangeNothing | src/load_balancer.cpp:173-196 | ids of no backend change nothing |
| EngineRuns.SuccessesAreCounted | src/request_handler.cpp:28-49 | over every run, the successes a client saw are what all backends together counted for its key |
| EngineScreening.ScreeningIsDecided | src/load_balancer.cpp:57-69 | over every run of the engine a request is rejected by security, or by the rate limit, exactly as the earlier events alone decide: sound parts and few enough distinct sources of its prefix, then few enough admitted requests of its key within the window |
| EngineScreening.RateLimitAcrossBackends | src/load_balancer.cpp:64-69 | all backends together serve at most 100 requests of one key in any closed 60 s window |
| EngineScreening.SpoofThresholdAcrossBackends | src/load_balancer.cpp:57-62 | over every run at most 50 distinct sources of one prefix get past security in any closed 60 s window |
| EngineAffinity.SessionsAreSticky | src/load_balancer.cpp:46-128 | through the whole pipeline, under other traffic, crashes, repairs and scaling, every success of an undisturbed session comes from the same backend and it is never turned away for lack of one |
| EngineAffinity.NobodyIsLeftBehind | src/load_balancer.cpp:100-104 | while the ring never runs empty and no lost session is revived, every live session sits on a server of the ring, also after silent crashes and repairs |
| EngineAffinity.NoSuccessIsReassigned | src/load_balancer.cpp:119-121 | in such runs the reassignment note is never appended |
| UdpServers.UdpServer.OnPacket | src/main1.cpp:99-146 | one loop iteration over the two balancers and the heartbeat |
| UdpServers.SetUp | src/main1.cpp:35-54 | the start-up builds the start state |
| EngineAffinity.StartInNumbers | src/main1.cpp:35-54 | the start in numbers: servers in order, 150 positions each, 300 s of idleness, 100 requests in 60 s |
| UdpServers.ExactlyOneRoutes | src/main1.cpp:120-145 | whenever a packet is relayed exactly one balancer is active, the one that served it; unrelayed traffic leaves both passive |
| UdpServers.OthersAreAnswered | src/main1.cpp:113-145 | a command sets the primary's flag and nothing else, and unrelayed traffic changes nothing |
| UdpServers.BothFlagsAfter | src/main1.cpp:113-138 | one packet leaves both flags set exactly when it revives the primary while the standby is active |
| UdpServers.FlagsOverEveryTrace | src/main1.cpp:113-138 | the primary's flag follows the last command, the standby's says whether it served the last traffic packet, and both are set exactly when the trace ends in a revival and the standby served the last traffic packet |
| UdpServers.BothCanBeFlagged | src/main1.cpp:116-118 | after a takeover and a revival both flags are set |
| UdpServers.StandbyWaitsForSilence | src/load_balancer.cpp:143-147 | the standby serves a packet exactly if it is traffic, the last command killed the primary, and the primary served no packet for at least 3001 ms, or since the start |
| UdpServers.StandbyServesUntilRevival | src/main1.cpp:132-141 | once it has served, the standby serves all traffic until a revival |
| UdpServers.PairRefinesOneBalancer | src/main1.cpp:113-146 | after every trace the shared engine is that of one always-active balancer fed only the forwarded packets |
| UdpServers.RepliesAreTheBalancers | src/main1.cpp:131-141 | every relayed reply is the answer of that one balancer |
| UdpServers.ScreeningAcrossFailover | src/main1.cpp:120-141 | across takeover and failback a relayed packet is turned away by security or the rate limit exactly as the requests forwarded before it decide |
| UdpServers.RateLimitAcrossFailover | src/main1.cpp:120-141 | both balancers together stay within the rate limit across takeover and failback |
| UdpServers.SpoofThresholdAcrossFailover | src/main1.cpp:120-141 | both balancers together stay within the spoof threshold across takeover and failback |
| UdpClients.KeyOfClient | src/main1.cpp:99-105 | the session key of a packet, written out: its address and port, and the server's side |
| UdpClients.SameClient | src/main1.cpp:99-105 | packets share a session key exactly if they come from the same address and port |
| UdpClients.SecurityByPackets | src/main1.cpp:99-141 | on the running server a relayed packet is rejected by security exactly if something is wrong with it, or more than 50 sources of its prefix, with it, sent good packets in the last 60 s |
| UdpClients.RateLimitByPackets | src/main1.cpp:99-141 | a packet past security is turned away by the rate limit exactly if 100 or more packets of the very same address and port got past security in the last 60 s, through either balancer |
| UdpClients.ClientsStayWithinTheLimit | src/main1.cpp:99-141 | no address and port gets more than 100 successes in any closed 60 s |
| UdpClients.ClientsAreServedByOne | src/main1.cpp:99-141 | all successes of an address and port come from one backend, and each carries how many of that client's packets have succeeded so far |
| UdpServers.FailoverNeverMovesASession | src/main1.cpp:120-141 | from any sound state, with servers lost or sessions moved before, two successes of a session without a pause beyond its timeout come from the same backend, whichever balancers served them |
| UdpServers.RunningServerNeverMovesASession | src/main1.cpp:35-141 | on the server as it is built, every success of a session in any trace comes from the backend its key hashes to, after any pauses, kills, takeovers and revivals |
| UdpServers.RunningServerAlwaysServes | src/main1.cpp:41-46 | every relayed packet is refused by validation or rate limit or succeeds without a failover note |

## Left out

- Logging, console output, wall-clock timestamps and message texts: no decision depends on them. Audit entries keep their reason as a case with the backend it names.
- Sockets, buffers and address conversion in `src/main1.cpp`: a packet is source address, source port, payload and arrival time. A payload that contains a NUL byte is cut by the server before the comparison with the commands; the model starts after that.
- `src/main.cpp`, the command line, the build files and the container: drivers only.
- Load distribution percentages: statistical, not decided by the code.
- Threads and interleavings inside one public call: each call is one step, and one call reads one instant.
- Collision-freeness of all virtual nodes under FNV-1a: an explicit hypothesis, except for keys that differ in one position.
- Characters beyond ASCII: whether `char` is signed, and what `isdigit` and `toupper` do with them, depends on the platform.
- Integer overflow of counters and timeouts: all are unbounded integers; the ring positions and the hash are 64 bits wide.
- Memory growth of the rate limiter: its queues are not bounded by the code.
- FiveTupleHash, port getters, `statusToString`, `getHistory`, `currentCount`, `getPathHistory`, `sendHeartbeat` and `getLastHeartbeat`: unused by the engine or plain field reads.
- `NUM_BACKEND_SERVERS`: the results hold for every number of backends, not only 8.
- LoadBalancing.LoadBalancer.HandleRequest: reading past the backends after the retry is undefined in the source; the model answers `BadIndex` there, and `EveryAnswerIsProper` shows that it never happens.
- SlidingWindow.PopExpired: the two identical eviction loops of the limiter and the spoof check are one method.
- Starting a backend directly, without `bringBackendOnline`: the environment only stops backends.
