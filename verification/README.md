# A model of the SOCKS5 proxy and its management service

The program is a single-threaded proxy. A selector multiplexes descriptors, a
table-driven engine turns their events into state changes, the callbacks of a
session move through hello, authentication, request, connect and relay, and two
small buffers carry the bytes. Names are resolved by threads that hand their
result back through a list of jobs. A second service lets an administrator
read counters and change users, sizes and switches while sessions run.

The model has three layers.

* **Memory.** Classes over arrays and fields do what the C functions do, step by
  step: `Buffer`, `Selector`, `StateMachine`, the parsers, and one class per
  phase of a session (`HelloData`, `AuthData`, `RequestData`, `CopyData`, over
  a shared `Channel`). Every method is proved equal to a function on values.
* **One session.** `Session` gives those functions: a context (the session, the
  table of registered descriptors, the open descriptors, the counters) and the
  operating system's answers go in, a context and a next state come out.
  `SessionInvariant` proves what every callback keeps. `Management` does the same
  for a management session, its parsers, buffers, requests and replies included;
  `Requests` proves what requests do. Some fields are history, which no callback
  reads: whether a session was counted as connected and as ended, the octets its
  relay moved, the script of its conversation, what became of its memory, and
  what a management session has heard for its login and its current request.
* **The process.** `World` is a step relation over any number of sessions,
  management sessions and resolver threads. A step is one half of a slot's turn
  in the scan, one job of the drain, one action of a thread, or a wake-up with
  arbitrary ready bits. `Safety` proves an invariant of every reachable state;
  `Theorems`, `AuthGate`, `MngGate`, `ConnectReplies`, `Transcript`, `Streams`,
  `Wakeups` and `Memory` read the promises off it, for every run. `Admissions`,
  `LoginOutcomes`, `RequestOutcomes` and `MngOutcomes` say, in every reachable state
  and in the numbers of the wire formats, what each message leads to and what its
  sender is told. `Scenarios` and `Lifetimes`
  give runs that reach what the others only leave possible, and `Scans` shows that the scan of
  the process is the sweep that the selector's loop over memory makes.

The parsers share one consume loop (`ByteMachine`), so chunk independence and
prefix-freedom are proved once; the seven management parsers share one machine
over layouts (`AdminForm`), which the two parsers in memory are proved to be.

The results to start from are `Streams.WholeConversation`,
`Safety.RunKeeps`, `Theorems.HandoffExactlyOnce`, `Wakeups.StallsExactly`,
`AuthGate.AuthenticationGate`, `LoginOutcomes.CredentialsJudged`,
`RequestOutcomes.RequestDecided`, `MngGate.ConfigurationGate`,
`MngOutcomes.GetAnswered`, `Requests.SizeSetThenRead`,
`Scenarios.AbortReachableIff`, `Memory.FreedOnceIff`,
`SelectorModule.SweepMakesEveryCall` and `Scans.ScanIsSweep`.

What the operating system decides is an input: ready sets, octets received,
counts sent, accepted descriptors, sockets, connect errors, address lists,
thread creation, memory. A run is taken under an operating system that keeps
its side: a new descriptor was not open, recv delivers between one octet and
the room offered, send takes no more than it was given, a failed connect has
an errno. Those facts are collected in the flag `honest`, never assumed.

## Where the code departs from its intent

These are kept as the code has them; the statements say what follows.

* The growth test of `selector_register` (src/selector.c:335) misses the case
  where the descriptor equals the table's size and goes on behind the table;
  `selector_unregister_fd`, `selector_set_interest` and
  `handle_block_notifications` never look at the table's size, and
  `handle_iteration` keeps a pointer to a slot across a callback that may move
  the table. The methods of `SelectorClass.Selector` stop there and report it as
  `stray`. The selector the server builds has its full size, where it cannot
  happen.
* `socks5_new` and `mng_new` pass a buffer one octet larger than they allocate
  (src/socks5.c:108-111, src/mng_handler.c:106-109). A buffer's capacity is the
  length of its array here.
* The counted texts of the parsers have 255 cells, one short of a 255-octet text
  with its terminator. The arrays here have 256.
* A domain of length 0 makes the request parser write in front of the array
  (src/parsers/request.c:69-76); that write is left out, and the parser then
  takes one octet of name, as the code does. The reply to such a request is no
  echo, see `RequestParser.ReplyEchoesIff`.
* The request parser accepts commands 1, 3 and 4, not 2.
* A connect that succeeds at once has no branch and ends the session with an
  error (src/socks5_request.c:152-186).
* A hello must arrive in one recv (src/socks5_hello.c:47-56).
* A reply that does not fit in the write buffer aborts the process
  (src/socks5_request.c:299-302). `ConnectReplies.AbortsIffReplyTooBig` says
  exactly when, and `Scenarios.AbortReachableIff` for exactly which sizes some run
  gets there: 3 to 261.
* Octets sent ahead wait. A whole request that came with the credentials, or
  credentials that came with the hello, are parsed only at the client's next read
  event; octets behind the request are scheduled only by the relay's first event
  (src/socks5_request.c:330-333). `Wakeups.StallsExactly` says exactly which
  sessions stall, and `Scenarios.StallReached` gives runs.
* The relay starts with OP_READ on the client, whatever room its buffer has. If
  the octets behind the request fill it, `copy_read` calls recv with size 0, takes
  the 0 for the end of the stream and ends the session
  (src/socks5_copy.c:60-99): the octets are lost although nobody closed. See
  `Wakeups.NoRoomIff`, `Wakeups.FullBufferLosesRelay` and `Scenarios.LossReached`.
* `auth_read` and `request_read` take only a negative recv for an error
  (src/socks5_auth.c:36-63, src/socks5_request.c:33-54). A client that closes before
  its message is complete keeps its session, whose descriptor stays readable for
  good; one that closes during the hello or the relay ends it. See
  `Wakeups.ClosedClient`.
* `socks5_close` counts the closing of a registered origin that a retry gives up
  (src/socks5.c:238-247), so a session may never be freed, be freed under its own
  callback, or be freed twice: `Lifetimes` has a run for each, and
  `Memory.FreedOnceIff` says exactly when it is freed once.
* A buffer size of 2^31 or more ends its session with an error but is stored, see
  `Requests.SizeSetThenRead`.
* The client's login sends two octets too many (`management_protocol_handler.c`).
  What arrives with the password is dropped. If both are still on their way,
  the session is served GET of the second one, whatever is asked next, or ends;
  if only the second is, the request survives exactly when it is no action, see
  `Requests.LoginSurplusIff` and `Requests.SurplusServedAsGet`.
* The cells of the user table have 10 octets (include/server_config.h:32-35). A name of
  10 octets, or a longer password, which `add_user` lets through
  (src/server_config.c:125-127), runs over into what follows; entries are whole texts
  here.

## Model

| member | source | states |
|---|---|---|
| Fifo.RunRefinesQueue | src/buffer.c:11-103 | any run of writes, reads, compactions and resets agrees with an unbounded queue: pointers stay ordered, an empty window is at the base, nothing is lost, repeated or reordered |
| Fifo.CompactRecoversRoom | src/buffer.c:91-103 | compaction keeps the contents and makes the room capacity minus length |
| Fifo.RoomComesBackOnDrain | src/buffer.c:58-68 | reading gives room back exactly when it drains the buffer |
| Fifo.NeverStuck | src/buffer.c:26-40 | a buffer of positive capacity can be read or written |
| BufferModule.Buffer.Reset | src/buffer.c:12-15 | the window is empty and at the base |
| BufferModule.Buffer.constructor | src/buffer.c:18-22 | a new buffer is empty |
| BufferModule.Buffer.CanWrite | src/buffer.c:26-28 | true exactly when there is room |
| BufferModule.Buffer.CanRead | src/buffer.c:38-40 | true exactly when something waits |
| BufferModule.Buffer.WritePtr | src/buffer.c:31-35 | the room behind the write pointer |
| BufferModule.Buffer.ReadPtr | src/buffer.c:43-47 | the number of octets that wait |
| BufferModule.Buffer.WriteAdv | src/buffer.c:50-55 | the octets placed at the write pointer join the queue; a negative count changes nothing |
| BufferModule.Buffer.ReadAdv | src/buffer.c:58-68 | the first n octets leave the queue, and draining it rewinds both pointers |
| BufferModule.Buffer.Read | src/buffer.c:71-80 | the oldest octet leaves the queue, or 0 is returned and nothing changes |
| BufferModule.Buffer.Write | src/buffer.c:83-88 | one octet joins the queue, or is dropped when there is no room |
| BufferModule.Buffer.Compact | src/buffer.c:91-103 | the overlapping move keeps the contents and rewinds the window |
| ByteMachine.ConsumeSplit | src/parsers/request.c:169-179 | consuming a then b is consuming a + b |
| ByteMachine.ChunkIndependence | src/parsers/auth.c:133-145 | however a stream is cut into pieces that fit the buffer, the parser ends as in one pass, unread octets stay in order, and an unfinished parser leaves an empty buffer |
| ByteMachine.PrefixFree | src/parsers/hello.c:85-97 | no complete message is a proper prefix of another |
| HelloParser.HelloDecoded | src/parsers/hello.c:9-47 | every well-formed hello is consumed exactly and answered with the wanted method if offered, else 0xFF (section 3 of RFC 1928) |
| HelloParser.HelloAcceptedIff | src/parsers/hello.c:9-97 | the parser finishes exactly on inputs that start with a well-formed hello, and the method chosen is the answer to the methods it lists |
| HelloParser.Parser.FeedByte | src/parsers/hello.c:9-47 | one octet moves the object as the specification says, the callback of src/socks5_hello.c:7-17 included |
| HelloParser.Parser.ConsumeBuffer | src/parsers/hello.c:85-97 | the loop takes from the buffer exactly the octets up to the end of the hello |
| HelloParser.Marshall | src/parsers/hello.c:99-112 | two octets are appended, or none when they do not fit |
| AuthParser.CredentialsDecoded | src/parsers/auth.c:33-105 | every message with a name and a password of 1 to 255 octets is consumed exactly and both are stored (section 2 of RFC 1929) |
| AuthParser.ParseExplained | src/parsers/auth.c:133-145 | over any number of inputs, what the parser took explains its state |
| AuthParser.CredentialsExplained | src/parsers/auth.c:33-105 | what a finished parser stored encodes to exactly what it read |
| AuthParser.CredentialsAcceptedIff | src/parsers/auth.c:33-145 | it finishes exactly on inputs that start with such a message |
| AuthParser.Parser.FeedByte | src/parsers/auth.c:33-105 | one octet moves the arrays and counters as the specification says |
| AuthParser.Parser.ConsumeBuffer | src/parsers/auth.c:133-145 | the loop takes from the buffer exactly the octets up to the end of the message |
| AuthParser.Parser.StoredStrings | src/socks5_auth.c:19-24 | the C strings in the arrays are those of the octets received, so checkUser judges what the client sent |
| AuthParser.Marshall | src/parsers/auth.c:148-161 | two octets are appended, or none when they do not fit |
| RequestParser.RequestDecoded | src/parsers/request.c:12-122 | every well-formed request is consumed exactly; command, address type, address and port are stored (sections 4 and 5 of RFC 1928) |
| RequestParser.RequestExplained | src/parsers/request.c:12-122 | what a finished parser stored is what the octets it took encode |
| RequestParser.RequestAcceptedIff | src/parsers/request.c:129-179 | it finishes exactly on inputs that start with a well-formed request |
| RequestParser.ParseKeepsSane | src/parsers/request.c:12-67 | a parser that stopped on an error never holds a connect to a known kind of address |
| RequestParser.ReplyEchoesIff | src/parsers/request.c:203-249 | the reply is the request with byte 1 set to the status and byte 2 zeroed exactly for IP addresses and non-empty NUL-free domains (section 6 of RFC 1928) |
| RequestParser.SnugReplyFits | src/parsers/request.c:203-249 | no reply to a request the parser holds is longer than 262 octets |
| RequestParser.Parser.FeedByte | src/parsers/request.c:129-167 | one octet moves the arrays and counters as the specification says |
| RequestParser.Parser.ConsumeBuffer | src/parsers/request.c:169-179 | the loop takes from the buffer exactly the octets up to the end of the request |
| RequestParser.Parser.NameLength | src/parsers/request.c:203-249 | the length of the C string in the address array |
| RequestParser.Parser.Marshall | src/parsers/request.c:203-249 | the reply is appended whole, or not at all when it does not fit |
| Stm.HistoryIsBracketed | src/stm.c:25-86 | for any table and events, the initial arrival comes first and once, every real change is a departure then an arrival, and self-transitions cause neither |
| Stm.EventsInsideTheirState | src/stm.c:53-86 | an event callback runs only between its state's arrival and departure |
| Stm.RunsIff | src/stm.c:35-86 | the engine aborts exactly on an event without callback or an answer outside the table |
| Stm.StateMachine.Init | src/stm.c:10-23 | succeeds exactly on a table numbered by position whose initial state is not the last |
| Stm.StateMachine.HandleFirst | src/stm.c:25-33 | the initial arrival happens when there is no current state yet |
| Stm.StateMachine.JumpTo | src/stm.c:35-51 | departure and arrival on a real change, nothing on a self-transition, abort outside the table |
| Stm.StateMachine.HandleEvent | src/stm.c:53-86 | one event moves the machine as the specification says, and aborts exactly when it does |
| Stm.StateMachine.State | src/stm.c:94-100 | the current state, or the initial one before any event |
| Engines.TablesAreGood | src/socks5.c:38-87 | both state tables pass the checks of stm_init |
| Engines.DispatchIsEngineStep | src/socks5.c:190-215 | an event of a session is a step of the engine over socks_state_definition |
| Engines.MngEventIsEngineStep | src/mng_handler.c:33-87 | an event of a management session is a step of the engine over mng_state_definition |
| SelectorModule.NextCapacity | src/selector.c:165-180 | the result is one more than the least power of two above n, capped at the platform limit |
| SelectorModule.ApplyAllBounded | src/selector.c:324-414 | no sequence of calls puts a descriptor outside the platform limit into the table |
| SelectorModule.SweepIsSound | src/selector.c:433-464 | whatever the handlers do to the selector, each slot gets at most one read then one write call, in slot order, for an item in use, interested, and with its ready bit set |
| SelectorModule.SweepMakesEveryCall | src/selector.c:433-464 | whatever the handlers do, slot i gets its read call, and then its write call, exactly if as the calls before left the table it is in use, interested, and ready |
| SelectorModule.NoCallAfterUnregister | src/selector.c:433-464 | a descriptor taken out during an iteration and not registered again gets no further call in it |
| SelectorModule.DeliveredAtMostOnce | src/selector.c:466-486 | a drain calls back for no descriptor more often than it was queued |
| SelectorModule.DeliveredExactly | src/selector.c:466-486 | it calls back for exactly the queued jobs, in order, when none is taken out meanwhile |
| Scans.ScanIsSweep | src/selector.c:513-554 | a whole scan of any run, with resolver threads acting in between, makes the calls of the sweep and leaves its table |
| Scans.DrainIsComplete | src/selector.c:466-486 | in any run, a drain handles every job queued when it began, each once and in list order, before the next select |
| Scans.JobDelivered | src/selector.c:466-486 | each job reaches the session that waits for it as its block event, and nobody else |
| Scans.JobsAreStacked | src/selector.c:488-511 | between drains the list holds every notification that got through, the last one first |
| SelectorClass.CloseCallsOnce | src/selector.c:292-320 | tear-down calls the close handler of each used item exactly once |
| SelectorClass.Selector.ItemsInit | src/selector.c:188-193 | the slots from a given one on are free, the others untouched |
| SelectorClass.Selector.ItemsMaxFd | src/selector.c:198-209 | the largest used descriptor, or 0 |
| SelectorClass.Selector.UpdateFdset | src/selector.c:211-224 | one descriptor's bits follow its interest in both sets |
| SelectorClass.Selector.EnsureCapacity | src/selector.c:231-272 | success makes slot n exist, never shrinks, keeps every item; failure changes nothing |
| SelectorClass.Selector.Register | src/selector.c:324-362 | the table gains the item, or an error is returned and nothing changes; the code goes on behind the table exactly when the descriptor equals the table's size; sets and maximum stay exact |
| SelectorClass.Selector.Unregister | src/selector.c:364-396 | the item leaves the table after its close handler ran; sets and maximum stay exact; the code looks behind the table exactly for a valid descriptor past its end |
| SelectorClass.Selector.SetInterest | src/selector.c:398-414 | the interest of a registered descriptor changes, anything else is refused; the code looks behind the table exactly for a valid descriptor past its end |
| SelectorClass.Selector.Destroy | src/selector.c:292-320 | the table ends empty after the close handlers of its items ran in slot order |
| SelectorClass.Selector.HandleSlot | src/selector.c:433-464 | the turn of one slot, over memory that handlers change; with a table of full size nothing strays, and with any table the turn is the specified one unless something does |
| SelectorClass.Selector.HandleIteration | src/selector.c:433-464 | the loop over memory, with a table of any size, makes exactly the calls of the specification unless an access strays, which with a table of full size none does |
| SelectorClass.Selector.NotifyBlock | src/selector.c:488-511 | the job goes to the head of the list, or memory was short and nothing changes |
| SelectorClass.Selector.HandleBlockNotifications | src/selector.c:466-486 | every queued job is taken once and the list ends empty, with a table of any size, unless an access strays |
| SessionClass.CheckCredentials | src/server_config.c:30-40 | true exactly when some user has this name and this password |
| SessionClass.Channel.SetInterest | src/selector.c:416-427 | the interest changes as the specification says, and a refusal is noted |
| SessionClass.Channel.Finish | src/socks5.c:217-247 | both descriptors are unregistered and closed, the memory is freed or not as toFree says, and a session that was relaying is counted as ended |
| SessionClass.HelloData.HelloRead | src/socks5_hello.c:30-60 | the session, the table and the next state are those of the specification: one recv must bring the whole hello, then the answer is queued |
| SessionClass.HelloData.HelloWrite | src/socks5_hello.c:66-102 | the session, the table and the next state are those of the specification: the reply goes out, then the method and the switch decide |
| SessionClass.AuthData.Process | src/socks5_auth.c:26-34 | the verdict on the stored credentials is set and queued, or does not fit |
| SessionClass.AuthData.AuthRead | src/socks5_auth.c:36-63 | the session, the table and the next state are those of the specification, over any number of recvs |
| SessionClass.AuthData.AuthWrite | src/socks5_auth.c:69-93 | once the verdict is out, a good one leads to the request and a bad one ends the session, as the specification says |
| RequestClass.RequestData.RequestRead | src/socks5_request.c:33-54 | the session, the table, the threads and the next state are those of the specification, over any number of recvs |
| RequestClass.RequestData.Process | src/socks5_request.c:57-124 | connect, resolve, or decline by command and address type |
| RequestClass.RequestData.Connect | src/socks5_request.c:126-190 | the recursive connect over memory does what the specification says, and terminates |
| RequestClass.RequestData.NextIp | src/socks5_request.c:211-226 | the cursor moves one node forward, or there is none |
| RequestClass.RequestData.ResolvDone | src/socks5_request.c:195-209 | the outcome of the resolver leads to a connect, as the specification says |
| RequestClass.RequestData.Connecting | src/socks5_request.c:270-309 | success, retry, report or abort, with the counters and interests of the specification |
| RequestClass.RequestData.RequestWrite | src/socks5_request.c:314-344 | once the reply is out, a success starts the relay and anything else ends the session, as the specification says |
| CopyClass.CopyData.constructor | src/socks5_copy.c:6-23 | both masks start full |
| CopyClass.CopyData.DetermineInterests | src/socks5_copy.c:26-42 | a side reads iff its mask and its buffer allow, and writes iff its mask and the other buffer do |
| CopyClass.CopyData.CopyRead | src/socks5_copy.c:60-99 | buffers, masks, interests and counters after a read are those of the specification |
| CopyClass.CopyData.CopyWrite | src/socks5_copy.c:101-139 | buffers, masks, interests and counters after a write are those of the specification |
| SessionInvariant.RequestConnectKeeps | src/socks5_request.c:126-190 | any chain of retries leaves a session that owns at most one origin socket and is watched as its next state needs |
| SessionInvariant.CopyReadKeeps | src/socks5_copy.c:60-99 | the relay equations, the exact interests and the counters survive a read |
| SessionInvariant.CopyWriteKeeps | src/socks5_copy.c:101-139 | the relay equations, the exact interests and the counters survive a write |
| SessionInvariant.HandlerExists | src/stm.c:53-86 | an event the interests allow always has a callback in the session's state |
| SessionInvariant.DispatchServes | src/socks5.c:190-236 | after any event a session is in order or torn down, nobody else's descriptors moved, and threads and counters moved as its state did |
| WorldInvariant.ScanCoversTable | src/selector.c:198-209 | the bound of a scan is the maximum the selector keeps, so no registered descriptor is left out |
| WorldInvariant.ChangeKeeps | src/selector.c:324-414 | when one connection changes its own descriptors, every other connection stays in order |
| Handoff.ResolveKeeps | src/socks5_request.c:228-256 | a resolver thread always finds its session alive and waiting |
| Handoff.NotifyKeeps | src/selector.c:488-511 | a notification moves one token from the thread to the list, or loses it for lack of memory |
| Handoff.TakeJob | src/selector.c:466-486 | each job of a drain belongs to a live session that waits for it |
| Accounts.CurrentCoversRelays | src/metrics.c:26-35 | historic less current counts the sessions that ended relaying; current is at least the number relaying |
| Safety.StepKeeps | src/selector.c:513-554 | every step of the process keeps the whole invariant, or aborts because a reply is too big |
| Safety.RunKeeps | src/selector.c:513-554 | no run meets an event without handler, a descriptor registered twice, or a refused interest |
| Theorems.InterestsAreHandleable | src/mng_handler.c:33-87 | in every reachable state every registered interest has a handler in its owner's state, for both services and whatever ready bits are left over |
| Theorems.OneHolder | src/socks5.c:136-236 | every registered descriptor is open and, unless listening, held by exactly one live session |
| Theorems.NothingShared | src/socks5_request.c:126-190 | no two sessions ever hold the same descriptor, retries included |
| Theorems.HandoffExactlyOnce | src/socks5_request.c:92-108 | a session is in REQUEST_RESOLV iff exactly one thread, job or lost notification exists for it |
| Theorems.NobodyElseIsTold | src/socks5_request.c:228-256 | every thread and every queued job is for a live session in REQUEST_RESOLV |
| Theorems.BlockCallsOnlyWaiting | src/selector.c:466-486 | block callbacks only ever reach sessions in REQUEST_RESOLV |
| Streams.RunRecords | src/socks5_copy.c:60-139 | in every run, what a session heard, and what its relay received from either side, is the concatenation of what recv delivered in its own read events, and it told its client and sent its origin as many octets as send took in its own write events |
| Streams.StreamFidelity | src/socks5_copy.c:60-139 | in every run and each direction, the peer was sent the first octets, as many as send took for it, of what was read ahead followed by all that recv delivered from the other side since the relay began; the rest still waits, in order |
| Wakeups.StallsExactly | src/selector.c:488-511 | in every reachable state a live session is watched for what would move it on and could not move on without it, or its resolver result is on its way; except if and only if that notification was lost for lack of memory, or a whole message, or octets for the origin, came ahead and no event has looked at them |
| Wakeups.NoLostWakeup | src/socks5_copy.c:26-42 | in every reachable state of the relay each side has OP_READ iff its buffer has room and OP_WRITE iff the other is not empty, and one of the two in each direction, if and only if the relay has moved or nothing was read ahead |
| Wakeups.UnreadOnlyBeforeFirstRecv | src/socks5_auth.c:36-63 | a session waiting for credentials or the request holds unread octets only if none arrived since it began to wait, and then they are all it heard behind the messages before |
| Wakeups.NoRoomIff | src/socks5_copy.c:60-99 | in every reachable state a session is watched for reading without room for a single octet if and only if octets read ahead fill the buffer, and never on the origin's side |
| Wakeups.FullBufferLosesRelay | src/socks5_copy.c:60-99 | in any run, if octets read ahead fill the buffer of a relay, the client's next read event, whatever it brings, ends the session with none of them sent |
| Wakeups.ClosedClient | src/socks5_request.c:33-54 | in any run, the end of the client's stream ends a session that reads the hello or relays; one that awaits credentials or a request stays unless a whole message is unread, and is left exactly as it was if nothing is |
| Scenarios.StallReached | src/socks5_request.c:314-344 | for any octets sent behind a request, and any buffer that holds both, there is a run that ends in a relay holding them for an origin that is not watched for writing |
| Scenarios.LossReached | src/socks5_copy.c:60-99 | if they fill the buffer, there is a run that ends with the session over and none of them sent |
| Memory.FreedOnceIff | src/socks5.c:217-258 | in any run, a session torn down was freed exactly once and never touched after that iff: it has no origin socket and gave up at most one registered origin on a retry, or it has one and exactly one of these holds: one was given up, the last was still registered; never freed iff its origin was never registered; one still served is freed under its callbacks iff it gave up two |
| Lifetimes.NeverFreedReached | src/socks5.c:238-247 | for every size of at least 10 there is a run in which a session whose only address refuses at once is torn down and never freed |
| Lifetimes.StaleReached | src/socks5_request.c:126-190 | for every size of at least 3 there is a run that ends with a session still served, whose memory was freed and touched again |
| Lifetimes.FreedTwiceReached | src/socks5.c:217-247 | and one in which a session is torn down with its memory freed twice |
| Theorems.CountersAddUp | src/metrics.c:26-43 | the counters equal sums over all sessions ever accepted, and current is never negative |
| Theorems.RetriesBounded | src/socks5_request.c:211-226 | the connects of a session number at most the larger of 1 and its addresses |
| AuthGate.AuthenticationGate | src/socks5_hello.c:66-102 | over runs in which users and the switch may change at any time, a session at its request was cleared by an event of its own: its recv completed credentials that some user had at that moment, and it went on to the success reply; or its hello reply finished with authentication off, leading to the request, after its own hello had offered method 0 while it was off |
| AuthGate.ConnectedSince | src/socks5_request.c:270-309 | a session counted as connected became so at an earlier step of the run, by its own write event, which saw SO_ERROR 0 while connecting |
| Streams.WholeConversation | src/socks5.c:38-87 | for every session that relays or relayed, in any run: all that recv delivered from the client is a hello that offers the chosen method, a login if it asks for one, a request, what the origin was sent and what waits, in that order; what send took for the client is the first part of the method, the verdict, the reply, then all that recv delivered from the origin |
| Transcript.RunSpeaks | src/socks5.c:190-215 | at every state of every run, what was heard and told so far is exactly what that state says |
| Transcript.RelayStarts | src/socks5_request.c:314-344 | the relay starts when all replies are out, with the octets read ahead in its buffer |
| ConnectReplies.LastRefusalIsReported | src/socks5_request.c:126-190 | when all remaining addresses are refused at once, each is tried once and exactly one reply is queued, whose code is that of section 6 of RFC 1928 for the last errno |
| ConnectReplies.PendingOutcomeIsReported | src/socks5_request.c:270-309 | the outcome of the last pending connect is queued in exactly one reply, with the code of section 6 of RFC 1928 |
| ConnectReplies.UnknownOutcomeIsReported | src/socks5_request.c:270-309 | if getsockopt fails, one reply with code 1 is queued |
| ConnectReplies.PendingFailureRetries | src/socks5_request.c:287-295 | a failure with addresses left is not reported but leads to the next attempt |
| ConnectReplies.FirstPendingIsTaken | src/socks5_request.c:126-190 | after any number of refusals, the first attempt that is pending is watched for writing for this session, the client for nothing, and no other socket of the retries stays open |
| ConnectReplies.HopelessSocketEnds | src/socks5_request.c:137-189 | after any number of refusals, an attempt without a socket, or whose connect returns 0, ends the session |
| Admissions.ClientAdmitted | src/socks5.c:136-185 | in any run, a client is taken in iff accept, its mode, memory and the table allow and at most 507 connections count; its session starts with the hello and two empty buffers of the configured size, and otherwise nothing changes |
| Admissions.ManagerAdmitted | src/mng_handler.c:128-174 | the same for a manager with at most 508, starting with the login |
| LoginOutcomes.HelloAnswered | src/socks5_hello.c:30-60 | in any run, a hello that comes whole is answered 5 and the wanted method, 2 or 0 by the switch, if it is offered, else 255 |
| LoginOutcomes.HelloRefused | src/socks5_hello.c:30-60 | anything else ends the session, with nothing told |
| LoginOutcomes.HelloSent | src/socks5_hello.c:66-102 | the answer goes out in any pieces; then the session goes on to the login, to the request, or is over, by the octet it sent and the switch |
| LoginOutcomes.CredentialsJudged | src/socks5_auth.c:19-63 | in any run, complete credentials, however they arrived, are answered 1 0 iff some user has this name and password at that moment, and 1 1 otherwise |
| LoginOutcomes.CredentialsIncomplete | src/parsers/auth.c:33-105 | incomplete ones are waited for, and octets that no credentials start with end the session with nothing told |
| LoginOutcomes.VerdictSent | src/socks5_auth.c:69-93 | the verdict goes out in any pieces; then whoever was told 0 goes on to the request and anybody else is over |
| RequestOutcomes.RequestDecided | src/socks5_request.c:57-124 | in any run, a complete request, however it arrived: CONNECT to types 1 and 4 is attempted, and what the socket answers decides; CONNECT to type 3 starts exactly one resolver thread; any other command, or no thread, is declined without connection, thread or reply |
| RequestOutcomes.RequestIncomplete | src/parsers/request.c:12-167 | an incomplete request is waited for, and octets that no request starts with end the session with nothing told |
| RequestOutcomes.ResolverStores | src/socks5_request.c:228-256 | in any run, what a resolver thread found is stored in the session it was started for, which waits, and in no other |
| RequestOutcomes.ResolverAnswered | src/socks5_request.c:195-209 | the block event attempts as many connects as there are addresses, or one, until one is pending; if all are refused the reply tells of the last |
| RequestOutcomes.ConnectionAnswered | src/socks5_request.c:270-309 | SO_ERROR 0 counts the session as connected and is reported; a failure leads to the next attempt while addresses are left, else it is reported; the codes are those of section 6 of RFC 1928 |
| RequestOutcomes.ReplySent | src/socks5_request.c:314-344 | the reply goes out in any pieces; then the relay begins, watched for reading on both sides, iff the client was told of success, and otherwise the session is over |
| RequestOutcomes.RelayReads | src/socks5_copy.c:60-99 | in any run, octets received from one side join the queue for the other, and both interests are exact afterwards |
| RequestOutcomes.RelayWrites | src/socks5_copy.c:101-139 | octets sent leave their queue, and both interests are exact afterwards |
| RequestOutcomes.RelayEnds | src/socks5_copy.c:60-139 | the end of either stream, or a failure, ends the session at once with nothing more sent, and one connection fewer counts || ConnectReplies.AbortsIffReplyTooBig | src/socks5_request.c:299-302 | the abort happens exactly when the reply is longer than the write buffer |
| ConnectReplies.HarmlessSizesNeverAbort | src/socks5_request.c:299-302 | if every configured size is at least 262 or at most 2, no run aborts |
| Scenarios.AbortReachableIff | src/socks5_request.c:299-302 | for a size that stays the same, some run of the process ends in the abort iff the size is from 3 to 261 |
| Bytes.BigEndianRoundTrip | src/server_config.c:292-308 | four octets carry a number modulo 2^32 |
| AdminForm.FormDecoded | src/parsers/admin_put.c:43-129 | for each of the seven layouts, every message is consumed exactly and its values stored |
| AdminForm.FormExplained | src/parsers/admin_edit.c:34-163 | what a finished parser stored encodes to exactly what it read |
| AdminForm.FormAcceptedIff | src/parsers/admin_delete.c:28-109 | it finishes exactly on inputs that start with a message of its layout |
| AdminEdit.EditParser.FeedByte | src/parsers/admin_edit.c:99-163 | the parser in memory is the shared machine with the layout of EDIT |
| AdminEdit.EditParser.ConsumeBuffer | src/parsers/admin_edit.c:191-204 | its loop takes from the buffer exactly the octets up to the end of the request |
| AdminConfigBuffSize.SizeParser.FeedByte | src/parsers/admin_configbuffsize.c:53-82 | the parser in memory is the shared machine with the layout of CONFIGBUFFSIZE; a zero size fails |
| AdminConfigBuffSize.SizeParser.ConsumeBuffer | src/parsers/admin_configbuffsize.c:107-120 | its loop takes from the buffer exactly the octets up to the end of the request |
| ManagementClient.Login | management_protocol/management_protocol_handler.c:118-134 | the login message followed by two octets too many, or none for a long password |
| ManagementClient.PutRequest | management_protocol/management_protocol_handler.c:511-537 | exactly the message of PUT, or none for a long text |
| ManagementClient.EditRequest | management_protocol/management_protocol_handler.c:571-601 | the message of EDIT and one NUL too many, or none for a long text |
| ManagementClient.DeleteRequest | management_protocol/management_protocol_handler.c:733-753 | exactly the message of DELETE, or none for a long name |
| ManagementClient.ConfigBuffSizeRequest | management_protocol/management_protocol_handler.c:637-650 | exactly the message of CONFIGBUFFSIZE |
| ManagementClient.ConfigStatusRequest | management_protocol/management_protocol_handler.c:689-700 | exactly the message of CONFIGSTATUS |
| ManagementClient.GetRequest | management_protocol/management_protocol_handler.c:434-446 | exactly the message of GET |
| ServerConfig.UserTable.GetUser | src/server_config.c:266-275 | the first user with this name, or none |
| ServerConfig.UserTable.AddUser | src/server_config.c:121-136 | the user is appended, or refused exactly when at most one cell is free or the name is too long |
| ServerConfig.UserTable.EditUser | src/server_config.c:71-85 | one attribute of the first user with this name changes, or nothing does |
| ServerConfig.UserTable.DeleteUser | src/server_config.c:45-66 | the last user takes the place of the first with this name, or nothing changes |
| Management.TurnWants | src/mng.c:13-474 | every callback that goes on leaves the interest of the state it goes to |
| Requests.ActionNeverRefused | src/mng.c:102-148 | the octet that chose the parser is the one it wants, so its action error is unreachable |
| Requests.CutsDoNotMatter | src/mng.c:277-313 | however a request is cut behind its first octet, its parser ends as on the whole stream at once |
| Requests.RequestServed | src/mng.c:102-440 | whatever the buffers held, after any octets that are no action, and however the message arrives, the request is performed on the configuration with exactly the values sent and its reply is queued; the session ends instead only because it cannot be performed or the reply does not fit |
| Requests.RequestsFit | src/parsers/admin_configstatus.c:21-56 | which arguments of the client make requests the server accepts |
| Requests.SizeSetThenRead | src/mng.c:157-223 | CONFIGBUFFSIZE n over one session, then GET over another, each in any pieces: the first is accepted iff 0 < n < 2^31, and for every n > 0 the second is answered with n, even if the first was refused; n = 0 changes nothing |
| Requests.SizeServed | src/server_config.c:91-95 | however it arrives, a size is accepted iff it is positive as a C int; a larger one is refused but stored |
| Requests.SwitchSetThenRead | src/server_config.c:100-116 | authentication or spoofing, set over one session, is read back over another as it was set, however either request arrives |
| Requests.PutThenCheck | src/mng.c:234-266 | PUT answered 0 adds exactly one entry and makes checkUser accept exactly that pair more; any other answer means a full table or a long name, and nothing changed |
| Requests.DeleteRemovesOne | src/mng.c:410-443 | DELETE answered 0 removes exactly the first user of that name; 5 means there is none |
| Requests.EditChangesOne | src/mng.c:277-313 | EDIT answered 0 changes one attribute of the first user of that name and nobody else; 7 means there is none or the value is too long |
| MngGate.TokenDecides | src/mng.c:13-58 | over any number of recvs, a login goes on to an accepting answer iff the octets received start with a login message whose password is the token |
| MngGate.ManagementGate | src/mng.c:64-96 | in every state of every run, a management session past login has received octets that start with a login showing the token the process started with |
| MngGate.HeardIsReceived | src/mng.c:13-58 | those octets are what its own recvs delivered while it logged in; those of its request are what they delivered since it was last ready for one |
| MngGate.ConfigurationGate | src/mng.c:157-443 | if a step of any run changes the users, a switch or the size, it is a recv of a session that showed the token, completing the message of an action, and the change is what that request performs |
| MngOutcomes.LoginAnswered | src/mng.c:13-58 | in any run, a complete login, however it arrived, is answered 0 iff it shows the token, and 4 otherwise |
| MngOutcomes.LoginIncomplete | src/mng.c:13-58 | one that is not complete is waited for, all of it remembered, and one that cannot become one ends the session |
| MngOutcomes.LoginSent | src/mng.c:64-96 | the answer goes out, and whoever was told 0 may make a request while anybody else is sent away |
| MngOutcomes.ActionChosen | src/mng.c:102-148 | the first octet, 0 to 5, chooses the action, and any other is passed over |
| MngOutcomes.ActionIncomplete | src/mng.c:157-443 | a request that is not complete is waited for, all of it remembered, and one that cannot become one ends the session; either changes nothing |
| MngOutcomes.GetAnswered | src/mng.c:157-224 | in any run, GET is answered, however it arrived, with what its option stands for: 2 the buffer size, 3 and 4 a switch, 7 the sessions ever connected, 8 those of them not ended, numbers modulo 2^32 |
| MngOutcomes.UserAdded | src/mng.c:234-266 | in any run, PUT adds exactly this user and is answered 0, or is answered 5 and changes nothing |
| MngOutcomes.UserRemoved | src/mng.c:410-443 | in any run, DELETE removes exactly the first user of that name, or is answered 5 |
| MngOutcomes.UserEdited | src/mng.c:277-313 | in any run, EDIT changes one attribute of the first user of that name, or is answered 7 |
| MngOutcomes.SizeSet | src/server_config.c:91-95 | in any run, CONFIGBUFFSIZE n stores n, and is answered 0 iff n < 2^31 |
| MngOutcomes.SwitchSet | src/server_config.c:100-116 | in any run, CONFIGSTATUS turns the named switch on with 0 and off with 1, and is answered 0 |
| MngOutcomes.ReplyToManagerSent | src/mng.c:450-474 | a reply goes out in any pieces, and then the session is over |
| Requests.UnderstoodIff | src/mng.c:102-148 | octets in front of a request are harmless exactly when none of them is an action |
| Requests.LoginSurplusIff | management_protocol/management_protocol_handler.c:128-134 | of login's two surplus octets, the next request survives a late suffix iff it is empty or one octet that is no action |
| Requests.SurplusServedAsGet | management_protocol/management_protocol_handler.c:128-134 | when both are late, the session is served GET of the second, whatever was asked, or ends if there is no such option |

## Left out

- The heap beyond `toFree`: the blocks of buffers and address lists are freed together with the session. Once a session has been freed, its memory is taken to keep its contents.
- `connecting_clients` in src/metrics.c: it is raised and lowered but never read.
- src/pop3_sniffer.c, logging, argument parsing, address formatting and start-up.
- The text of GET for users, captured passwords and the two byte counters: an input of the model. The byte counters are encoded from 32 bits with shifts of up to 56, and the received bytes are answered with the sent ones.
- What follows the status in the replies to PUT, EDIT, DELETE, CONFIGBUFFSIZE and CONFIGSTATUS: those marshallers advance by all the free space, so the memory behind the status is an input of the model.
- src/mng.c and src/mng_handler.c in memory: their callbacks are functions on values, so update in place of their buffers and parsers is not captured.
- The parsers of the management protocol in memory, other than EDIT and CONFIGBUFFSIZE: they repeat the code of EDIT with fewer slots, and are instances of `AdminForm` on values.
- src/socks5.c in memory: accepting, the wrappers around the engine and arrivals are functions on values; tearing down is `SessionClass.Channel.Finish`.
- Memory for a table that grows while handlers run: `SelectorClass.Selector.Execute` takes the allocator to say yes.
- Which address retry k uses: the code copies the head of the list, and only the number of attempts is modelled.
- Replies to unsupported commands and parse errors: the code queues none.
- Failures of pselect other than an interruption: the program exits.
- The peer's view of `shutdown`: closing one direction is modelled by the masks alone.
