# The icebridge game server, modelled and proved in Dafny

The server has four parts with hard properties; the project models each as the code has it and
proves what its comments and tests promise, or exactly when the code keeps the promise.

**The gateway.** Handlers live on the main thread, sessions on worker threads, and they reach each
other only through commands in first-in-first-out queues. Commands find their session or handler by
a 32-bit id that is used again after a session closes.

- `Session` holds the callbacks of one session as functions.
- `Link` is one connection on its own: its session, its handler and its own commands. `LinkSteps`
  proves its invariant over all its runs, and `LinkRuns` draws the results from it. `LinkHistory`
  proves that what a connection records of itself is what the events of the run say.
- `Gateway` is all connections with the shared queues, tables and id generator. `GatewaySteps` proves
  that every step of the gateway is one step of one connection and nothing for the others, and
  `GatewayRuns` carries every result about one connection over to any run. `GatewayHistory` goes from
  what the application sends to what the client can read, and back.
- `SessionObjects` has the session, the handler and the thread manager as objects.
- `IdGenerator` has the id generator, `NetMessages` the message type that shares vectors between
  copies and copies them on write.

**The wire.** `SBox` has the substitution box: the server computes a base box and swaps entries by
index, the client holds a literal table and swaps entries by value, and both stay inverse. `Framing`
has the server's filter and the Python client's stream parser.

**The broker.** `Broker` has services, waiting workers and queued requests on values, `BrokerObjects`
the same as objects with their scanning loops. `ReservedNames` works out which names the broker
refuses to serve, `BusyWorkers` when a worker has more than one request, `WaitingLists` who waits
after each message, and `WaitingOrder` in what order and who is sent a request. `BrokerClient` is the
gateway's client of several brokers. `Envelope` follows a request and its reply through all the
multi-part messages.

**The item market.** `Market` is the vector of listings with its index. `Items` has the players'
items in memory, in the stored records and on the market, and every request as a function;
`ItemSteps` proves that every request keeps the three in agreement, and `ItemOutcomes` says of each
what it changes and when it is refused. `ItemStore` is the loading of a
session from the store, and proves that it brings everything back. `ItemLogins` is how sessions come
and go: a login that finds the player's session on the table tells it to close and waits for its end,
while it still serves requests. `ItemRuns` draws the results over every run of all this, and
`ItemMoney` follows the money of all players. `ItemOverlaps` shows what happens when a player logs in
past a session that is still served, `ItemStrays` what the requests and the ends of such sessions
change, and `ItemScenes` has the concrete runs. `ItemObjects` has the
request handlers and the loading loops on the session's arrays.

Modules on values define the behaviour as functions and state the properties as lemmas over every
run. Modules with classes have the code's own loops and updates, each method proved equal to the
function. `hide` statements only keep definitions from the solver where a proof does not need them.

What the environment decides is a parameter of a step: which read or write completes, how far and
whether it fails, what the clock shows, random ids, the random bytes of a handshake, and which
connections the address filter lets in. A run is any list of such steps; steps that cannot happen in
a state are skipped, except in `Broker`, where a run ends at the first message that the code does not
support.

Where the code does not do what its comments promise or its tests are for, the code is modelled:

- `tcp_session_handler.h` promises that Close waits until all data has been sent. A read error that
  comes first breaks that (`LinkRuns.ReadErrorBreaksPromise`); `LinkRuns.DrainsExactlyIfNothingQueued` and
  `LinkRuns.DrainsExactlyWhenAccepted` say when it holds.
- The session posts its close notice before it packs the last batch, so that batch is always lost
  (`LinkRuns.UnpackedMessagesAreLost`, `LinkRuns.AReceivedMessageIsLost`).
- The frame header is an unsigned short on the server and a signed one in the client.
- The broker means to reserve names that start with "mmi.", but `find_first_of` reserves every name
  of four or more characters that starts with m, i or a full stop
  (`ReservedNames.ReservedTooMuchExactlyIf`), and such services never get a request
  (`ReservedNames.ReservedNamesAreNeverServed`).
- Picking up an item with a full backpack erases the mail and leaves the item out of reach until the
  player's next login (`ItemRuns.FullBackpackLosesItem`, `ItemScenes.AnItemIsLost`).
- A buyer pays the price of the listing, but the code reads what the seller gets after del_market has
  moved the last listing to its place (`ItemScenes.ASellerIsPaidAnotherPrice`,
  `ItemMoney.PurchaseKeepsMoneyExactlyIf`).
- A login that takes over from a session keeps the money that it has read before, though the session
  goes on serving requests until its end (`ItemScenes.ALoginMakesMoney`,
  `ItemMoney.TakeoverKeepsMoneyExactlyIf`); and a further login before that end is loaded at once, so
  that the player has two sessions (`ItemScenes.ALoginDoublesAnItem`). The end of one of them takes the
  other off the table (`ItemStrays.StrayEndOutcome`).
- A service that waits for responses is meant to give a worker one request at a time, but a heartbeat
  of a busy worker brings it the next (`BusyWorkers.BusyWorkerIsSentExactlyIf`).
- The id generator tests `next_ <= max_`, which with the largest 32-bit maximum is always so
  (`IdGenerator.WrapHandsOutTheInvalidId`); `IdGenerator.GetKeepsInvExactly` says when it is sound.
- A client's request asks for its service under the default type, and so changes the type that
  workers have given it.

Run `dafny verify dfyconfig.toml` to check everything.

## Model

| member | source | states |
|---|---|---|
| `GatewayRuns.EveryConnectionRunsAlone` | icebridge_svn/trunk/gateway_server/sdk/tcp_io_thread_manager.cc:43-133 | main refinement: in every run of the whole gateway, with its shared queues, session tables, handler table and recycled ids, what any connection goes through is a run of that connection on its own, where every command reaches its own session or handler |
| `GatewayRuns.RunRefines` | icebridge_svn/trunk/gateway_server/sdk/tcp_io_thread_manager.cc:43-133 | the same from any reachable state onwards |
| `GatewaySteps.StepRefines` | icebridge_svn/trunk/gateway_server/sdk/tcp_io_thread.h:55-58 | each step (new connection, Send, Close, a turn of a thread's queue, a completed read or write) is one step of exactly one connection and nothing for every other, although commands find sessions and handlers by id |
| `GatewayRuns.EveryConnectionIsInvariant` | icebridge_svn/trunk/gateway_server/sdk/tcp_session.cc:182-324 | in every run every connection satisfies the invariant from which the results of LinkRuns follow |
| `GatewayRuns.AssertionsHold` | icebridge_svn/trunk/gateway_server/sdk/tcp_io_thread_manager.cc:54-63 | over every run the "insert must succeed" assertions (handler map, session table, no earlier id) hold, the generator always has an id, live handlers have different ids, and the id counter stays at 14098 or below, so it never wraps |
| `GatewayRuns.OldCommandsAreHarmless` | icebridge_svn/trunk/gateway_server/sdk/tcp_session_handler.cc:43-54 | a message or close command posted for an old session changes no other connection, in particular not a later one with the same id |
| `GatewayRuns.NoMessageAfterClose` | icebridge_svn/trunk/gateway_server/sdk/tcp_session.cc:124-136 | once OnClose has run, no later run delivers anything more to that handler |
| `GatewayHistory.EndToEnd` | icebridge_svn/trunk/gateway_server/sdk/tcp_session.cc:55-84 | in any run, however the network cuts the stream, the client of a connection recovers a prefix of what the application has handed to Send for that connection, as the inputs of the run say |
| `GatewayHistory.ClosedConnectionIsComplete` | icebridge_svn/trunk/gateway_server/sdk/tcp_session_handler.h:58-60 | when the application's Close closed the session and no write failed, both by the inputs of the run, the client can recover exactly what was handed to Send before Close |
| `GatewayHistory.RecordIsAsked` | icebridge_svn/trunk/gateway_server/sdk/tcp_session_handler.cc:98-124 | in every run a handler's record of what it sent is the list of all messages that are not empty and were handed to Send while it was not disposed of, and where Close stands in it is where the application called it |
| `GatewayHistory.SessionsReadAndHearClose` | icebridge_svn/trunk/gateway_server/sdk/tcp_session.cc:224-247 | in every run a session that is open and in its table has a read outstanding, unless the client has announced a message of no bytes; once Close has been called, the session is closed or a command to close it is queued |
| `GatewayHistory.RequestsReachTheHandler` | icebridge_svn/trunk/gateway_server/sdk/tcp_session.cc:182-247 | after the handshake, from any state of any run: whatever part of a client's requests has been read is parsed in order, and what the handler has seen is a prefix of it |
| `GatewayHistory.ConnectsExactlyIf` | icebridge_svn/trunk/gateway_server/sdk/tcp_io_thread_manager.cc:43-67 | a connection is refused, and nothing changes, if and only if the address filter does not let it in or there are more than 10000 handlers; otherwise it has its own handler under an id that no handler has, and no other connection is touched |
| `GatewaySteps.DeliverFinds` | icebridge_svn/trunk/gateway_server/sdk/tcp_session.cc:124-133 | the session's id finds the connection's own handler, or none once that is disposed of, never another's, even for the batch posted behind the close notice |
| `GatewaySteps.CommandFinds` | icebridge_svn/trunk/gateway_server/sdk/tcp_session_handler.cc:126-134 | a queued command's id finds the session of the connection that posted it exactly while that session is in its thread's table, and otherwise none |
| `GatewaySteps.NoticeFinds` | icebridge_svn/trunk/gateway_server/sdk/tcp_io_thread_manager.cc:112-133 | the close notice finds the connection's own handler |
| `GatewaySteps.InitFinds` | icebridge_svn/trunk/gateway_server/sdk/tcp_session.cc:86-94 | Init meets a session without an id and a table without that id |
| `GatewaySteps.GetIsFresh` | icebridge_svn/trunk/gateway_server/sdk/tcp_io_thread_manager.cc:48-54 | with at most 10000 handlers the generator answers with an id that no handler has |
| `LinkSteps.StepInv` | icebridge_svn/trunk/gateway_server/sdk/tcp_session.cc:182-324 | every callback of session and handler, and every completed or failed operation, keeps the connection's invariant |
| `LinkRuns.SendOrder` | icebridge_svn/trunk/gateway_server/sdk/tcp_session_handler.cc:98-124 | while the session is open, the encoding of everything sent is wire bytes, both buffers, what is queued for the session's thread and what the handler still holds, in this order |
| `LinkHistory.HistoryIsTrue` | icebridge_svn/trunk/gateway_server/sdk/tcp_session_handler.cc:98-124 | over every run, the recorded list is what the events have handed to Send, the mark is where they called Close, and whether a write has failed and what closed the session is what the events say |
| `LinkHistory.CloseIsHeard` | icebridge_svn/trunk/gateway_server/sdk/tcp_session_handler.cc:150-161 | once Close has been called, the session is closed or a command to close it is queued for its thread |
| `LinkHistory.ParsedIsRead` | icebridge_svn/trunk/gateway_server/sdk/tcp_session.cc:182-247 | over every run, what a session has parsed is what its reader makes of the bytes that completed reads have brought, however they were cut |
| `LinkRuns.OpenSessionsAreAtWork` | icebridge_svn/trunk/gateway_server/sdk/tcp_session.cc:224-290 | an open session is reading if and only if it has not been announced a message of no bytes, and while no write has failed it is writing if and only if a buffer holds bytes |
| `LinkRuns.WireIsPrefix` | icebridge_svn/trunk/gateway_server/sdk/tcp_session.cc:249-290 | open or closed, the wire is a prefix of the encoding of what was sent |
| `LinkRuns.CloseBookkeeping` | icebridge_svn/trunk/gateway_server/sdk/tcp_session.cc:292-324 | num_handlers_ is the number of outstanding reads and writes, at most one each; OnSessionClose is posted at most once, and exactly when a closed session has no outstanding operation |
| `LinkRuns.NoLostWakeUp` | icebridge_svn/trunk/gateway_server/sdk/tcp_session.cc:198-222 | a non-empty send list has a pack command queued on the main thread, and a non-empty receive list one on the session's thread |
| `LinkRuns.GracefulClose` | icebridge_svn/trunk/gateway_server/sdk/tcp_session.cc:263-306 | if no write failed, both buffers are empty when the notice is out, everything accepted is on the wire, and so is everything sent before Close if Close is what closed the session |
| `LinkRuns.DrainsExactlyWhenAccepted` | icebridge_svn/trunk/gateway_server/sdk/tcp_session_handler.h:58-60 | the promise of Close holds exactly when PostMessageList accepted as many messages as were sent before Close |
| `LinkRuns.DrainsExactlyIfNothingQueued` | icebridge_svn/trunk/gateway_server/sdk/tcp_session.cc:55-57 | if something other than the close command closes the session after Close has been called, the promise of Close is kept, on every later run without a failed write, exactly when no message from before Close is still queued for the session's thread at that moment |
| `LinkRuns.ReadErrorBreaksPromise` | icebridge_svn/trunk/gateway_server/sdk/tcp_session.cc:192-196 | a concrete run in which a read error between Close and the queued list loses a message although no write fails: the header's promise is false as stated |
| `LinkRuns.DeliveredIsPrefix` | icebridge_svn/trunk/gateway_server/sdk/tcp_session.cc:139-153 | what the handler has seen is a prefix of what was parsed; nothing is missing from the rest while the handler is not closed |
| `LinkRuns.UnpackedMessagesAreLost` | icebridge_svn/trunk/gateway_server/sdk/tcp_session.cc:301-318 | HandleClose posts the notice before it packs, so what was received but not packed at that moment never reaches the handler, on any later run |
| `LinkRuns.AReceivedMessageIsLost` | icebridge_svn/trunk/gateway_server/sdk/tcp_session.cc:301-318 | a concrete run from the start in which the client's one message is received and the handler never sees it |
| `SessionObjects.TCPSession.PostMessageList` | icebridge_svn/trunk/gateway_server/sdk/tcp_session.cc:55-84 | frames the list behind the waiting bytes and starts a write if none is outstanding, as the session's value function does |
| `SessionObjects.TCPSession.Init` | icebridge_svn/trunk/gateway_server/sdk/tcp_session.cc:86-119 | takes the id, enters the thread's table, starts the first read, and reports a failed assertion |
| `SessionObjects.TCPSession.HandleRead` | icebridge_svn/trunk/gateway_server/sdk/tcp_session.cc:182-247 | session, both queues and table after a completed or failed read |
| `SessionObjects.TCPSession.HandleWrite` | icebridge_svn/trunk/gateway_server/sdk/tcp_session.cc:249-290 | session, both queues and table after a completed or failed write |
| `SessionObjects.TCPSession.HandleClose` | icebridge_svn/trunk/gateway_server/sdk/tcp_session.cc:292-324 | waits for outstanding operations, else posts the notice, then the last batch, and leaves the table |
| `SessionObjects.TCPSession.Close` | icebridge_svn/trunk/gateway_server/sdk/tcp_session.cc:331-339 | closes at most once |
| `SessionObjects.TCPSessionHandler.Send` | icebridge_svn/trunk/gateway_server/sdk/tcp_session_handler.cc:98-124 | appends, and posts a pack command only when the list was empty; nothing when closed or for an empty message |
| `SessionObjects.TCPSessionHandler.Close` | icebridge_svn/trunk/gateway_server/sdk/tcp_session_handler.cc:150-161 | packs what is pending and then posts the close command under the current id |
| `SessionObjects.TCPSessionHandler.PackMessageList` | icebridge_svn/trunk/gateway_server/sdk/tcp_session_handler.cc:56-72 | hands the whole list to the session's thread |
| `SessionObjects.TCPIOThreadManager.OnSessionConnect` | icebridge_svn/trunk/gateway_server/sdk/tcp_io_thread_manager.cc:43-67 | refuses by address filter or above 10000 handlers, else registers the handler under a new id and posts Init |
| `SessionObjects.TCPIOThreadManager.OnSessionClose` | icebridge_svn/trunk/gateway_server/sdk/tcp_io_thread_manager.cc:112-133 | disposes of the handler of that id, if any, and returns the id |
| `IdGenerator.GetIsUnique` | icebridge_svn/trunk/gateway_server/sdk/id_generator.h:45-61 | while counting has not run past the maximum, Get answers with an id that is not live, and keeps the invariant |
| `IdGenerator.PutKeepsInv` | icebridge_svn/trunk/gateway_server/sdk/id_generator.h:63-65 | returning a live id keeps the invariant |
| `IdGenerator.GetKeepsInvExactly` | icebridge_svn/trunk/gateway_server/sdk/id_generator.h:45-61 | when Get has an answer, the invariant (every id counted out is live or in the pool, once, and counting has not wrapped) holds afterwards if and only if the answer comes from the pool or is not 4294967295 |
| `IdGenerator.RunKeepsInv` | icebridge_svn/trunk/gateway_server/sdk/id_generator.h:45-65 | over every run that returns only live ids and does not hand out 4294967295, each id counted out is live or in the pool, once |
| `IdGenerator.EveryRunIsUnique` | icebridge_svn/trunk/gateway_server/sdk/id_generator.h:45-65 | on every such run from a new generator, the next id is one that is not out |
| `IdGenerator.Quarantine` | icebridge_svn/trunk/gateway_server/sdk/id_generator.h:45-65 | on such a run, of any length and with any use of the pool, at least `threshold_` different other ids are returned between the return of an id and its next use |
| `IdGenerator.WrapHandsOutTheInvalidId` | icebridge_svn/trunk/gateway_server/sdk/id_generator.h:54-58 | with the default maximum the test for exhaustion never fails: a run of Gets from a new generator comes to 0, the mark of a closed handler (GatewayRuns.AssertionsHold says that no run of the gateway gets there) |
| `IdGenerator.IDGenerator.Get` | icebridge_svn/trunk/gateway_server/sdk/id_generator.h:45-61 | the object does what the function does |
| `Framing.RoundTripUnderChunking` | icebridge_test/User.py:44-58 | for every list that opens with the challenge and whose frame lengths are at most 32767, and every split of the stream into reads, the client recovers the same ids and payloads in order |
| `Framing.RoundTripExactlyWhenLengthsFit` | icebridge_test/User.py:48-53 | the client recovers the list if and only if every frame length fits a positive signed short |
| `Framing.ChunkingIsIrrelevant` | icebridge_test/User.py:38-58 | the parser's result does not depend on how the stream is cut into reads |
| `Framing.CutStreamYieldsPrefix` | icebridge_test/User.py:38-58 | a stream cut short at any byte yields a prefix of the messages and no error |
| `Framing.EncodeAppend` | icebridge_svn/trunk/gateway_server/sdk/my_filter.h:71-126 | framing two lists one after the other is framing their concatenation, with the box carried over |
| `Framing.ChallengeStartsAfresh` | icebridge_svn/trunk/gateway_server/sdk/my_filter.h:93-118 | from a challenge on, the frames do not depend on the box used before it |
| `Framing.ChallengeRoundTrip` | icebridge_svn/trunk/gateway_server/sdk/my_filter.h:93-118 | the challenge travels in the clear with the exchange pairs behind it, and brings client and filter into step |
| `Framing.RequestsRoundTrip` | icebridge_svn/trunk/gateway_server/sdk/my_filter.h:135-191 | the gateway recovers every request with an id of at least 1000 and two or more payload bytes, and leaves the others substituted |
| `Framing.MyFilter.Write` | icebridge_svn/trunk/gateway_server/sdk/my_filter.h:71-126 | appends the frames of the messages before the first oversized one, and empties the list only if there is none |
| `Framing.MyFilter.Read` | icebridge_svn/trunk/gateway_server/sdk/my_filter.h:135-157 | one completed read is the header or one message |
| `Framing.User.Process` | icebridge_test/User.py:44-72 | the parsing loop does what the parser's function does, up to the first incomplete frame or unpacking error |
| `SBox.SevenRoundsAreOneSquare` | icebridge_svn/trunk/gateway_server/sdk/AESSBox.cpp:46-54 | the seven rounds compute the 254th power, which modulo x^8 + x is the square, a permutation of the bits |
| `SBox.LiteralTableInvertsBaseBox` | icebridge_test/EncryptionBox.py:5-22 | the client's literal table is, entry for entry, the inverse of the generated box |
| `SBox.OneExchangeKeepsInverse` | icebridge_test/EncryptionBox.py:24-36 | a server swap of two indices and a client swap of the same two values keep box and table inverse |
| `SBox.ExchangesKeepInverse` | icebridge_test/EncryptionBox.py:38-44 | any list of exchange pairs keeps them inverse permutations |
| `SBox.SubstitutionRoundTrip` | icebridge_svn/trunk/gateway_server/sdk/TeaAlgorithm.cpp:42-61 | after any handshake, messages of any length round-trip in both directions |
| `SBox.MulTwo` | icebridge_svn/trunk/gateway_server/sdk/AESSBox.h:141-232 | the fifteen column tests compute the product of two polynomials over GF(2) |
| `SBox.Mod` | icebridge_svn/trunk/gateway_server/sdk/AESSBox.h:104-114 | long division computes the remainder modulo x^8 + x |
| `SBox.Square` | icebridge_svn/trunk/gateway_server/sdk/AESSBox.h:116-136 | mul computes the square |
| `SBox.Matrix` | icebridge_svn/trunk/gateway_server/sdk/AESSBox.h:234-284 | the eight row tests compute the affine step of the recipe |
| `SBox.Length` | icebridge_svn/trunk/gateway_server/sdk/AESSBox.h:89-102 | counts binary digits |
| `SBox.GenerateBox` | icebridge_svn/trunk/gateway_server/sdk/AESSBox.cpp:32-74 | fills the base box |
| `SBox.FormNewBoxes` | icebridge_svn/trunk/gateway_server/sdk/AESSBox.cpp:76-99 | copies the base box and exchanges the pairs in place |
| `SBox.SubstituteInPlace` | icebridge_svn/trunk/gateway_server/sdk/TeaAlgorithm.cpp:42-61 | substitutes a prefix of the buffer and leaves the rest |
| `SBox.EncryptionBox.SwitchSbox` | icebridge_test/EncryptionBox.py:24-36 | the search for two values and the swap of their places |
| `SBox.EncryptionBox.SwitchTable` | icebridge_test/EncryptionBox.py:38-44 | all pairs in order, or nothing if there are not 128 bytes |
| `NetMessages.Perform` | icebridge_svn/trunk/gateway_server/sdk/net_message.cc:23-120 | any sequence of creating, writing, reserving, making dynamic, clearing, swapping, assigning and copying, on any number of messages that may share vectors, leaves in each message what it leaves in independent byte sequences |
| `NetMessages.NetMessage.Write` | icebridge_svn/trunk/gateway_server/sdk/net_message.cc:99-120 | appends to this message and changes no other, through the static buffer, an own vector, or a copy of a shared one |
| `NetMessages.NetMessage.Assign` | icebridge_svn/trunk/gateway_server/sdk/net_message.cc:81-96 | this message takes the other's content, and nothing else changes |
| `NetMessages.NetMessage.Copy` | icebridge_svn/trunk/gateway_server/sdk/net_message.h:97-99 | the copy holds the same content, though its static size may start as garbage |
| `NetMessages.NetMessage.Swap` | icebridge_svn/trunk/gateway_server/sdk/net_message.cc:23-55 | the two messages trade contents, in all four combinations of storage, and nothing else changes |
| `NetMessages.NetMessage.Reserve` | icebridge_svn/trunk/gateway_server/sdk/net_message.cc:58-67 | no content changes |
| `NetMessages.NetMessage.SetDynamic` | icebridge_svn/trunk/gateway_server/sdk/net_message.cc:70-78 | no content changes, and the message is dynamic |
| `NetMessages.NetMessage.Clear` | icebridge_svn/trunk/gateway_server/sdk/net_message.h:168-171 | this message is empty and no other changes |
| `NetMessages.NetMessage.SetAt` | icebridge_svn/trunk/gateway_server/sdk/my_filter.h:89-91 | a write through begin(), like the filter's encryption in place, leaves all other messages alone exactly if the vector is not shared or the byte stays the same |
| `NetMessages.Alone` | icebridge_svn/trunk/gateway_server/sdk/net_message.cc:110-118 | a reference count of one means that no other message shares the vector |
| `Broker.EveryRun` | icebridge_svn/trunk/router/mdbroker.cpp:98-162 | over every supported run: accepted requests equal dispatched ones followed by queued ones, for every service and across type changes; no service has both queued requests and waiting workers; waiting lists have no duplicates and their workers point to that service; no expired worker was sent anything |
| `Broker.StepInv` | icebridge_svn/trunk/router/mdbroker.cpp:243-403 | every message of a worker or client keeps all of that, whatever the clock shows |
| `Broker.ServeIsFifo` | icebridge_svn/trunk/router/mdbroker.cpp:143-162 | a dispatch sends the oldest requests in order and ends with no request or no live waiting worker |
| `Broker.ServeTheLiving` | icebridge_svn/trunk/router/service.hpp:75-83 | only workers that wait and have not expired are sent anything |
| `Broker.ServeWaiting` | icebridge_svn/trunk/router/service.hpp:112-119 | a ServiceWaitResponse service gives its i-th request to its i-th live worker, and exactly those workers leave the list |
| `Broker.ServeRoundRobin` | icebridge_svn/trunk/router/service.hpp:136-144 | a ServiceDoNotWaitResponse service goes round its live workers, the i-th request i places on from the cursor, and keeps the list |
| `Broker.PlaceIsModulo` | icebridge_svn/trunk/router/service.hpp:139-143 | that place is the cursor plus i modulo the number of live workers |
| `Broker.ChangeKeepsPointers` | icebridge_svn/trunk/router/mdbroker.cpp:103-111 | a type change leaves no worker with a pointer to the deleted service if and only if all workers of the service wait |
| `Broker.TypeChangeLeavesDangling` | icebridge_svn/trunk/router/mdbroker.cpp:394 | a concrete run of three messages in which a client's request changes a service's type and leaves a busy worker's pointer dangling |
| `Broker.ChangeInv` | icebridge_svn/trunk/router/service.hpp:33-43 | copying requests and waiting workers to the new service keeps the invariant |
| `WaitingLists.Departure` | icebridge_svn/trunk/router/mdbroker.cpp:221-236 | after its DISCONNECT a worker is in no waiting list; every other worker, request and turn is as before |
| `WaitingLists.NothingAfterDisconnect` | icebridge_svn/trunk/router/mdbroker.cpp:288-289 | over every run, nothing is sent to a worker between its DISCONNECT and its own next message |
| `WaitingLists.Arrival` | icebridge_svn/trunk/router/mdbroker.cpp:351-360 | after its READY, REPLY or HEARTBEAT a worker has a new time, points to its service, of the type asked for, and waits there, or a service that takes workers off has just sent it a request |
| `WaitingLists.NobodyIsDropped` | icebridge_svn/trunk/router/mdbroker.cpp:243-403 | whatever message comes, a worker that waits and has not expired goes on waiting, unless it leaves or a service that takes workers off sends it a request |
| `WaitingLists.NobodyIsAdded` | icebridge_svn/trunk/router/mdbroker.cpp:243-403 | nobody gets into a waiting list except by a message of its own |
| `WaitingLists.KnownClients` | icebridge_svn/trunk/router/mdbroker.cpp:382-392 | a client is known if and only if it was, or the message is its own heartbeat |
| `WaitingOrder.OrderIsKept` | icebridge_svn/trunk/router/service.hpp:45-83 | whatever message comes, the workers that go on waiting keep their order, and whoever joins stands behind them |
| `WaitingOrder.RequestOutcome` | icebridge_svn/trunk/router/mdbroker.cpp:394-402 | a client's request is sent on at once if and only if a worker that has not expired waits, and then to the first if the service has waited for responses until now, and otherwise to the next in turn; else it is the last in the queue |
| `BusyWorkers.BusyWorkerIsSentExactlyIf` | icebridge_svn/trunk/router/mdbroker.cpp:280-286 | a worker that a ServiceWaitResponse service has taken off its list is sent a request in a step if and only if the step is its own answer, heartbeat or READY and a request is queued; so one request at a time holds exactly for workers that show no other sign of life before they answer |
| `BusyWorkers.ABusyWorkerIsSentTheNext` | icebridge_svn/trunk/router/mdbroker.cpp:280-286 | a concrete run in which a busy worker's heartbeat brings it a second request |
| `ReservedNames.ReservedByTheCode` | icebridge_svn/trunk/router/mdbroker.cpp:397-399 | the test with find_first_of is that of the model |
| `ReservedNames.ReservedTooMuchExactlyIf` | icebridge_svn/trunk/router/mdbroker.cpp:252-254 | a name is reserved without starting with "mmi." if and only if it has four or more characters, starts with m, i or a full stop, and not with "mmi." |
| `ReservedNames.AcceptedExactlyIfNotReserved` | icebridge_svn/trunk/router/mdbroker.cpp:397-401 | a client's request is accepted if and only if its service's name is not reserved |
| `ReservedNames.ReservedNamesAreNeverServed` | icebridge_svn/trunk/router/mdbroker.cpp:243-403 | over every run, nothing is accepted, queued or dispatched under a reserved name, and nothing sent to a worker of such a name |
| `ReservedNames.ItemIsNeverServed` | icebridge_svn/trunk/router/mdbroker.cpp:397-399 | a concrete run: a service "item" with a live waiting worker gets nothing of a client's request |
| `BrokerObjects.Service.Copy` | icebridge_svn/trunk/router/service.hpp:33-43 | takes over both lists, empties the old service and points the waiting workers here |
| `BrokerObjects.Service.WorkerWaiting` | icebridge_svn/trunk/router/service.hpp:45-53 | adds a worker unless it is in the list |
| `BrokerObjects.Service.DeleteWorker` | icebridge_svn/trunk/router/service.hpp:55-62 | erases exactly that worker, scanning while erasing |
| `BrokerObjects.Service.HasActivedWorker` | icebridge_svn/trunk/router/service.hpp:75-83 | erases exactly the expired workers and counts the others |
| `BrokerObjects.Service.PopRequest` | icebridge_svn/trunk/router/service.hpp:65-72 | takes the oldest request, or none |
| `BrokerObjects.Service.PopWorker` | icebridge_svn/trunk/router/service.hpp:112-144 | the first worker leaves the list, or the next in turn stays, by kind of service |
| `BrokerObjects.Service.DispatchLoop` | icebridge_svn/trunk/router/mdbroker.cpp:143-162 | the loop on the service object, through its own methods, ends, leaves the service as the dispatch function says and sends what that says |
| `BrokerObjects.BrokerWorker.Waits` | icebridge_svn/trunk/router/mdbroker.cpp:351-360 | the worker's time is renewed, it joins the list of the service that it points to, and that service's requests are dispatched |
| `BrokerObjects.BrokerWorker.Leaves` | icebridge_svn/trunk/router/mdbroker.cpp:221-236 | the worker leaves the list of the service that it points to, if any |
| `BrokerObjects.Broker.WorkerProcess` | icebridge_svn/trunk/router/mdbroker.cpp:243-294 | READY, REPLY, HEARTBEAT and DISCONNECT do what the step function says |
| `BrokerObjects.Broker.ClientProcess` | icebridge_svn/trunk/router/mdbroker.cpp:366-403 | a client's request or heartbeat does what the step function says |
| `BrokerObjects.Broker.ServiceRequire` | icebridge_svn/trunk/router/mdbroker.cpp:116-136 | finds, creates or changes a service |
| `BrokerClient.EndsExactlyWhenLive` | icebridge_svn/trunk/gateway_server/logic_server/mdcliapi2.hpp:254-263 | the sending loop ends if and only if nothing is queued, there is no broker, or some broker is live |
| `BrokerClient.DrainIsRoute` | icebridge_svn/trunk/gateway_server/logic_server/mdcliapi2.hpp:254-263 | it sends every queued request once, in order, each to the next live broker in turn |
| `BrokerClient.EveryRun` | icebridge_svn/trunk/gateway_server/logic_server/mdcliapi2.hpp:231-280 | over every run, requests sent followed by requests queued are the requests asked for; and if send is one step, the loop never starts where it cannot end |
| `BrokerClient.SendRequestsKeeps` | icebridge_svn/trunk/gateway_server/logic_server/mdcliapi2.hpp:231-265 | one pass sends all requests or none, and only to brokers whose time has not run out |
| `BrokerClient.PassSendsExactlyIf` | icebridge_svn/trunk/gateway_server/logic_server/mdcliapi2.hpp:231-265 | a pass marks dead exactly the brokers whose time has run out; if one is left that has been heard of, it sends every queued request, in order, each to the next such broker in turn, and otherwise nothing |
| `BrokerClient.PassMovesTheTurn` | icebridge_svn/trunk/gateway_server/logic_server/mdcliapi2.hpp:262 | after a pass that has sent something it is the turn of the broker behind the last one used |
| `BrokerClient.BrokersAreAsTold` | icebridge_svn/trunk/gateway_server/logic_server/mdcliapi2.hpp:233-236 | over every run the brokers are those added, in their places, with the times they were last heard with, and as they were told to be unless marked dead |
| `BrokerClient.OnlyPassesMarkDead` | icebridge_svn/trunk/gateway_server/logic_server/mdcliapi2.hpp:233-236 | nothing but a pass, and what a broker itself says, changes what is known of it |
| `BrokerClient.PassBetweenTheTwoStepsHangs` | icebridge_svn/trunk/gateway_server/logic_server/mdcliapi2.hpp:272-280 | a concrete interleaving with send's two steps after which the loop never ends |
| `BrokerClient.MdCli.SendRequests` | icebridge_svn/trunk/gateway_server/logic_server/mdcliapi2.hpp:231-265 | the liveness pass and the loop do what the functions say |
| `BrokerClient.MdCli.SendLoop` | icebridge_svn/trunk/gateway_server/logic_server/mdcliapi2.hpp:254-263 | from exactly the states of EndsExactlyWhenLive it terminates, by queue length and then by distance to a live broker |
| `BrokerClient.MdCli.SendTurns` | icebridge_svn/trunk/gateway_server/logic_server/mdcliapi2.hpp:254-263 | the first turns of the loop, any number of them, from any state, also where the loop never ends |
| `Envelope.RepliesReturnToLastAsker` | icebridge_svn/trunk/workers/worker_common/mdwrkapi.hpp:199-211 | whatever requests a worker has read, its reply goes to the last one's client and arrives as "", CLIENT, service, body |
| `Envelope.RoadToWorker` | icebridge_svn/trunk/router/mdbroker.cpp:366-403 | a client's request to a service whose name is not reserved reaches the worker with the client's address to reply to and the body, after two hops |
| `Envelope.BrokerReturnsReply` | icebridge_svn/trunk/router/mdbroker.cpp:267-273 | the broker unwraps the address, puts CLIENT and the service in front and routes the rest there |
| `Envelope.BodyIntactExactlyIfSteady` | icebridge_svn/trunk/module/zmsg.hpp:113-149 | a body survives the road if and only if it is neither a binary id nor the text of one in anything but upper case |
| `Envelope.HopKeepsSteady` | icebridge_svn/trunk/module/zmsg.hpp:101-157 | a part comes through one send and receive unchanged if and only if it is such a part |
| `Envelope.IdRoundTrip` | icebridge_svn/trunk/module/zmsg.hpp:243-291 | decode_uuid undoes encode_uuid for all 17-byte ids that start with 0, and encode_uuid undoes decode_uuid exactly for upper-case text |
| `Envelope.ReadsAnyCase` | icebridge_svn/trunk/module/zmsg.hpp:266-291 | decode_uuid reads ids that differ only in the case of digits and in top bits as the same, and two characters that are no digits as 239 |
| `Envelope.UnwrapUndoesWrap` | icebridge_svn/trunk/module/zmsg.hpp:317-334 | unwrapping undoes wrapping for any number of parts, and takes only an empty delimiter off |
| `Envelope.LastPartIsHanded` | icebridge_svn/trunk/workers/worker_common/mdwrkapi.cpp:21-48 | of a request with any number of parts a worker is handed the last |
| `Envelope.NamesEndAtZero` | icebridge_svn/trunk/router/mdbroker.cpp:371 | the broker reads the name of a service up to its first zero |
| `Envelope.AddressComesBack` | icebridge_svn/trunk/module/zmsg.hpp:317-334 | an address that is a name or a binary id goes through C strings and back to the same address |
| `Envelope.TextNamesMisroute` | icebridge_svn/trunk/module/zmsg.hpp:101-157 | over the whole road, the reply to a client of any name is routed to that name if and only if the name has not the shape of an id in text, and otherwise to the binary id that it spells |
| `Envelope.EncodeUuid` | icebridge_svn/trunk/module/zmsg.hpp:243-259 | fills the 34 characters |
| `Envelope.DecodeUuid` | icebridge_svn/trunk/module/zmsg.hpp:266-291 | fills the 17 bytes |
| `Envelope.ZMsg.Recv` | icebridge_svn/trunk/module/zmsg.hpp:101-134 | takes the parts off the wire, spelling out binary ids |
| `Envelope.ZMsg.Send` | icebridge_svn/trunk/module/zmsg.hpp:136-157 | puts the parts on the wire, packing ids in text, and is empty afterwards |
| `Envelope.ZMsg.Unwrap` | icebridge_svn/trunk/module/zmsg.hpp:324-334 | takes the address and an empty delimiter off |
| `Envelope.MdWrk.TakeRequest` | icebridge_svn/trunk/workers/worker_common/mdwrkapi.cpp:21-48 | remembers the address and hands the body over |
| `Envelope.MdWrk.Reply` | icebridge_svn/trunk/workers/worker_common/mdwrkapi.hpp:186-211 | wraps the reply for the remembered address, which is kept |
| `Market.EveryRun` | icebridge_svn/trunk/gateway_server/database/redis_chat_worker.cpp:593-645 | after any run of set_market with unlisted serials and del_market of any serial, the index gives for each serial exactly the place of the listing that was last set and not deleted since |
| `Market.SetKeepsInverseExactlyIfUnlisted` | icebridge_svn/trunk/gateway_server/database/redis_chat_worker.cpp:593-618 | a new listing keeps vector and index inverse if and only if its serial is not listed |
| `Market.DelRemovesJustThat` | icebridge_svn/trunk/gateway_server/database/redis_chat_worker.cpp:619-645 | del_market removes just the listing of that serial, keeps vector and index inverse, and leaves every other listing reachable |
| `Market.GlobalMarket.Del` | icebridge_svn/trunk/gateway_server/database/redis_chat_worker.cpp:619-645 | the swap with the last listing, in place |
| `ItemLogins.RunSound` | icebridge_svn/trunk/gateway_server/service/_login_worker_msg.cpp:133-158 | logins, takeovers of a session that is still served, requests that such a session serves after it was told to close, and its end keep records, memory and market in agreement and the store fit for a login, as long as no player logs in past a session that is served but not on the table |
| `ItemRuns.OneSerialOneRecord` | icebridge_svn/trunk/gateway_server/service/_login_worker_logicworker.cpp:361-624 | over every run of open-box, dress, unload, sell, buy, expiry, mail pick-up, login, takeover and the end of sessions, by any number of players, in which no player logs in past a served session, every serial has exactly one record: the market's or one player's |
| `ItemRuns.NoItemTwice` | icebridge_svn/trunk/gateway_server/service/_login_worker_logicworker.cpp:361-624 | over every such run no item is in two places: two places of the backpack, the slots of heroes or the mails of one player, with two players, or with a player and on the market |
| `ItemRuns.ItemsAreReachable` | icebridge_svn/trunk/gateway_server/service/_login_worker_logicworker.cpp:361-624 | over every such run a session holds every item recorded for its player in the place the record says, except what a full backpack has put out of reach, or what was mailed after the session was told to close, until the next login |
| `ItemRuns.TableSessionsHaveAllMails` | icebridge_svn/trunk/gateway_server/service/_login_worker_logicworker.cpp:583-596 | over every such run a session on the table has every stored mail of its player, with the diamonds stored |
| `ItemRuns.LoginBringsEverythingBack` | icebridge_svn/trunk/gateway_server/service/_login_worker_msg.cpp:70-85 | after any such run, the new session of a player, loaded after logging out or when a login has taken over, has the same items in the same places and every mail, and holds every recorded item, also those out of reach before; its money is what the login has read |
| `ItemRuns.FullBackpackLosesItem` | icebridge_svn/trunk/gateway_server/service/_login_worker_logicworker.cpp:1281-1306 | picking up an item mail puts the item out of reach until the next session if and only if the backpack has no free place: the mail is erased, the record stays, and the next session makes a mail of it again |
| `ItemRuns.AnItemMailCanBeLost` | icebridge_svn/trunk/gateway_server/service/_login_worker_logicworker.cpp:653-702 | from any sound state with an item in the mail, boxes that the player opens fill the backpack, and picking the mail up then loses the item |
| `ItemScenes.AnItemIsLost` | icebridge_svn/trunk/gateway_server/service/_login_worker_logicworker.cpp:1281-1306 | a run from a store without items after which an item has its record and no session holds it |
| `ItemOverlaps.AnOverlapCanDoubleAnItem` | icebridge_svn/trunk/gateway_server/service/_login_worker_msg.cpp:137-158 | from any sound state in which a session was told to close and holds an item that a hero can wear: if the player logs in now, before it has ended, the new session can offer the item and a request left of the old one put it on the hero, and the serial has two records |
| `ItemScenes.ALoginDoublesAnItem` | icebridge_svn/trunk/gateway_server/service/_login_worker_msg.cpp:137-158 | a concrete run in which that happens |
| `ItemStore.LoginRestores` | icebridge_svn/trunk/gateway_server/database/redis_chat_worker.cpp:427-524 | from any state in order, and whatever the order of the store's keys, login rebuilds a session that agrees with the records with nothing lost and no mail missed, with the money given |
| `ItemStore.LoginAgain` | icebridge_svn/trunk/gateway_server/database/redis_chat_worker.cpp:427-524 | a session loaded after another has the same items in backpack and slots and every mail, and finds every lost item again |
| `ItemStore.StepKept` | icebridge_svn/trunk/gateway_server/service/_login_worker_logicworker.cpp:361-702 | every request and every expiry keeps the store fit for a login: one stored mail for each item in the mail, money mails without an item, and sessions with the mails and heroes that are stored |
| `ItemSteps.StepInv` | icebridge_svn/trunk/gateway_server/service/_login_worker_logicworker.cpp:361-702 | every request, and the expiry of a listing, keeps records, memory and market in agreement |
| `ItemSteps.Exchange` | icebridge_svn/trunk/gateway_server/service/_login_worker_logicworker.cpp:400-413 | dressing a full slot swaps the two items in memory and in the records |
| `ItemSteps.Wear` | icebridge_svn/trunk/gateway_server/service/_login_worker_logicworker.cpp:414-422 | dressing an empty slot moves the item in memory and in the record |
| `ItemSteps.TakeOff` | icebridge_svn/trunk/gateway_server/service/_login_worker_logicworker.cpp:466-471 | unloading moves the item to a free place in memory and in the record |
| `ItemSteps.PickUp` | icebridge_svn/trunk/gateway_server/service/_login_worker_logicworker.cpp:1286-1296 | picking up moves the item from the mail to the backpack |
| `ItemMoney.EveryRunKeepsMoney` | icebridge_svn/trunk/gateway_server/service/_login_worker_logicworker.cpp:527-624 | over every such run, the money in all purses and mails changes by what purchases pay beyond or short of their prices, by what sessions store beyond or short of what was stored already, and by nothing else |
| `ItemMoney.FairRunsKeepMoney` | icebridge_svn/trunk/gateway_server/service/_login_worker_msg.cpp:133-158 | the second part is nothing, and every session has the money stored, if no login that takes over finds the money changed since it was read |
| `ItemMoney.TakeoverKeepsMoneyExactlyIf` | icebridge_svn/trunk/gateway_server/service/_login_worker_msg.cpp:137-147 | a login takes over from a session, and anything happens until that session's end: the new session has the stored money if and only if the old one has not changed its own in between, and else differs by just that change |
| `ItemScenes.ALoginMakesMoney` | icebridge_svn/trunk/gateway_server/service/_login_worker.cpp:299-302 | a concrete run in which a request to buy, served between the two, leaves 30 diamonds more than there were, although every seller is paid the price |
| `ItemMoney.StepMoney` | icebridge_svn/trunk/gateway_server/service/_login_worker_logicworker.cpp:361-702 | no request and no expiry other than a purchase changes the money in all purses and mails, except by storing a session's money that differs from what is stored; picking up a mail moves it |
| `ItemMoney.BuyMoney` | icebridge_svn/trunk/gateway_server/service/_login_worker_logicworker.cpp:544-584 | a purchase stores the buyer's money less the price, and for the seller a mail with what the code reads where the listing was: the last listing's price |
| `ItemMoney.PurchaseKeepsMoneyExactlyIf` | icebridge_svn/trunk/gateway_server/service/_login_worker_logicworker.cpp:544-584 | a purchase keeps the money of all players if and only if the listing's price is that of the last listing, which has moved to its place (or, of the last listing itself, what the freed place shows), up to what the buyer's session has beyond the store |
| `ItemScenes.ASellerIsPaidAnotherPrice` | icebridge_svn/trunk/gateway_server/service/_login_worker_logicworker.cpp:571-584 | a concrete run from an empty store in which one player pays 100 and the other's mail holds 1 |
| `ItemOutcomes.BackpackIs` | icebridge_svn/trunk/gateway_server/service/_login_worker_logicworker.cpp:653-664 | the place that a new item goes to is the first free one below the number of places; there is none if and only if all are taken or the number is below 12 or above 64 |
| `ItemOutcomes.OpenBoxOutcome` | icebridge_svn/trunk/gateway_server/service/_login_worker_logicworker.cpp:665-702 | a box puts its item into the first free place, in memory and in the record, and changes nothing else; with no free place nothing changes |
| `ItemOutcomes.DressOutcome` | icebridge_svn/trunk/gateway_server/service/_login_worker_logicworker.cpp:382-422 | an accepted request puts the item into the slot asked for, or for -1 into the first slot that is not worn, in memory and in the record; what was worn there comes to the item's place, and every other slot, place, record and player is as before |
| `ItemOutcomes.DressRefusedExactlyIf` | icebridge_svn/trunk/gateway_server/service/_login_worker_logicworker.cpp:361-426 | a request to dress changes nothing if and only if one of the code's refusals holds |
| `ItemOutcomes.UnloadOutcome` | icebridge_svn/trunk/gateway_server/service/_login_worker_logicworker.cpp:427-477 | an accepted request puts the item into the first free place, in memory and in the record, and leaves the slot empty; with one of the code's refusals nothing changes |
| `ItemOutcomes.SaleOutcome` | icebridge_svn/trunk/gateway_server/service/_login_worker_logicworker.cpp:479-525 | a sale takes the item from its place and its record from the store and lists it last on the market, at the price asked for or 1; on an empty place nothing changes |
| `ItemOutcomes.BuyOutcome` | icebridge_svn/trunk/gateway_server/service/_login_worker_logicworker.cpp:527-624 | an accepted purchase takes the price from the buyer, in memory and in the store, puts the item into the first free place with a record, takes the listing off and mails the seller; with one of the code's refusals nothing changes |
| `ItemOutcomes.GetEmailOutcome` | icebridge_svn/trunk/gateway_server/service/_login_worker_logicworker.cpp:1274-1312 | picking up a mail takes it away in memory and in the store; its diamonds are added, or its item goes to the first free place, or with no free place nowhere |
| `ItemOutcomes.ExpireOutcome` | icebridge_svn/trunk/gateway_server/service/_login_worker_logicworker.cpp:1321-1360 | a listing whose time has run out leaves the market, and its item goes to the seller's mail, in the record and in the session if there is one |
| `ItemRuns.ClosingSessionsGetNoMail` | icebridge_svn/trunk/gateway_server/service/_login_worker_msg.cpp:139-147 | a session that a login has told to close is told of no mail any more |
| `ItemStrays.StrayRequestOutcome` | icebridge_svn/trunk/gateway_server/service/_login_worker_msg.cpp:137-147 | a request of a session that is not on the table does to the store and to that session what it would do if it were, except that the session is told of no mail |
| `ItemStrays.TheTableIsTold` | icebridge_svn/trunk/gateway_server/service/_login_worker_logicworker.cpp:583-596 | then the session on the table is told of a mail to its player, unless it was told to close, and nothing else of it changes |
| `ItemStrays.StrayEndOutcome` | icebridge_svn/trunk/gateway_server/service/_login_worker.cpp:260-304 | the end of such a session takes the player's session off the table, whosever that is, although it goes on being served; if a login waits for the end, its session is put on the table with the money read before |
| `ItemStrays.EveryLoginIsAccountedFor` | icebridge_svn/trunk/gateway_server/service/_login_worker_msg.cpp:133-158 | over every run, also with logins past sessions that are still served, every login has a session that is served, or waits, or has had one that has ended |
| `ItemObjects.LoginWorker.GetBackpack` | icebridge_svn/trunk/gateway_server/service/_login_worker_logicworker.cpp:653-664 | the first free place, or -1 when full or of an impossible size |
| `ItemObjects.LoginWorker.OpenBox` | icebridge_svn/trunk/gateway_server/service/_login_worker_logicworker.cpp:665-702 | a new item in memory and in the store, or nothing |
| `ItemObjects.LoginWorker.Dress` | icebridge_svn/trunk/gateway_server/service/_login_worker_logicworker.cpp:361-426 | does what the step function says, with all its refusals |
| `ItemObjects.LoginWorker.Unload` | icebridge_svn/trunk/gateway_server/service/_login_worker_logicworker.cpp:427-477 | does what the step function says, with all its refusals |
| `ItemObjects.LoginWorker.Sale` | icebridge_svn/trunk/gateway_server/service/_login_worker_logicworker.cpp:479-525 | the record goes, the place is free, and the listing is stored, at a price of at least 1 |
| `ItemObjects.LoginWorker.Buy` | icebridge_svn/trunk/gateway_server/service/_login_worker_logicworker.cpp:527-624 | the price is paid, the item and its record come, the listing goes, and the seller gets a mail |
| `ItemObjects.LoginWorker.GetEmail` | icebridge_svn/trunk/gateway_server/service/_login_worker_logicworker.cpp:1274-1312 | diamonds are added or the item is put down; the mail goes in any case |
| `ItemObjects.LoginWorker.GetEquipList` | icebridge_svn/trunk/gateway_server/database/redis_chat_worker.cpp:427-524 | the two loops load every record and every stored mail, in the order of the keys, as the function does |
| `ItemObjects.Login` | icebridge_svn/trunk/gateway_server/service/_login_worker_msg.cpp:70-85 | a new session loads itself as the function says, with the money that the login has read before |
| `ItemObjects.PushNotify` | icebridge_svn/trunk/gateway_server/service/_login_worker_logicworker.cpp:1321-1360 | an expired listing goes back to its seller by mail |

## Left out

- GatewaySteps.StepRefines: each command and each completed operation is one atomic step; another thread's step between two statements of one callback is not modelled.
- LinkRuns.GracefulClose: sessions run on worker threads without send or receive delay; the delay timers, the single-thread mode and receive sizes of -1 are not modelled.
- GatewayHistory.EndToEnd: messages that the filter cannot frame (one byte, or above 65535 bytes) are not sent; in the code an oversized message ends the whole list with a box that later messages no longer match.
- SessionObjects.TCPSession.PostMessageList: lists with a message that the filter cannot frame (one byte, or above 65535 bytes) are left out, as in GatewayHistory.EndToEnd.
- SessionObjects.TCPSessionHandler.Send: the same.
- Framing.MyFilter.Write: the returned byte count, which no caller uses, is not modelled, and messages do not share vectors; NetMessages.NetMessage.SetAt says what sharing does.
- Framing.RequestsRoundTrip: the messages' payloads are bytes; msgpack is not part of this model.
- Framing.User.Process: what the client does with a message (login, group handling, its answer to the challenge) is not part of this model.
- NetMessages.NetMessage.Reserve: capacity is not modelled; mid-insert, setBytes and getBytes are left out, since they bypass copy on write or only read.
- BrokerObjects.Broker.ServiceRequire: the broker's tables hold services and workers as values, and a pointer is a name and a version number; what the broker does to one worker and its service as objects is in the classes Service and BrokerWorker.
- BrokerObjects.Service.PopWorker: the cursor is an index; where erasing leaves the raw iterator beyond the end, the model starts again at the front, and Broker's Cursor event lets it stand anywhere between two messages.
- Broker.EveryRun: a worker identity keeps one service name, a reply comes from a registered worker, and a type changes only while all workers of the service wait; Broker.TypeChangeLeavesDangling shows what happens otherwise.
- Broker.StepInv: answers of the internal mmi services, among them the exception for an unknown service, and the heartbeats that the broker sends are not modelled; a dispatch reads the clock once.
- BrokerClient.MdCli.SendRequests: its precondition excludes exactly the states in which the code's loop never ends; SendTurns covers those, for any number of turns.
- BrokerClient.MdCli.SendLoop: the same.
- BrokerObjects.Broker.WorkerProcess: what the broker sends to clients and its exceptions are left out; Envelope.BrokerReturnsReply has the routing of replies.
- BrokerObjects.Broker.ClientProcess: the answers of the internal services are left out.
- BrokerClient.EveryRun: heartbeats that the client sends to dead brokers are not modelled; a received message is an event that sets a broker's status.
- Envelope.DecodeUuid: decode_uuid asserts that its text has no zero in it, which is not modelled: the text is decoded in any case.
- Envelope.RepliesReturnToLastAsker: a message has one body part; dumping, formatting and the reconnecting of workers are left out.
- ItemRuns.OneSerialOneRecord: the store starts empty but for accounts; hero changes, equipment attributes, and the texts and times of mails are not modelled. Runs in which a player logs in past a session that is served but not on the table are left out here and shown to break it by ItemOverlaps.AnOverlapCanDoubleAnItem.
- ItemLogins.RunSound: accounts exist from the start; registration is not modelled, also not on a session that is logged in already, whose guard the code has commented out and which keeps the former player's items in memory. A session that waits for its predecessor to end neither ends first, which leaves the code with a pointer to a deleted object, nor sends requests, which find an empty backpack.
- ItemObjects.Login: the table of sessions and the handing over are modelled on values, in ItemLogins.
- ItemRuns.ItemsAreReachable: positions are in range where the code reads an array without a test, and seller names are registered, as the code assumes.
- ItemObjects.LoginWorker.Dress: a slot below -1 in a request that passes all tests before the slot is looked at is left out, because the code then reads outside its vector.
- ItemObjects.LoginWorker.Sale: positions outside the backpack that the code's guard lets through are left out, because it then reads outside its array.
- ItemObjects.LoginWorker.Buy: if the listing is the last one, the code reads its price through a reference to a freed place of the vector, and what it reads there is a parameter of at least 1.
- activeClose, checkAllSession and CloseAllSession: no caller, or erasing while iterating.
- Sockets, ZeroMQ, Redis and MySQL are the queues, wires and maps of the model.
- Building timers, upgrades, the world map, player-against-player settlement, chat and configuration: smaller members of a kind that is already here.
