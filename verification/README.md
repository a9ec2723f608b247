# Sensor gateway, chat application and thread exercises: a verified model

A Dafny model of the stateful parts of three C programs, with proofs that hold
over whole runs. `dafny verify dfyconfig.toml` checks everything.

**Sensor gateway** (`Final_Project`). An acceptor thread checks the port, reads
an id, asks the IP limiter and links a list node; a terminate command, a
disconnect and a timeout sweep unlink nodes at the same time.

* `IpLimiter`, `SensorConnections`: the limiter array and the linked list as
  classes that are updated in place, each proved against functions on sequences.
* `GatewayThreads`: the same code as a step relation over the list mutex, with
  the invariants of every interleaving: port uniqueness, limiter accounts, bounds.
* `GatewaySolo`: the two descriptions agree on undisturbed runs; what an accept
  does to sensor ids; what the undoing of a failed accept removes.
* `LockOrder`, `LockLeak`, `GatewayDeadlock`: the lock programs of all threads,
  deadlock freedom under a rank, the exact condition under which the data
  manager hangs and the gateway gets stuck, what stops with it, and a reachable
  state from which it comes to that.
* `LockUse`, `LockTrace`: what those lock programs contain, pass by pass, and that
  they are what the steps of `GatewayThreads` do to the mutexes.
* `Temperature`, `GatewayTemperature`: the temperature windows and their alarms,
  and the data manager's passes over the list of a gateway run.
* `Storage`, `ByteStreams`: the pending queue with its connect loop, the log
  pipeline.

**Chat application** (`Lesson6_Chat_Application`). `PeerTable` is the slot array
with its two ways of removal. `ChatText`, `ChatProtocol` and `ChatLaws` are the
text functions, the printer, splitter, dispatcher, command parser and joiner, and
the round trips through all of them.

**Thread exercises** (`Lesson4_Thread`). `ProducerConsumer`, `ReaderWriter` and
`ParallelSum` generalise exercises 3, 5 and 6 in their size constants.

A step relation is a total function of a state and an action; an action that is
not enabled changes nothing, so a run is any sequence of actions. System calls
are parameters that say how they end.

## Where the code differs from its description

* Sensor ids are documented as unique (`Final_Project/src/connection/connection.c`,
  lines 403 and 426). They are the number of connections at accept time, read
  without the lock: `GatewaySolo.IdsStayDistinctIff` says which runs keep them
  unique and `GatewaySolo.IdsRepeat` reaches a repetition.
* The data manager's table has 100 places, but the limiter allows up to
  5 * 256 connections, so larger ids are handed out. The check of such an id
  returns with the data mutex held, and the next check waits for ever,
  the connection mutex in hand (`LockLeak.GatewayGetsStuckIff`,
  `LockLeak.DataManagerFinishesIff`, `GatewayDeadlock.DataManagerCanHang`).
* A connection that the limiter refuses still goes on to the epoll
  registration, and if that fails the undoing can disconnect another sensor
  (`GatewaySolo.UndoHitsOwnIff`, `GatewaySolo.RefusedAcceptHitsAnother`). The
  same happens if a remover has taken the new node out before.
* An admission whose node cannot be allocated is never given back, so five of
  them shut an address out for ever, with nobody connected
  (`GatewayThreads.RefusedAtRestIff`, `GatewaySolo.LockedOutByFailures`).
* The limiter never reclaims entries, so a full table refuses new addresses for
  ever, connected or not (`IpLimiter.RefusedWithoutConnectionIff`,
  `IpLimiter.StrangersCanBeLockedOut`).
* A chat message is documented as up to 100 characters
  (`Lesson6_Chat_Application/README.md`, line 93). The whole line, sender
  included, has to fit 99 bytes (`ChatLaws.DeliveredIff`,
  `ChatLaws.HundredCharactersAreCut`).
* `terminate <index>` looks a peer up by slot but removes by id. After a peer
  has left through its socket the two can differ (`PeerTable.NamesAgreeIff`,
  `PeerTable.TerminateCanHitAnother`).
* Exercise 6 leaves out the end of the array if the number of threads does not
  divide its length (`ParallelSum.TotalIsCompleteIff`); at its own sizes it does.

## Model

| member | source | states |
|---|---|---|
| `IpLimiter.IndexOf` | Final_Project/src/security/security.c:423-434 | The loop over the entries stops at the first entry of the address, or at the end of the table |
| `IpLimiter.AdmitCounts` | Final_Project/src/security/security.c:415-447 | Admitting raises exactly this address by one, moves no other count, makes exactly this address known, and keeps at most 256 distinct entries with counts in 0..5 |
| `IpLimiter.ReleaseCounts` | Final_Project/src/security/security.c:458-475 | Giving back lowers exactly this address by one if it is positive, moves no other count and forgets no address |
| `IpLimiter.ReleaseUndoesAdmit` | Final_Project/src/security/security.c:415-475 | Giving back right after admitting restores every count |
| `IpLimiter.TableIsLedger` | Final_Project/src/security/security.c:415-475 | After any sequence of calls the table agrees with a ledger kept without it: which addresses were ever admitted, how many connections each holds, and whom the next call would grant |
| `IpLimiter.RefusedWithoutConnectionIff` | Final_Project/src/security/security.c:415-447 | After any calls an address with no connection is refused if and only if it was never admitted and 256 addresses were |
| `IpLimiter.StrangersStayRefused` | Final_Project/src/security/security.c:415-475 | Entries are never reclaimed: after any sequence of calls on a full table, an address it does not know is still unknown, has count 0 and is refused |
| `IpLimiter.StrangersCanBeLockedOut` | Final_Project/src/security/security.c:415-475 | Calls from an empty limiter reach a full table in which nobody is connected, and from then on every other address is refused whatever is called |
| `IpLimiter.IpLimiterManager.constructor` | Final_Project/src/security/security.c:389-404 | A new limiter has 256 places and knows nobody |
| `IpLimiter.IpLimiterManager.AllowConnection` | Final_Project/src/security/security.c:415-447 | The array scan answers yes exactly when the address is below five or is new and there is room; then the table is the one with this address admitted, otherwise it is unchanged |
| `IpLimiter.IpLimiterManager.RemoveConnection` | Final_Project/src/security/security.c:458-475 | The array scan lowers the count of this address if it is positive and leaves everything else alone |
| `SensorConnections.NumFromWithout` | Final_Project/src/connection/connection.c:84-112 | Unlinking one node lowers the number of nodes of its own address by one and no other |
| `SensorConnections.SweepSplits` | Final_Project/src/connection/connection.c:627-670 | The sweep is an order-preserving split: each node reappears among the survivors or among the expired, according to its own idle time, right after its like before it |
| `SensorConnections.SurvivorsAlive` | Final_Project/src/connection/connection.c:614-670 | Every survivor has not timed out, every removed connection has, and all come from the list |
| `SensorConnections.SweepRemovesIff` | Final_Project/src/connection/connection.c:614-670 | A connection is swept if and only if it is in the list, active, and idle for more than 30 seconds |
| `SensorConnections.RemoveTakesFirst` | Final_Project/src/connection/connection.c:78-115 | A removal by id takes out the first sensor that has it and leaves all others in place |
| `SensorConnections.ReadingReachesFirst` | Final_Project/src/connection/connection.c:150-162 | A reading reaches the first sensor with the id, with its data and time, and no other; an unknown id reaches nobody |
| `SensorConnections.FreshReadingSurvives` | Final_Project/src/connection/connection.c:614-670 | A reading keeps its sensor through every sweep of the next 30 seconds and no longer, and does not affect what happens to the others |
| `SensorConnections.SweepVisit` | Final_Project/src/connection/connection.c:634-667 | One visit of the previous/current traversal advances both parts of the split and the limiter together |
| `SensorConnections.ReleaseAllCounts` | Final_Project/src/connection/connection.c:627-670 | Giving back a list of connections lowers every address by exactly its share of that list |
| `SensorConnections.SweepKeepsStep` | Final_Project/src/connection/connection.c:627-670 | If every address is counted once per node before the sweep, it is afterwards; each count falls by the number of expired connections of that address |
| `SensorConnections.ConnectionManager.constructor` | Final_Project/src/connection/connection.c:339-352 | A new manager holds an empty list and an empty limiter |
| `SensorConnections.ConnectionManager.AddConnection` | Final_Project/src/connection/connection.c:42-66 | The node goes to the head exactly when the limiter admits the address and the allocation works; a failed allocation leaves the limiter raised and the list unchanged |
| `SensorConnections.ConnectionManager.Unlink` | Final_Project/src/connection/connection.c:90-108 | Taking the node at position k out in place gives the list without position k, for the head and for inner nodes, and lowers the counter |
| `SensorConnections.ConnectionManager.RemoveConnection` | Final_Project/src/connection/connection.c:78-115 | Removes exactly the first connection with the id, if there is one, and gives exactly that one back to the limiter |
| `SensorConnections.ConnectionManager.FindConnection` | Final_Project/src/connection/connection.c:125-140 | Finds the first node with the id, or null if there is none |
| `SensorConnections.ConnectionManager.UpdateData` | Final_Project/src/connection/connection.c:150-162 | Stores the reading and the activity time in the first node with the id and touches nothing else |
| `SensorConnections.ConnectionManager.IsPortAlreadyConnected` | Final_Project/src/utils/utils.c:78-96 | True exactly when some node of the list has this very port and is connected |
| `SensorConnections.ConnectionManager.CleanupInactive` | Final_Project/src/connection/connection.c:627-670 | The in-place sweep terminates and leaves exactly the connections that are not idle for more than 30 seconds, in order; the limiter is told about exactly the others |
| `GatewayThreads.LeaverIsCounted` | Final_Project/src/connection/connection.c:78-115 | A remover that turns to the limiter always finds a positive count there |
| `GatewayThreads.RemovalKeepsBooks` | Final_Project/src/connection/connection.c:78-115 | Each step of a removal (limiter call, unlinking, counter) keeps the accounts, whoever performs it |
| `GatewayThreads.LinkKeepsAccounts` | Final_Project/src/connection/connection.c:42-66 | Linking the node turns a pending admission into a counted node |
| `GatewayThreads.StepKeepsInv` | Final_Project/src/connection/connection.c:42-115 | Every single step of the acceptor, of any remover and of the reading generator keeps mutual exclusion, the accounts and port uniqueness |
| `GatewayThreads.PortsStayDistinct` | Final_Project/src/connection/connection.c:506-569 | In every interleaving of the acceptor with any number of removers, connected sensors have pairwise distinct ports, though the port check and the linking are separate critical sections |
| `GatewayThreads.PortCheckIff` | Final_Project/src/connection/connection.c:506-545 | In every reachable state with the acceptor waiting and the list mutex free, the port check lets a connection on if and only if no linked sensor has its port, and else changes nothing |
| `GatewayThreads.NewSensorSurvives` | Final_Project/src/connection/connection.c:407-437 | A new sensor carries what its accept was given, outlives exactly the sweeps of its first 30 seconds unless it sends, and has no reading to be checked yet |
| `GatewayThreads.LimiterMatchesList` | Final_Project/src/connection/connection.c:42-115 | In every reachable state and for every address: limiter count = linked nodes + admitted but not yet linked + admissions whose allocation failed - given back but not yet unlinked; at rest the middle terms are gone |
| `GatewayThreads.RefusedAtRestIff` | Final_Project/src/connection/connection.c:42-57 | At rest an address is refused if and only if its linked nodes and its failed allocations together are five, or it is unknown and the table is full |
| `GatewayThreads.LostNeverShrinks` | Final_Project/src/connection/connection.c:45-57 | An admission whose allocation failed is never given back |
| `GatewayThreads.LostFiveIsRefused` | Final_Project/src/connection/connection.c:45-57 | Five failed allocations for an address shut it out in every state of every run that follows |
| `GatewayThreads.ListBound` | Final_Project/include/shared_data.h:52-53 | Addresses from a set of n, each at most cap times, make a list of at most cap * n |
| `GatewayThreads.ConnectionBounds` | Final_Project/src/connection/connection.c:42-115 | In every reachable state no address has more than five nodes, the table is well formed, the list has at most 5 * 256 nodes, and active_count is its length whenever the list mutex is free |
| `GatewaySolo.SoloSweep` | Final_Project/src/connection/connection.c:627-670 | The sweep run step by step without interference is the sweep of the list manager |
| `GatewaySolo.SoloRemove` | Final_Project/src/connection/connection.c:78-115 | The removal by id run step by step without interference is the removal of the list manager |
| `GatewaySolo.SoloAccept` | Final_Project/src/connection/connection.c:506-569 | An undisturbed accept links one node at the head whose id is the number of connections |
| `GatewaySolo.FailedRegistration` | Final_Project/src/connection/connection.c:506-569 | If the epoll registration fails, the undoing removes by id: an admitted connection is undone and every count restored; if the limiter had refused it, the whole new state is that of removing the first sensor with the current number of connections as its id, which changes nothing exactly when there is none |
| `GatewaySolo.RefusedAcceptHitsAnother` | Final_Project/src/connection/connection.c:506-569 | It happens: a run reaches five sensors of one address, and the refused sixth accept with a failed registration disconnects the newest of them |
| `GatewaySolo.UndoHitsOwnIff` | Final_Project/src/connection/connection.c:506-569 | In any reachable state where an undoing is due, whatever removers did since: it takes out the accept's own node if that is still linked, else the first other sensor with the id; no other sensor is hit exactly when the own node is still linked or no linked sensor carries the id |
| `GatewaySolo.LockedOutByFailures` | Final_Project/src/connection/connection.c:42-57 | Failed allocations alone reach a gateway with nobody connected that refuses the address for ever |
| `GatewaySolo.IdsStayDistinctIff` | Final_Project/src/connection/connection.c:506-569 | In every interleaving the ids called unique stay distinct all along if and only if, whenever a node is linked, no linked sensor carries the id that was read for it |
| `GatewaySolo.SoloIdsStayDistinctIff` | Final_Project/src/connection/connection.c:547-569 | An accept that nobody interrupts keeps ids distinct if and only if no linked sensor carries the current number of connections |
| `GatewaySolo.IdsRepeat` | Final_Project/src/connection/connection.c:547 | Two accepts, one removal and a third accept reach a list with a repeated id |
| `LockOrder.SomeoneCanMove` | Final_Project/src/connection/connection.c:78-115 | Among threads that take locks in rank order, the chain of waiting threads ends at one that can move |
| `LockOrder.NoDeadlock` | Final_Project/src/connection/connection.c:78-115 | Any number of rank-ordered programs under any schedule: all have finished or one can move, and every move shortens what is left |
| `LockOrder.AcceptNests` | Final_Project/src/connection/connection.c:506-569 | The accept path, for all outcomes of its calls, takes its locks in rank order and gives all back |
| `LockOrder.SweepNests` | Final_Project/src/connection/connection.c:627-670 | The timeout sweep takes its mutexes in rank order and gives all back |
| `LockOrder.LocksExclude` | Final_Project/src/connection/connection.c:78-115 | For any programs, after any schedule no two threads hold the same mutex |
| `LockOrder.CheckAllNests` | Final_Project/src/data/data.c:58-105 | The checks of one data pass take their mutexes in rank order and give all back if every checked id is known |
| `LockOrder.DrainNests` | Final_Project/src/storage/storage.c:258-296 | A drain pass takes its mutexes in rank order and gives all back |
| `LockUse.SweepTakings` | Final_Project/src/connection/connection.c:627-670 | The sweep takes the connection mutex once and, holding just that, limiter and log once for every expired connection, and nothing else |
| `LockUse.RemoveTakings` | Final_Project/src/connection/connection.c:78-115 | A removal takes the connection mutex once and, inside it, the limiter exactly if a sensor of the list has the id |
| `LockUse.AcceptTakings` | Final_Project/src/connection/connection.c:506-569 | An accept takes the connection mutex for its port check, asks the limiter with nothing held, takes the connection mutex again exactly if it was admitted and a node allocated, logs, and after a failed registration removes and logs again |
| `LockUse.RemoverTakings` | Final_Project/src/connection/connection.c:734-762 | Terminate and disconnect: which sections and log calls each outcome makes |
| `LockUse.DrainTakings` | Final_Project/src/storage/storage.c:258-296 | A drain takes the storage mutex once and, inside it, the log once for every failed insert |
| `LockUse.AdditionTakings` | Final_Project/src/storage/storage.c:137-154 | An addition takes the storage mutex once, and the log inside it only without memory |
| `LockUse.DataTakings` | Final_Project/src/data/data.c:149-171 | A data pass over known ids takes the data mutex once for every active sensor with a reading, inside the connection mutex, and the log once for every alarm, inside both |
| `LockUse.DataCounts` | Final_Project/src/data/data.c:58-105 | With unknown ids every sampled sensor takes the data mutex, and exactly those with such an id never give it back |
| `LockTrace.OnlyCallsChangeTable` | Final_Project/src/security/security.c:415-475 | In the step relation the limiter table changes in no step but a call of the limiter |
| `LockTrace.SweepTrace` | Final_Project/src/connection/connection.c:627-670 | What the steps of an undisturbed sweep do to the connection mutex and the limiter is its lock program without the log calls |
| `LockTrace.TerminateTrace` | Final_Project/src/connection/connection.c:78-115 | The same of an undisturbed terminate |
| `LockTrace.AcceptTrace` | Final_Project/src/connection/connection.c:506-569 | The same of an undisturbed accept, admitted or refused |
| `LockTrace.TakenTrace` | Final_Project/src/connection/connection.c:539-545 | The same of an accept whose port is taken |
| `LockTrace.NoMemoryTrace` | Final_Project/src/connection/connection.c:42-57 | The same of an accept that finds no memory |
| `LockTrace.FailedTrace` | Final_Project/src/connection/connection.c:506-569 | The same of an accept whose registration fails, its undoing included |
| `LockOrder.ThreadNests` | Final_Project/src/logger/logger.c:29-48 | A thread making any sequence of sound passes follows the rank connection < storage < data < limiter < log |
| `LockOrder.GatewayNeverDeadlocks` | Final_Project/src/data/data.c:149-171 | Any number of gateway threads, each making any passes, under any schedule: never stuck, if the data check meets only ids of its table |
| `LockLeak.CheckAllPassableIff` | Final_Project/src/data/data.c:58-105 | Exactly when a thread gets through the checks of one list, begun with or without the data mutex left over, and which mutexes it then holds |
| `LockLeak.FinishedWasPassable` | Final_Project/src/data/data.c:58-105 | In any company and under any schedule a thread finishes only what it could get through alone |
| `LockLeak.DataManagerFinishesIff` | Final_Project/src/data/data.c:58-171 | For any number of passes over lists that may change between them: some schedule completes them if and only if no checked sensor is visited after one whose id is outside 0..99, in that pass or a later one |
| `LockLeak.HungForEver` | Final_Project/src/data/data.c:58-171 | Once a thread holds the connection and the data mutex and asks for the data mutex again, no schedule moves it or any thread about to take the connection mutex, and no thread that still has to take it finishes |
| `LockLeak.HangIsInevitable` | Final_Project/src/data/data.c:58-171 | If a checked sensor follows one with a bad id, then in any company and under any schedule the data manager never finishes, something can move as long as it does not hang, every move shortens what is left, and every state can be continued to the hang |
| `LockLeak.GatewayGetsStuckIff` | Final_Project/src/data/data.c:58-171 | The whole gateway, one data manager and any other threads, can get stuck under some schedule if and only if a checked sensor is visited after one with a bad id |
| `GatewayDeadlock.DataManagerCanHang` | Final_Project/src/data/data.c:63-72 | A run of the gateway reaches 101 sensors; from there, with any other threads and under any schedule, a data manager that is to check any sensor again never finishes and can be brought to a freeze in which no accept, terminate, disconnect, sweep or status request starts and no thread with one ahead finishes |
| `Temperature.MeanIsBetween` | Final_Project/src/data/data.c:15-26 | The average lies between the least and the greatest reading it is taken from |
| `Temperature.RecentStep` | Final_Project/src/data/data.c:35-46 | The last five readings after one more depend only on the last five before |
| `Temperature.AlarmsIff` | Final_Project/src/data/data.c:81-100 | Overheating exactly when the remembered readings sum to more than 50 each, overcooling exactly when to less than 10 each, never both |
| `Temperature.ReportsHaveACause` | Final_Project/src/data/data.c:81-94 | All remembered readings too hot implies the report; the report implies that one of them was |
| `Temperature.MildNeverOverheats` | Final_Project/src/data/data.c:81-94 | Readings of at most 50 degrees never report overheating |
| `GatewayTemperature.CheckList` | Final_Project/src/data/data.c:149-171 | One pass samples the readings of exactly the active sensors with data, in list order, up to an id the table lacks; each alarm is that of the log of checks so far |
| `GatewayTemperature.SampledIff` | Final_Project/src/data/data.c:149-171 | An entry of the list is sampled exactly if it is active, has a reading, and no entry up to it has an id outside 0..99; those sampled keep their order |
| `GatewayTemperature.HangsIff` | Final_Project/src/data/data.c:63-72 | A pass keeps the mutex exactly if it meets an active sensor with a reading whose id is outside 0..99 |
| `GatewayTemperature.TemperatureLands` | Final_Project/src/data/data.c:149-171 | Each check adds its own temperature to its own sensor's readings, behind the older ones |
| `GatewayTemperature.DataManagerThread` | Final_Project/src/data/data.c:149-171 | Pass after pass, the windows and the alarms are those of the log of all checks, until a pass keeps the mutex |
| `GatewayTemperature.GatewayNeverOverheats` | Final_Project/src/connection/connection.c:580-600 | Whatever the interleaving of accepts, removals and generated readings (0..49), and whatever passes the data manager makes over what it finds, repeated ids included, no alarm is overheating |
| `GatewayTemperature.DataManagerNeverOverheats` | Final_Project/src/data/data.c:149-171 | The data manager's thread, from its start and in any such run, reports no overheating |
| `Temperature.TemperatureHistory.Update` | Final_Project/src/data/data.c:35-46 | Whatever the fill and the position, the ring read from its index is the last five of all readings, oldest first |
| `Temperature.TemperatureHistory.RunningAverage` | Final_Project/src/data/data.c:15-26 | The sum in array order, divided by the count, is the mean of the last five readings in time order |
| `Temperature.DataManager.CheckTemperatureStatus` | Final_Project/src/data/data.c:58-105 | A known sensor's reading joins its own window only and the alarm is that of the new average; an unknown sensor changes nothing and leaves the mutex held |
| `Storage.PassSplits` | Final_Project/src/storage/storage.c:258-296 | One pass splits the pending readings into written and kept, none lost or doubled |
| `Storage.PassPlaces` | Final_Project/src/storage/storage.c:258-296 | Each reading of a pass lands in the part that its own insert decides, behind its like before it |
| `Storage.KeptInOrder` | Final_Project/src/storage/storage.c:258-296 | What a pass keeps stands in the old order |
| `Storage.PassStep` | Final_Project/src/storage/storage.c:262-293 | One iteration of the in-place pass, seen on the list |
| `Storage.NothingIsLost` | Final_Project/src/storage/storage.c:115-296 | Over every run of additions and passes with arbitrary outcomes: accepted = database rows + pending as multisets, and total_messages_received counts the rows |
| `Storage.PendingInOrder` | Final_Project/src/storage/storage.c:115-296 | Over every run the pending readings are an order-preserving subsequence of the accepted ones |
| `Storage.RetryLoop` | Final_Project/src/storage/storage.c:32-88 | retry_count is the number of failed connects in a row; the process exits exactly at the third; draining happens only while connected; nothing accepted before the first connection is lost |
| `Storage.OrderKeptIff` | Final_Project/src/storage/storage.c:258-296 | Rows and then pending readings stand in order of addition if every pass wrote the front of what was pending, passes that wrote nothing included; for differing readings, only if |
| `Storage.CleanPassWritesBacklog` | Final_Project/src/storage/storage.c:258-296 | After any run, a pass whose inserts all work leaves nothing pending, appends the backlog in order of addition and leaves every accepted reading in the database; the whole table is in order of addition exactly when every earlier pass wrote a front |
| `Storage.StorageManager.AppendToPending` | Final_Project/src/storage/storage.c:115-128 | The walk to the tail appends the reading behind all others |
| `Storage.StorageManager.AddReading` | Final_Project/src/storage/storage.c:137-154 | With memory the reading is appended, without it nothing changes |
| `Storage.StorageManager.ConnectWithRetry` | Final_Project/src/storage/storage.c:32-88 | Success resets the counter and opens draining; failure counts and exits at the limit |
| `Storage.StorageManager.RemoveProcessedNode` | Final_Project/src/storage/storage.c:239-251 | Unlinks the node at position k in place, for the head and for inner nodes, and counts it |
| `Storage.StorageManager.ProcessPendingData` | Final_Project/src/storage/storage.c:258-296 | The in-place pass leaves exactly the kept readings, appends exactly the written ones to the table and counts them |
| `Storage.BacklogIsDrained` | Final_Project/src/storage/storage.c:357-374 | After any run of a process that is still alive, one or two steps of the storage thread write all that is pending, in order, if the inserts work and the database opens in case it has to |
| `Storage.StorageManager.StorageThread` | Final_Project/src/storage/storage.c:357-374 | The loop takes the steps of the state machine for any answers; and after two well-answered steps or more nothing that was pending at the start is pending, the rows have it behind the old ones, and the counter has grown by it |
| `ByteStreams.StepKeepsIntact` | Final_Project/src/logger/logger.c:14-49 | Each lock, partial write, failed write, unlock, read and append keeps the pipeline's bytes accounted for |
| `ByteStreams.PipelineIsIntact` | Final_Project/src/logger/logger.c:14-49 | In every run: file + chunk in hand + FIFO = the finished records in lock order, each whole unless its own write failed and then a proper prefix, + what the current writer has written |
| `ByteStreams.LockOrderKept` | Final_Project/src/logger/logger.c:29-48 | The records of the pipeline are those whose loggers held the mutex, in that order |
| `ByteStreams.DrainedFileIsTheLog` | Final_Project/src/logger/logger.c:268-312 | Once drained, and if no write failed, the file is exactly the logged records in lock order |
| `ByteStreams.ProgressIsAll` | Final_Project/src/logger/logger.c:32-41 | Calls that never fail move everything, in at most one call per byte |
| `ByteStreams.LoggerIsFifoLog` | Final_Project/src/logger/logger.c:29-48 | A logger's steps in the pipeline add to the FIFO what the write loop adds, and record whether it was whole |
| `ByteStreams.LoggerInRun` | Final_Project/src/logger/logger.c:29-48 | In the midst of any run a logger's record, or the prefix its writes allow, goes behind all bytes so far |
| `ByteStreams.LogPipe.FifoLog` | Final_Project/src/logger/logger.c:31-46 | The write loop appends the first Progress bytes of the record and reports exactly the partial writes |
| `ByteStreams.LogPipe.CopyToFile` | Final_Project/src/logger/logger.c:286-309 | The read loop moves the first Progress bytes of the FIFO to the end of the file, byte for byte, and stops at the end or at a failure |
| `ByteStreams.ReaderIsCopyToFile` | Final_Project/src/logger/logger.c:286-309 | The log thread's steps in the pipeline move the same bytes from the FIFO to the file as the read loop |
| `ByteStreams.RecvAll` | Final_Project/src/connection/connection.c:482-495 | However the stream is cut into receives, success means that the whole buffer is the front of the stream; otherwise the front part is, and the rest is untouched |
| `PeerTable.ShiftUpKeepsOthers` | Lesson6_Chat_Application/src/connection/connection.c:134-147 | The shift removes one peer and keeps all others in slot order |
| `PeerTable.Reachable` | Lesson6_Chat_Application/src/connection/connection.c:87-208 | Over every sequence of the four mutators the counter is the number of active slots, and an active peer's id lies between its slot and 99 |
| `PeerTable.AddStoresOne` | Lesson6_Chat_Application/src/connection/connection.c:87-116 | In every reachable table, whenever add answers true one peer more is stored, and nobody else moves |
| `PeerTable.PackedWithoutHoles` | Lesson6_Chat_Application/src/connection/connection.c:87-157 | Without removals by socket the active slots are exactly the first count, each carrying its slot as id |
| `PeerTable.PackedNamesAgree` | Lesson6_Chat_Application/src/connection/connection.c:237-251 | Without removals by socket, lookup by index and removal by id name the same peer |
| `PeerTable.RemovalNeverPastSlot` | Lesson6_Chat_Application/src/connection/connection.c:127-157 | In every reachable table the first active slot with the number of an active slot is that slot or an earlier one |
| `PeerTable.RemoveByIdTakes` | Lesson6_Chat_Application/src/connection/connection.c:127-157 | Removal by id takes out exactly the first active peer with the id: the slots before it stay, those behind move up and are renumbered, the roster loses this contact, the count falls by one |
| `PeerTable.RemoveByIdMisses` | Lesson6_Chat_Application/src/connection/connection.c:127-157 | If no active slot carries the id the table is unchanged |
| `PeerTable.RemoveByFdTakes` | Lesson6_Chat_Application/src/connection/connection.c:167-183 | Removal by socket makes the first active slot of the socket inactive, changes no other slot and lowers the count by one |
| `PeerTable.CloseAllLeavesNobody` | Lesson6_Chat_Application/src/connection/connection.c:192-208 | Closing all leaves an empty roster and a zero count |
| `PeerTable.TerminateTakesSlot` | Lesson6_Chat_Application/src/user_interface/user_interface.c:261-293 | In a run whose adds all fit, terminate i takes exactly the contact of slot i from the roster |
| `PeerTable.AddKeepsAlignedIff` | Lesson6_Chat_Application/src/connection/connection.c:87-116 | An add keeps lookup by slot and removal by id in agreement if and only if the first free slot is the one whose number it writes |
| `PeerTable.RemovalKeepsAligned` | Lesson6_Chat_Application/src/connection/connection.c:127-208 | The other three mutators always keep that agreement |
| `PeerTable.NamesAgreeIff` | Lesson6_Chat_Application/src/user_interface/user_interface.c:261-287 | Over every sequence of mutators the two name the same peer all along if and only if every add found no hole before the slot that its count names |
| `PeerTable.TerminateCanHitAnother` | Lesson6_Chat_Application/src/user_interface/user_interface.c:261-287 | A socket removal and one more peer reach a table where terminate 2 greets one peer and removes another |
| `PeerTable.PeerConnectionManager.constructor` | Lesson6_Chat_Application/src/connection/connection.c:16-25 | A new table holds 100 inactive, zeroed slots |
| `PeerTable.PeerConnectionManager.AddPeer` | Lesson6_Chat_Application/src/connection/connection.c:87-116 | The first free slot gets the peer, numbered by the counter; true exactly while the counter is below 100, and then one was stored |
| `PeerTable.PeerConnectionManager.ShiftFrom` | Lesson6_Chat_Application/src/connection/connection.c:136-147 | The copy loop moves every later slot up by one, renumbers it and clears the last |
| `PeerTable.PeerConnectionManager.RemovePeerById` | Lesson6_Chat_Application/src/connection/connection.c:127-157 | Removes the first active peer with the id by shifting, or answers false and changes nothing |
| `PeerTable.PeerConnectionManager.RemovePeerBySocket` | Lesson6_Chat_Application/src/connection/connection.c:167-183 | Deactivates the first active peer of the socket in place, or answers false and changes nothing |
| `PeerTable.PeerConnectionManager.CloseAllPeers` | Lesson6_Chat_Application/src/connection/connection.c:192-208 | Deactivates every slot and resets the counter |
| `PeerTable.PeerConnectionManager.GetPeerByIndex` | Lesson6_Chat_Application/src/connection/connection.c:237-251 | Gives the peer of an active slot in range and nothing otherwise |
| `ChatText.TokensOfJoin` | Lesson6_Chat_Application/src/message/message.c:32-54 | Splitting words joined by single spaces gives the words back |
| `ChatText.JoinedTokensLength` | Lesson6_Chat_Application/src/message/message.c:32-54 | Normalising white space never lengthens a text |
| `ChatText.AtoiOfDecimal` | Lesson6_Chat_Application/src/message/message.c:69-88 | Parsing a printed number is the identity |
| `ChatText.AtoiOfNumber` | Lesson6_Chat_Application/src/user_interface/user_interface.c:215 | Leading white space, a sign and anything after the digits: the signed number is read |
| `ChatText.TokensPart` | Lesson6_Chat_Application/src/message/message.c:32-54 | A delimiter anywhere parts the tokens of a text, however many there are in a row |
| `ChatText.NextToken` | Lesson6_Chat_Application/src/message/message.c:32-54 | One strtok call finds the first word of the rest and where to go on, or that there is none |
| `ChatProtocol.FieldsSnoc` | Lesson6_Chat_Application/src/message/message.c:34-53 | One more token gets a slot of its own, or goes behind a space onto the last slot, within 99 characters |
| `ChatProtocol.SplitString` | Lesson6_Chat_Application/src/message/message.c:19-57 | The tokenising loop with its bounded copies gives the tokens, the surplus joined by spaces in the last slot, each slot cut at 99 |
| `ChatProtocol.BuildMessageBuffer` | Lesson6_Chat_Application/src/message/message.c:256-298 | The line of each type, cut to the buffer, and true exactly when it fits |
| `ChatProtocol.HandleMessageReceive` | Lesson6_Chat_Application/src/message/message.c:194-220 | The dispatch finds the strategy of the command word, splits by its word count, and the peer table changes as its handler says |
| `ChatProtocol.ParseUserInput` | Lesson6_Chat_Application/src/user_interface/user_interface.c:21-46 | The command is the first word; the arguments are the next words, at most 32 |
| `ChatLaws.ParseKeepsWords` | Lesson6_Chat_Application/src/user_interface/user_interface.c:21-46 | A line that is not cut loses no word in parsing, up to 32 arguments |
| `ChatProtocol.JoinArguments` | Lesson6_Chat_Application/src/user_interface/user_interface.c:215-230 | The loop with its running offset gives the arguments joined by single spaces, cut at 100 characters |
| `ChatLaws.PrefixIsWord` | Lesson6_Chat_Application/src/message/message.c:172-243 | Naming a type and recognising the name are inverse for all five types |
| `ChatLaws.ReceiveUndoesBuild` | Lesson6_Chat_Application/src/message/message.c:194-298 | For each type, any space-free address and 16-bit port: receiving a built line of at most 99 bytes reaches the same type's handler with the sender's exact parts |
| `ChatLaws.ConnectAddsSender` | Lesson6_Chat_Application/src/message/message.c:69-88 | A received connect adds the sender under exactly the printed address and port |
| `ChatLaws.ReceivedLineTable` | Lesson6_Chat_Application/src/message/message.c:69-153 | A received built line: terminate makes the first active slot of the sender's socket inactive and touches no other, or nothing if there is none; send, exit and unknown leave every slot and the count alone |
| `ChatLaws.ReceivingText` | Lesson6_Chat_Application/src/message/message.c:194-220 | The same for any received text whatever, those with too few words included |
| `ChatLaws.DeliveredIff` | Lesson6_Chat_Application/src/socket/socket.c:168-184 | For every list of words: the receiver shows exactly these words, with the sender's address and port, if and only if the line fits one receive of 99 bytes |
| `ChatLaws.SendEndToEnd` | Lesson6_Chat_Application/src/user_interface/user_interface.c:207-248 | Any typed line: something is sent if and only if it is send with an index and a word and that slot holds an active peer, then to its socket only, and the receiver shows the typed words (the first 31) if and only if the built line is at most 99 bytes |
| `ChatProtocol.ExecuteSend` | Lesson6_Chat_Application/src/user_interface/user_interface.c:207-248 | The command joins the words, looks the peer up by slot, prints and sends as specified, for every table and every argument list |
| `ChatLaws.HundredCharactersAreCut` | Lesson6_Chat_Application/README.md:91-94 | The documented length is too much: a typed message of 100 characters is sent and shown otherwise than typed, for any sender |
| `ProducerConsumer.ProducerKeepsInv` | Lesson4_Thread/exe_3/main.c:21-50 | Every producer step keeps exclusion, counters, buffers and wake-ups |
| `ProducerConsumer.ConsumerKeepsInv` | Lesson4_Thread/exe_3/main.c:51-80 | Every consumer step keeps exclusion, counters, buffers and wake-ups |
| `ProducerConsumer.ConsumedIsProduced` | Lesson4_Thread/exe_3/main.c:21-80 | For every size and interleaving, spurious wake-ups included: the counter is the distance of the positions, the consumed prefix is the produced prefix, the full-buffer wait is never entered |
| `ProducerConsumer.ProducedIsOffered` | Lesson4_Thread/exe_3/main.c:21-50 | What was produced is what the producer had in hand when it put an item, in that order |
| `ProducerConsumer.BuffersEndEqual` | Lesson4_Thread/exe_3/main.c:21-80 | When both have finished the two buffers are equal and hold all n items produced |
| `ProducerConsumer.SomeoneCanStep` | Lesson4_Thread/exe_3/main.c:21-80 | No wake-up is lost: until both have finished one can take a real step |
| `ProducerConsumer.AlwaysFinishes` | Lesson4_Thread/exe_3/main.c:21-80 | From every reachable state both can be brought to their end, and every step that is not a spurious wake-up lowers a natural number |
| `ReaderWriter.ShufflePermutes` | Lesson4_Thread/exe_5/main.c:63-77 | Whatever the random numbers, the launches are permuted with id and kind kept together |
| `ReaderWriter.WritersStarted` | Lesson4_Thread/exe_5/main.c:51-90 | Exactly the intended number of writers is started |
| `ReaderWriter.EachStartsOnce` | Lesson4_Thread/exe_5/main.c:51-90 | Each reader and each writer, by its number, is started exactly once |
| `ReaderWriter.EveryOrderIsReached` | Lesson4_Thread/exe_5/main.c:63-77 | Every order of the launches comes out for some random numbers |
| `ReaderWriter.EntersIff` | Lesson4_Thread/exe_5/main.c:17-39 | A waiting reader gets the lock exactly when no writer holds it, a waiting writer exactly when nobody does |
| `ReaderWriter.SeenIsStored` | Lesson4_Thread/exe_5/main.c:17-39 | A reader sees exactly the number of writers that had stored when it got the lock, a writer one more |
| `ReaderWriter.FillAndShuffle` | Lesson4_Thread/exe_5/main.c:51-77 | The in-place loops on the two parallel arrays fill and shuffle as specified |
| `ReaderWriter.NoIncrementIsLost` | Lesson4_Thread/exe_5/main.c:17-101 | For any number of each, any shuffle and any schedule the lock allows: every value seen is between 0 and the number of writers, and the final value is that number |
| `ReaderWriter.SomeoneCanMove` | Lesson4_Thread/exe_5/main.c:17-39 | Until all threads have finished one can move |
| `ReaderWriter.AlwaysFinishes` | Lesson4_Thread/exe_5/main.c:17-101 | From every state a schedule can reach all threads can be brought to their end, with the number of writers as the value, and each effective step lowers a natural number |
| `ParallelSum.SlicesAddUp` | Lesson4_Thread/exe_6/main.c:13-24 | The sums of the first k slices add up to the sum of the first k shares of the array |
| `ParallelSum.TotalIsTheSum` | Lesson4_Thread/exe_6/main.c:13-64 | For every array, number of threads and interleaving the joined total is the sequential sum of the part that the slices cover |
| `ParallelSum.TotalIsCompleteIff` | Lesson4_Thread/exe_6/main.c:13-64 | That is the whole sum exactly when the elements behind the last slice add up to nothing, in particular when the threads divide the length |
| `ParallelSum.AlwaysFinishes` | Lesson4_Thread/exe_6/main.c:13-64 | From every state a schedule can reach all threads can be brought to store, the total is then that of the covered part, and each step lowers a natural number |
| `ParallelSum.NothingOverflows` | Lesson4_Thread/exe_6/main.c:13-64 | At the program's sizes with values up to 2^31 - 1 no running, stored or total sum exceeds 2^63 - 1 |
| `ParallelSum.CalSum` | Lesson4_Thread/exe_6/main.c:13-36 | Each thread stores the sum of its own slice in its own place and touches no other |
| `ParallelSum.TotalSum` | Lesson4_Thread/exe_6/main.c:61-64 | The last loop adds up the stored sums |

## Left out

- TLS, sockets, epoll, SQLite and FIFO system calls: each is an outcome (bytes moved, success or failure) given as a parameter.
- Startup, shutdown, signals and thread cancellation: the invariants are about the running system.
- Memory safety of list walks without the mutex: a reading arrives as one step, and the node that the disconnect path looks up and uses after unlocking is represented by its id only.
- LockLeak.GatewayGetsStuckIff: one thread makes the data passes, as in the gateway; the lists that it visits are given, and that they can hold a bad id is `GatewayDeadlock.DataManagerCanHang`.
- The limiter's own mutex: a limiter call is one step of `GatewayThreads`, as nothing else happens while that mutex is held.
- Addresses longer than the buffers (15 characters in the gateway, 63 in the chat application) and characters beyond the byte range.
- GatewaySolo.SoloSweep: is about runs without interference; the interleaved sweep is covered by the invariants of `GatewayThreads`.
- GatewaySolo.FailedRegistration: is about an accept that nobody interrupts; `GatewaySolo.UndoHitsOwnIff` is about every reachable state in which the undoing starts, and only readings could interleave after that.
- LockOrder.GatewayNeverDeadlocks: lock programs are straight lines of lock operations chosen by the outcomes and by the list that a pass finds; they do not share the list state of `GatewayThreads`.
- LockTrace.AcceptTrace: these lemmas are about undisturbed passes of the acceptor and the removers; log, data and storage calls are no steps of `GatewayThreads`, and `LockUse` alone says where they stand.
- GatewayTemperature.CheckList: a pass is given the entries as it finds them, node by node; that they come from one gateway run is a hypothesis of `GatewayNeverOverheats`, not a shared heap.
- Temperature.TemperatureHistory.RunningAverage: temperatures are real numbers; float rounding is not modelled.
- Storage.NothingIsLost: the table of the database is what the successful inserts wrote; inserts beyond the given outcomes count as failed.
- The cleanup and the bulk printing of stored readings: they only walk the list.
- ByteStreams.LogPipe.FifoLog: records of 512 bytes and more, whose length the original computes from the text before cutting it, are not modelled.
- The running number of log records: it is raised outside the log mutex, so nothing is claimed about its order.
- ChatProtocol.HandleMessageReceive: for a text of white space only the original compares an uninitialised buffer; the model gives that case its own result.
- ChatText.AtoiOfDecimal: overflow of `atoi` on longer texts, a typed index among them, is not modelled; a port has at most five digits.
- ChatLaws.SendEndToEnd: one line is assumed to arrive in one receive.
- ChatProtocol.ParseUserInput: `Lesson6_Chat_Application/src/main.c` reads a line into 256 characters and drops its newline, so `ChatLaws.SendEndToEnd` is stated for lines of at most 255 characters without one.
- Console tables, help, command factories, address validation and the thread manager of the chat application: they would only add easy members.
- The mutex of the chat application's peer table: each mutator runs under it from start to end and is one step of `PeerTable`.
- Fairness of the schedulers: the `AlwaysFinishes` lemmas say that an end is always reachable and that effective steps cannot go on for ever.
- The other lessons and the other thread exercises: single system-call demonstrations.
