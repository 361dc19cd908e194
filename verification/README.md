# ggrpc call lifecycles in Dafny

ggrpc is a header-only C++ layer over gRPC's asynchronous API. Each client
call, server call, alarm, client manager and server is an object guarded by
its own mutex. User calls (`Connect`, `Write`, `WritesDone`, `Finish`,
`Close`, `Release`, `Set`, `Cancel`) and completion handlers
(`ProceedToConnect/Read/Write/Notify/Accept(ok)`) each run start to finish
under that mutex. This project models those objects and proves properties of
the model. It covers both generations of the library:

- the older single-file one: `include/ggrpc/client.h` and `include/ggrpc/server.h`;
- the newer split one: `include/ggrpc/impl/...`.

Each source file is one Dafny module:

| module | file | what it holds |
|---|---|---|
| `CallbackUtil` | util.dfy | `RunCallbackClient`, `RunCallbackServer` (include/ggrpc/impl/util.h) |
| `Registry` | registry.dfy | the weak holder list shared by the managers and the newer server |
| `ShutdownLog` | shutdown_log.dfy | the effects a manager or server has on workers, queues and calls, and their order |
| `AlarmImpl` | alarm.dfy | `Alarm` (include/ggrpc/impl/alarm.h) |
| `ClientReaderImpl` | client_reader.dfy | `ClientReader` (include/ggrpc/impl/client/client_reader.h) |
| `ClientResponseReaderImpl` | client_response_reader.dfy | `ClientResponseReader` with its timeout (include/ggrpc/impl/client/client_response_reader.h) |
| `ClientManagerImpl` | client_manager.dfy | `ClientManager` (include/ggrpc/impl/client/client_manager.h, and the identical older one in include/ggrpc/client.h) |
| `ServerImpl` | server_impl.dfy | `Server` (include/ggrpc/impl/server/server.h) |
| `ClientV1ResponseReader` | client_v1_response_reader.dfy | `ClientResponseReader` of include/ggrpc/client.h |
| `ClientV1ReaderWriter` | client_v1_reader_writer.dfy | `ClientReaderWriter` of include/ggrpc/client.h |
| `ServerV1ResponseWriter` | server_v1_response_writer.dfy | `ServerResponseWriterHandler` of include/ggrpc/server.h |
| `ServerV1ReaderWriter` | server_v1_reader_writer.dfy | `ServerReaderWriterHandler` of include/ggrpc/server.h |
| `ServerV1` | server_v1.dfy | `Server` of include/ggrpc/server.h |

Each call-object module is built the same way.

- A `datatype State` holds the object's fields: enum statuses, the request or
  alarm queue as a `seq`, the `release_` and `close_` flags, the `nesting_`
  counter, and which `std::function` callbacks are installed.
- Four ghost parts record what the object does to the outside world:
  - `issued` lists the gRPC operations it hands over (`Read`, `Write`,
    `WritesDone`, `Finish`, `TryCancel`, alarm `Set`/`Cancel`).
  - `events` lists the user callbacks it runs.
  - `owedX` counts the completions gRPC still owes to thunk X.
  - `deleted` is the `delete p` (or `p.reset(this)`) of SafeDeleter.
- Each user call and each completion handler is a total step function
  `StepX`. A lemma `XSpec` states what the step does from every state the
  invariant allows.
- `Apply` and `Run` replay any sequence of actions and keep the invariant.
  Lifetime lemmas then state what holds after every sequence that starts
  from the constructor's state.
- A Dafny `class` has the C++ fields as real fields. Each of its methods does
  what the C++ function does, and its contract
  `ensures Model() == StepX(old(Model()))` ties it to the step function.

The managers and servers follow the same pattern. Their ghost `log` records
in order:

- spawning a worker;
- closing a registered call;
- shutting down the gRPC server or one completion queue;
- joining a worker.

Where the code runs into undefined behaviour, the model raises a `fault` flag and
continues: `front()`/`pop_front()` on an empty `std::deque`, joining a null
`std::thread`, replacing or destroying a joinable one, a remainder modulo
zero. Five defects of the code are kept as written and reported under
Findings (two of them in both client generations, hence seven rows), each
next to a corrected step that the lifetime lemmas are proved for.

## Model

| member | source | states |
|---|---|---|
| CallbackUtil.RunCallbackClient | include/ggrpc/impl/util.h:52-73 | An empty callback is skipped. A present one runs exactly once; an exception it throws is caught, which the model treats as a normal return. `nesting_` is back at its entry value afterwards. |
| CallbackUtil.RunCallbackServer | include/ggrpc/impl/util.h:75-105 | Only the outermost call (nesting 0) publishes the context in `tmp_context`. There the callback sees the call's own context, which is moved out and dropped on return. A nested call sees and leaves `tmp_context` as it was and drops nothing. `nesting_` returns to its entry value. |
| Registry.CloseHolder | include/ggrpc/impl/client/client_manager.h:51-57 | `Holder::Close` closes the observed object exactly when its weak reference has not lapsed. |
| Registry.Live | include/ggrpc/impl/client/client_manager.h:130-137 | `Collect` keeps exactly the holders that have not expired and never grows the list. |
| Registry.CloseAll | include/ggrpc/impl/client/client_manager.h:150-153 | Closing every holder closes exactly the objects observed by a holder that has not expired. |
| Registry.CloseAllIsLive | include/ggrpc/impl/client/client_manager.h:130-153 | Closing every holder closes the objects `Collect` would keep, in registry order. |
| Registry.LiveIdempotent | include/ggrpc/impl/client/client_manager.h:130-137 | A second `Collect` changes nothing. |
| Registry.LiveKeepsLiveList | include/ggrpc/impl/client/client_manager.h:130-137 | `Collect` on a list without expired holders leaves it unchanged, order included. |
| Registry.LiveCount | include/ggrpc/impl/client/client_manager.h:130-137 | `Collect` removes exactly as many holders as have expired. |
| Registry.CountExpired | include/ggrpc/impl/client/client_manager.h:130-137 | The number of expired holders is zero exactly when none has expired. |
| ShutdownLog.ClosesExactlyLive | include/ggrpc/impl/client/client_manager.h:150-153 | Shutdown closes a call exactly when a live holder observes it. |
| AlarmImpl.Initial | include/ggrpc/impl/alarm.h:64 | A new alarm has an empty queue, owes nothing and is open. |
| AlarmImpl.Deletion | include/ggrpc/impl/alarm.h:50-60 | In every reachable state the alarm is deleted exactly when it was released and the timer owes it no notification. |
| AlarmImpl.Calls | include/ggrpc/impl/alarm.h:178-182 | Reporting a run of queued alarms runs at most one callback per alarm, each with the same value. |
| AlarmImpl.CallsIds | include/ggrpc/impl/alarm.h:178-182 | The callbacks run for a stretch of the queue are exactly those of its alarms that hold one, each once, in queue order. |
| AlarmImpl.SetSpec | include/ggrpc/impl/alarm.h:76-96 | A closed alarm refuses `Set` and changes nothing. Otherwise every pending alarm becomes cancelled and the new live one is queued at the back. The timer is armed for an empty queue, otherwise the pending timer is cancelled. Exactly one notification is owed afterwards. The accepted alarm is appended to the record of accepted alarms, and nothing is reported. |
| AlarmImpl.CancelSpec | include/ggrpc/impl/alarm.h:99-141 | `Cancel` marks every queued alarm cancelled and cancels the timer only when something is queued; on an empty queue it changes nothing. `Close` does the same and is permanent: a later `Set` is refused. `Release` also closes, and the alarm is deleted at once exactly when nothing is queued. |
| AlarmImpl.DrainCount | include/ggrpc/impl/alarm.h:178-182 | The drain loop stops at the first queued alarm that is live on an open alarm. Every alarm before it is dropped. |
| AlarmImpl.ProceedToNotifySpec | include/ggrpc/impl/alarm.h:167-192 | A notification reports the front alarm. The value is true exactly when the timer fired and the alarm was not cancelled. Then every droppable alarm behind it is reported with false, in queue order. At most one alarm is left. The timer is re-armed for it with its own deadline, or nothing is owed any more. The reported alarms are the front one and the drained ones, appended in queue order. |
| AlarmImpl.Apply | include/ggrpc/impl/alarm.h:76-192 | Every user call and every owed notification keeps the alarm invariant. Only the last queued alarm can be live, and none once closed. A notification is owed exactly while the queue is non-empty. Release implies Close. Deletion happens exactly as SafeDeleter decides. Every accepted alarm is either reported or still queued, in the order of the `Set` calls, and the callbacks run are exactly those of the reported alarms, in that order. |
| AlarmImpl.Run | include/ggrpc/impl/alarm.h:76-192 | Any sequence of calls and notifications keeps the invariant, including the books of accepted and reported alarms. |
| AlarmImpl.ClosedStaysClosed | include/ggrpc/impl/alarm.h:79-81 | Once closed, an alarm stays closed whatever happens next, so every later `Set` is refused. |
| AlarmImpl.ReleasedDrains | include/ggrpc/impl/alarm.h:167-192 | The first notification after `Release` reports every queued alarm and deletes the alarm. Afterwards every alarm ever accepted has been reported. |
| AlarmImpl.Lifetime | include/ggrpc/impl/alarm.h:76-192 | From a new alarm, over any sequence of calls and notifications, alarms are reported in the order they were set, each at most once. The callbacks run are exactly those of the reported alarms, once each and in that order. Once the alarm is deleted, every accepted alarm has been reported and its callback run exactly once. |
| AlarmImpl.Alarm.constructor | include/ggrpc/impl/alarm.h:64 | Builds the initial alarm. |
| AlarmImpl.Alarm.Set | include/ggrpc/impl/alarm.h:76-96 | Returns true exactly when the alarm was not closed, and performs `StepSet`. |
| AlarmImpl.Alarm.Release | include/ggrpc/impl/alarm.h:99-106 | Performs `StepRelease`. |
| AlarmImpl.Alarm.Cancel | include/ggrpc/impl/alarm.h:112-116 | Performs `StepCancel`. |
| AlarmImpl.Alarm.Close | include/ggrpc/impl/alarm.h:120-127 | Performs `StepClose`. |
| AlarmImpl.Alarm.DoCancel | include/ggrpc/impl/alarm.h:130-141 | Marks every queued alarm cancelled with a loop over the queue, then cancels the timer when the queue was non-empty. |
| AlarmImpl.Alarm.RunCallback | include/ggrpc/impl/alarm.h:144-165 | Runs the callback once, when present, with the given value. The nesting counter is restored. |
| AlarmImpl.Alarm.SafeDeleter | include/ggrpc/impl/alarm.h:50-60 | Deletes exactly when released, with an empty queue and nesting 0. |
| AlarmImpl.Alarm.ProceedToNotify | include/ggrpc/impl/alarm.h:167-192 | Performs `StepProceedToNotify`: front, drain loop, re-arm. |
| AlarmImpl.Alarm.NotifyFront | include/ggrpc/impl/alarm.h:172-175 | Reports and removes the front alarm. |
| AlarmImpl.Alarm.DrainCanceled | include/ggrpc/impl/alarm.h:178-182 | The drain loop: reports with false and removes alarms until the front is live on an open alarm. |
| ClientManagerImpl.Initial | include/ggrpc/impl/client/client_manager.h:109 | A new manager has no worker, an empty registry, counter 0 and is not shut down. |
| ClientManagerImpl.StartSpec | include/ggrpc/impl/client/client_manager.h:113-117 | `Start` spawns exactly one worker per queue, in queue order, after which every queue has a worker. It leaves defined behaviour exactly when some worker was already running, because a joinable `std::thread` is then replaced. Nothing else changes. |
| ClientManagerImpl.Joins | include/ggrpc/impl/client/client_manager.h:165-168 | The join loop joins only spawned workers, each of a queue that exists. |
| ClientManagerImpl.JoinsComplete | include/ggrpc/impl/client/client_manager.h:165-168 | Every spawned worker is joined. |
| ClientManagerImpl.ShutdownStages | include/ggrpc/impl/client/client_manager.h:140-171 | `Shutdown` is the composition of three stages: close the calls, shut the queues down, join the workers. |
| ClientManagerImpl.ShutdownIdempotent | include/ggrpc/impl/client/client_manager.h:143-146 | A second `Shutdown`, such as the destructor's, changes nothing. This holds both as written and corrected. |
| ClientManagerImpl.ShutdownClosesLive | include/ggrpc/impl/client/client_manager.h:150-153 | Shutdown closes exactly the calls whose holder has not expired. |
| ClientManagerImpl.ShutdownShutsEveryQueue | include/ggrpc/impl/client/client_manager.h:159-161 | Shutdown shuts down exactly the manager's queues. |
| ClientManagerImpl.ShutdownJoinsSpawned | include/ggrpc/impl/client/client_manager.h:140-171 | Shutdown joins exactly the spawned workers. All closes come before all queue shutdowns, which come before all joins. |
| ClientManagerImpl.ShutdownSpec | include/ggrpc/impl/client/client_manager.h:140-171 | The first `Shutdown`:<br>• marks the manager shut down;<br>• closes exactly the live calls, then shuts down every queue, then joins every spawned worker, in that order;<br>• empties the registry and leaves no worker;<br>• keeps the counter.<br>Its join loop runs into undefined behaviour (a join through a null thread) exactly when some worker was never spawned. The older manager's `Shutdown` (include/ggrpc/client.h:765-796) is the same code. |
| ClientManagerImpl.CreateSpec | include/ggrpc/impl/client/client_manager.h:173-254 | Every `Create*`:<br>• first prunes the expired holders, keeping the order;<br>• appends exactly the new holder;<br>• binds the call to queue `next_client_id_ % threads`;<br>• advances the 32-bit counter, which wraps from 2^32-1 to 0;<br>• changes nothing else, and still creates after `Shutdown`;<br>• on a manager of zero threads, leaves defined behaviour (the remainder divides by zero). The two factories of the older manager (include/ggrpc/client.h:798-834) are the same code. |
| ClientManagerImpl.NextIdWraps | include/ggrpc/impl/client/client_manager.h:180 | `next_client_id_++` on uint32_t wraps to 0. |
| ClientManagerImpl.CreateMany | include/ggrpc/impl/client/client_manager.h:173-254 | A run of creates keeps the queue count and yields one queue per call. |
| ClientManagerImpl.CreateManyCounter | include/ggrpc/impl/client/client_manager.h:180 | After n creates the counter has advanced by n modulo 2^32. |
| ClientManagerImpl.ClientIds | include/ggrpc/impl/client/client_manager.h:180 | A run of creates takes one client id per call. |
| ClientManagerImpl.ClientIdsConsecutive | include/ggrpc/impl/client/client_manager.h:180 | The ids taken by a run of creates are consecutive modulo 2^32. |
| ClientManagerImpl.QueuesFollowIds | include/ggrpc/impl/client/client_manager.h:180-181 | Each call goes to the queue its id selects. |
| ClientManagerImpl.RoundRobin | include/ggrpc/impl/client/client_manager.h:180-181 | Queue choice is round-robin over the counter: call i of a run goes to queue ((start + i) mod 2^32) mod threads. |
| ClientManagerImpl.RoundRobinFromStart | include/ggrpc/impl/client/client_manager.h:180-181 | On a new manager, call k goes to queue k mod threads, for the first 2^32 calls. |
| ClientManagerImpl.Apply | include/ggrpc/impl/client/client_manager.h:109-254 | No operation changes the number of queues. |
| ClientManagerImpl.DestroySpec | include/ggrpc/impl/client/client_manager.h:111 | Destruction leaves the manager shut down, with the registry, log and workers that `Shutdown` leaves. Beyond `Shutdown`'s own faults, it leaves defined behaviour exactly when the manager was already shut down and has running workers, because a joinable `std::thread` is then destroyed. A first destruction leaves no worker, and with the intended `Shutdown` it adds no fault. |
| ClientManagerImpl.FixedNeverFaults | include/ggrpc/impl/client/client_manager.h:109-254 | With `Shutdown` joining only the threads that exist, no sequence of operations runs into undefined behaviour, destruction included. This holds provided `Start` is called only while no worker runs and before `Shutdown`, and `Create*` only on a manager with threads. |
| ClientManagerImpl.RestartFaults | include/ggrpc/impl/client/client_manager.h:111-117 | Both as written and with the intended `Shutdown`, the sequence `Start`, `Shutdown`, `Start`, destruction leaves defined behaviour: the second workers are never joined, and destroying them terminates. The sequence is outside the intended use. |
| ClientManagerImpl.CreateWithoutThreadsFaults | include/ggrpc/impl/client/client_manager.h:180-181 | A `Create*` on a manager of zero threads leaves defined behaviour. |
| ClientManagerImpl.DestroyUnstartedFaults | include/ggrpc/impl/client/client_manager.h:111 | As written, destroying a manager that was never started joins a thread through an empty `std::unique_ptr`. |
| ClientManagerImpl.StartTwiceFaults | include/ggrpc/impl/client/client_manager.h:113-117 | As written, a second `Start` while the workers run replaces a joinable `std::thread`. |
| ClientManagerImpl.ClientManager.constructor | include/ggrpc/impl/client/client_manager.h:109 | Builds `Initial(threads)`. |
| ClientManagerImpl.ClientManager.Start | include/ggrpc/impl/client/client_manager.h:113-117 | Performs `StepStart`: a loop spawning one worker per queue. |
| ClientManagerImpl.ClientManager.StartThread | include/ggrpc/impl/client/client_manager.h:115 | Spawns the worker of one queue, with a fault if one is already running. |
| ClientManagerImpl.ClientManager.Collect | include/ggrpc/impl/client/client_manager.h:130-137 | Replaces the registry by its live holders, using an in-order loop. |
| ClientManagerImpl.ClientManager.Shutdown | include/ggrpc/impl/client/client_manager.h:140-171 | Performs `StepShutdown`, stage by stage. |
| ClientManagerImpl.ClientManager.CloseHolders | include/ggrpc/impl/client/client_manager.h:150-153 | Closes every holder in order, then clears the registry. |
| ClientManagerImpl.ClientManager.ShutdownAllQueues | include/ggrpc/impl/client/client_manager.h:159-161 | Shuts down every queue in order. |
| ClientManagerImpl.ClientManager.JoinWorkers | include/ggrpc/impl/client/client_manager.h:165-168 | Joins and clears every thread in order. |
| ClientManagerImpl.ClientManager.JoinThread | include/ggrpc/impl/client/client_manager.h:166-167 | Joins one thread, with a fault if it is null, and clears it. |
| ClientManagerImpl.ClientManager.Create | include/ggrpc/impl/client/client_manager.h:173-254 | Performs `StepCreate` and returns the queue it chose. On zero threads it records the fault of the division by zero. |
| ClientManagerImpl.ClientManager.Destroy | include/ggrpc/impl/client/client_manager.h:111 | Performs `StepDestroy`: the destructor's `Shutdown`, then the destruction of the threads, which faults on one still joinable. |
| ClientReaderImpl.Initial | include/ggrpc/impl/client/client_reader.h:90-94 | A new reader is INIT and owes nothing. |
| ClientReaderImpl.SafeDeletion | include/ggrpc/impl/client/client_reader.h:77-86 | Under the corrected life cycle a reader is deleted exactly when it was released and gRPC owes it no completion. |
| ClientReaderImpl.SettersSpec | include/ggrpc/impl/client/client_reader.h:105-132 | Each setter stores its callback exactly while INIT and is ignored afterwards. |
| ClientReaderImpl.ConnectSpec | include/ggrpc/impl/client/client_reader.h:134-141 | `Connect` acts only from INIT: it starts the call and waits for the connect completion. A later `Connect` changes nothing. |
| ClientReaderImpl.CloseSpec | include/ggrpc/impl/client/client_reader.h:154-176 | `Close` cancels a CONNECTING, READING or FINISHING reader and makes it CANCELING. Any other status, CANCELING included, becomes FINISHED and drops every callback. No callback runs. |
| ClientReaderImpl.CloseFixedSpec | include/ggrpc/impl/client/client_reader.h:161-176 | The corrected `DoClose` leaves a CANCELING reader alone, so `Close` becomes idempotent, and keeps the corrected invariant. |
| ClientReaderImpl.ReleaseSpec | include/ggrpc/impl/client/client_reader.h:144-150 | `Release` marks the reader released and closes it without running a callback. |
| ClientReaderImpl.ReleaseFixedSpec | include/ggrpc/impl/client/client_reader.h:144-150 | With the corrected `DoClose`, a released reader is deleted exactly when nothing is owed. |
| ClientReaderImpl.ProceedToConnectSpec | include/ggrpc/impl/client/client_reader.h:206-235 | A CANCELING reader is left as it is. A failed connect finishes the reader and reports `OnError(CONNECT)`. A successful one issues the first Read, becomes READING and reports `OnConnect`. |
| ClientReaderImpl.ProceedToConnectFixedSpec | include/ggrpc/impl/client/client_reader.h:214-218 | The corrected connect completion finishes a cancelled reader silently, and otherwise acts as written. |
| ClientReaderImpl.ProceedToReadSpec | include/ggrpc/impl/client/client_reader.h:237-290 | A cancelled reader finishes silently. A successful Read issues the next Read before `OnRead` runs. A failed Read issues `Finish`. The Finish completion ends the call with `OnReadDone` (ok) or `OnError(READ)`, and nothing is owed afterwards. |
| ClientReaderImpl.ReadCanceledSpec | include/ggrpc/impl/client/client_reader.h:243-247 | A read completion on a CANCELING reader finishes it with no operation and no callback. |
| ClientReaderImpl.ReadSuccessSpec | include/ggrpc/impl/client/client_reader.h:263-289 | A successful Read continues the pull. A successful Finish reports `OnReadDone` and ends the call. |
| ClientReaderImpl.ReadFailureSpec | include/ggrpc/impl/client/client_reader.h:249-261 | A failed Read issues Finish. A failed Finish reports `OnError(READ)` and ends the call. |
| ClientReaderImpl.ProceedToReadSafe | include/ggrpc/impl/client/client_reader.h:237-290 | The read completion keeps the corrected invariant. |
| ClientReaderImpl.DoubleCloseDeletesPendingCall | include/ggrpc/impl/client/client_reader.h:161-176 | As written, `Connect`, `Close`, `Close`, `Release` deletes the reader while the connect completion is still owed. |
| ClientReaderImpl.DoubleCloseFixedWaits | include/ggrpc/impl/client/client_reader.h:161-176 | With the corrected `DoClose` the same sequence keeps the reader CANCELING until the connect completion arrives, which deletes it. |
| ClientReaderImpl.CancelDuringConnectLeaks | include/ggrpc/impl/client/client_reader.h:214-218 | As written, `Connect`, `Release`, then the connect completion leaves the reader released, CANCELING, owed nothing and never deleted. No action can reach it any more. |
| ClientReaderImpl.CancelDuringConnectFixedFinishes | include/ggrpc/impl/client/client_reader.h:214-218 | With the corrected connect completion the same sequence deletes the reader. |
| ClientReaderImpl.Apply | include/ggrpc/impl/client/client_reader.h:105-290 | Every action keeps the reader invariant, and the corrected actions keep the corrected one. The invariant says: at most one completion owed; the status names the operation in flight; callbacks dropped once FINISHED; at most one terminal callback, and it comes last; deletion exactly as SafeDeleter decides. |
| ClientReaderImpl.Run | include/ggrpc/impl/client/client_reader.h:105-290 | Any sequence of actions keeps both invariants. |
| ClientReaderImpl.StuckStaysStuck | include/ggrpc/impl/client/client_reader.h:214-218 | A reader no action can reach never changes again. |
| ClientReaderImpl.LeakIsPermanent | include/ggrpc/impl/client/client_reader.h:214-218 | The leaked reader of `CancelDuringConnectLeaks` is never deleted, whatever follows. |
| ClientReaderImpl.FixedLifetime | include/ggrpc/impl/client/client_reader.h:77-290 | In the corrected reader, every lifetime:<br>• runs at most one terminal callback, and it comes last;<br>• never deletes while a completion is owed;<br>• deletes every released reader that is owed nothing. |
| ClientReaderImpl.ClientReader.constructor | include/ggrpc/impl/client/client_reader.h:90-94 | Builds the initial reader. |
| ClientReaderImpl.ClientReader.SetOnConnect | include/ggrpc/impl/client/client_reader.h:105-111 | Performs `StepSetOnConnect`. |
| ClientReaderImpl.ClientReader.SetOnRead | include/ggrpc/impl/client/client_reader.h:112-118 | Performs `StepSetOnRead`. |
| ClientReaderImpl.ClientReader.SetOnReadDone | include/ggrpc/impl/client/client_reader.h:119-125 | Performs `StepSetOnReadDone`. |
| ClientReaderImpl.ClientReader.SetOnError | include/ggrpc/impl/client/client_reader.h:126-132 | Performs `StepSetOnError`. |
| ClientReaderImpl.ClientReader.Connect | include/ggrpc/impl/client/client_reader.h:134-141 | Performs `StepConnect`. |
| ClientReaderImpl.ClientReader.Release | include/ggrpc/impl/client/client_reader.h:144-150 | Performs `StepRelease`. |
| ClientReaderImpl.ClientReader.Close | include/ggrpc/impl/client/client_reader.h:154-158 | Performs `StepClose`. |
| ClientReaderImpl.ClientReader.DoClose | include/ggrpc/impl/client/client_reader.h:161-176 | Cancels when active, then CANCELING or FINISHED, then `Done`. |
| ClientReaderImpl.ClientReader.Done | include/ggrpc/impl/client/client_reader.h:178-196 | Drops every callback once FINISHED and does nothing otherwise. |
| ClientReaderImpl.ClientReader.RunCallback | include/ggrpc/impl/client/client_reader.h:199-204 | Runs the callback when present. The nesting counter is restored. |
| ClientReaderImpl.ClientReader.SafeDeleter | include/ggrpc/impl/client/client_reader.h:77-86 | Deletes exactly when released, FINISHED and at nesting 0. |
| ClientReaderImpl.ClientReader.ProceedToConnect | include/ggrpc/impl/client/client_reader.h:206-235 | Performs `StepProceedToConnect`. |
| ClientReaderImpl.ClientReader.ConnectFailed | include/ggrpc/impl/client/client_reader.h:221-228 | FINISHED, `OnError(CONNECT)`, `Done`. |
| ClientReaderImpl.ClientReader.ConnectSucceeded | include/ggrpc/impl/client/client_reader.h:231-234 | Read, READING, `OnConnect`. |
| ClientReaderImpl.ClientReader.ProceedToRead | include/ggrpc/impl/client/client_reader.h:237-290 | Performs `StepProceedToRead`. |
| ClientReaderImpl.ClientReader.ReadFailed | include/ggrpc/impl/client/client_reader.h:249-261 | The !ok branch of the read completion. |
| ClientReaderImpl.ClientReader.ReadSucceeded | include/ggrpc/impl/client/client_reader.h:263-289 | The ok branch of the read completion. |
| ClientResponseReaderImpl.Initial | include/ggrpc/impl/client/client_response_reader.h:85-89 | A new unary call is INIT and owes nothing. |
| ClientResponseReaderImpl.Deletion | include/ggrpc/impl/client/client_response_reader.h:70-81 | In every reachable state the call is deleted exactly when it was released and gRPC owes it neither the Finish nor the timeout notification. |
| ClientResponseReaderImpl.SettersSpec | include/ggrpc/impl/client/client_response_reader.h:101-121 | `SetOnFinish` and `SetTimeout` take effect until DONE. `SetOnError` takes effect only while INIT. |
| ClientResponseReaderImpl.ConnectSpec | include/ggrpc/impl/client/client_response_reader.h:123-138 | `Connect` acts only from INIT. It starts the call, issues exactly one Finish, and arms the timeout exactly when it is nonzero. |
| ClientResponseReaderImpl.CloseSpec | include/ggrpc/impl/client/client_response_reader.h:151-171 | CONNECTING becomes CANCELING and is cancelled. CANCELING is left alone. INIT and DONE become DONE. No callback runs, and a second `Close` changes nothing. |
| ClientResponseReaderImpl.ReleaseSpec | include/ggrpc/impl/client/client_response_reader.h:141-147 | `Release` closes the call, and it is deleted at once exactly when nothing is owed. |
| ClientResponseReaderImpl.ProceedToReadSpec | include/ggrpc/impl/client/client_response_reader.h:199-228 | The Finish completion always ends in DONE and cancels the timer. It reports `OnFinish` (ok) or `OnError(FINISH)` (!ok) only when the call was CONNECTING; a cancelled call gets no callback. |
| ClientResponseReaderImpl.ProceedToNotifySpec | include/ggrpc/impl/client/client_response_reader.h:229-251 | The timeout notification clears the timer flag. Only a timer that fired on a CONNECTING call cancels it, makes it CANCELING and reports `OnError(TIMEOUT)`. |
| ClientResponseReaderImpl.Apply | include/ggrpc/impl/client/client_response_reader.h:101-251 | Every action keeps the invariant. |
| ClientResponseReaderImpl.Run | include/ggrpc/impl/client/client_response_reader.h:101-251 | Any sequence of actions keeps the invariant. |
| ClientResponseReaderImpl.Lifetime | include/ggrpc/impl/client/client_response_reader.h:70-251 | Over any lifetime:<br>• at most one callback runs;<br>• the call is never deleted while a completion is owed;<br>• a released call that is owed nothing is deleted. |
| ClientResponseReaderImpl.ClientResponseReader.constructor | include/ggrpc/impl/client/client_response_reader.h:85-89 | Builds the initial call. |
| ClientResponseReaderImpl.ClientResponseReader.SetOnFinish | include/ggrpc/impl/client/client_response_reader.h:101-107 | Performs `StepSetOnFinish`. |
| ClientResponseReaderImpl.ClientResponseReader.SetOnError | include/ggrpc/impl/client/client_response_reader.h:108-114 | Performs `StepSetOnError`. |
| ClientResponseReaderImpl.ClientResponseReader.SetTimeout | include/ggrpc/impl/client/client_response_reader.h:115-121 | Performs `StepSetTimeout`. |
| ClientResponseReaderImpl.ClientResponseReader.Connect | include/ggrpc/impl/client/client_response_reader.h:123-138 | Performs `StepConnect`. |
| ClientResponseReaderImpl.ClientResponseReader.Release | include/ggrpc/impl/client/client_response_reader.h:141-147 | Performs `StepRelease`. |
| ClientResponseReaderImpl.ClientResponseReader.Close | include/ggrpc/impl/client/client_response_reader.h:151-155 | Performs `StepClose`. |
| ClientResponseReaderImpl.ClientResponseReader.DoClose | include/ggrpc/impl/client/client_response_reader.h:158-171 | Cancels while CONNECTING, and otherwise ends the call unless it is CANCELING. |
| ClientResponseReaderImpl.ClientResponseReader.Done | include/ggrpc/impl/client/client_response_reader.h:173-189 | Drops the callbacks once DONE. |
| ClientResponseReaderImpl.ClientResponseReader.RunCallback | include/ggrpc/impl/client/client_response_reader.h:192-197 | Runs the callback when present. The nesting counter is restored. |
| ClientResponseReaderImpl.ClientResponseReader.SafeDeleter | include/ggrpc/impl/client/client_response_reader.h:70-81 | Deletes exactly when released, DONE, with no timer set and at nesting 0. |
| ClientResponseReaderImpl.ClientResponseReader.ProceedToRead | include/ggrpc/impl/client/client_response_reader.h:199-228 | Performs `StepProceedToRead`. |
| ClientResponseReaderImpl.ClientResponseReader.ProceedToNotify | include/ggrpc/impl/client/client_response_reader.h:229-251 | Performs `StepProceedToNotify`. |
| ClientV1ResponseReader.Initial | include/ggrpc/client.h:85-86 | A new older unary call is INIT and owes nothing. |
| ClientV1ResponseReader.Deletion | include/ggrpc/client.h:72-81 | In every reachable state the call is deleted exactly when it was released and the Finish completion is not owed. |
| ClientV1ResponseReader.SettersSpec | include/ggrpc/client.h:96-109 | `SetOnResponse` takes effect until DONE. `SetOnError` takes effect only while INIT. |
| ClientV1ResponseReader.RequestSpec | include/ggrpc/client.h:111-120 | `Request` acts only from INIT: it moves to REQUESTING and issues exactly one Finish. Any later `Request` changes nothing. |
| ClientV1ResponseReader.CloseSpec | include/ggrpc/client.h:133-153 | REQUESTING becomes CANCELING and is cancelled. CANCELING is left alone. Any other status becomes DONE. Closing twice equals closing once. |
| ClientV1ResponseReader.ReleaseSpec | include/ggrpc/client.h:123-129 | `Release` closes the call, and it is deleted at once exactly when the Finish completion is not owed. |
| ClientV1ResponseReader.ProceedToReadSpec | include/ggrpc/client.h:194-220 | The Finish completion always ends in DONE. It reports `OnResponse` (ok) or `OnError(FINISH)` (!ok) only when the call was REQUESTING; a cancelled call gets no callback. |
| ClientV1ResponseReader.Apply | include/ggrpc/client.h:96-220 | Every action keeps the invariant. |
| ClientV1ResponseReader.Run | include/ggrpc/client.h:96-220 | Any sequence of actions keeps the invariant. |
| ClientV1ResponseReader.Lifetime | include/ggrpc/client.h:72-220 | Over any lifetime:<br>• at most one callback runs;<br>• the call is never deleted while the Finish completion is owed;<br>• a released call that is owed nothing is deleted. |
| ClientV1ResponseReader.ClientResponseReader.constructor | include/ggrpc/client.h:85-86 | Builds the initial call. |
| ClientV1ResponseReader.ClientResponseReader.SetOnResponse | include/ggrpc/client.h:96-102 | Performs `StepSetOnResponse`. |
| ClientV1ResponseReader.ClientResponseReader.SetOnError | include/ggrpc/client.h:103-109 | Performs `StepSetOnError`. |
| ClientV1ResponseReader.ClientResponseReader.Request | include/ggrpc/client.h:111-120 | Performs `StepRequest`. |
| ClientV1ResponseReader.ClientResponseReader.Release | include/ggrpc/client.h:123-129 | Performs `StepRelease`. |
| ClientV1ResponseReader.ClientResponseReader.Close | include/ggrpc/client.h:133-137 | Performs `StepClose`. |
| ClientV1ResponseReader.ClientResponseReader.DoClose | include/ggrpc/client.h:140-153 | Cancels while REQUESTING, and otherwise ends the call unless it is CANCELING. |
| ClientV1ResponseReader.ClientResponseReader.Done | include/ggrpc/client.h:155-169 | Drops the callbacks once DONE. |
| ClientV1ResponseReader.ClientResponseReader.RunCallback | include/ggrpc/client.h:173-192 | Runs the callback when present. The nesting counter is restored. |
| ClientV1ResponseReader.ClientResponseReader.SafeDeleter | include/ggrpc/client.h:72-81 | Deletes exactly when released, DONE and at nesting 0. |
| ClientV1ResponseReader.ClientResponseReader.ProceedToRead | include/ggrpc/client.h:194-220 | Performs `StepProceedToRead`. |
| ClientV1ReaderWriter.Initial | include/ggrpc/client.h:334-339 | A new stream has both sides INIT, no callbacks and owes nothing. |
| ClientV1ReaderWriter.SafeConsequences | include/ggrpc/client.h:319-330 | In the corrected stream:<br>• the stream is deleted exactly when it was released and owes nothing;<br>• requests go out in the order they were accepted, none skipped;<br>• they are acknowledged in the order they went out. |
| ClientV1ReaderWriter.SettersSpec | include/ggrpc/client.h:350-397 | `SetOnConnect`, `SetOnRead`, `SetOnReadDone` and `SetOnWritesDone` store their callback exactly before `Connect`. As written, `SetOnWrite` and `SetOnError` never change anything. Corrected, they behave like the others. |
| ClientV1ReaderWriter.SettersSilent | include/ggrpc/client.h:374-397 | As written, no setter ever installs `OnWrite` or `OnError`. |
| ClientV1ReaderWriter.SettersSafe | include/ggrpc/client.h:350-397 | The corrected setters keep the corrected invariant. |
| ClientV1ReaderWriter.ConnectSpec | include/ggrpc/client.h:399-408 | `Connect` acts only from INIT. It moves both sides to CONNECTING, starts the call and awaits the connect completion. |
| ClientV1ReaderWriter.CloseSpec | include/ggrpc/client.h:421-453 | `Close` cancels exactly when either side is active and never runs a callback or changes the queue. |
| ClientV1ReaderWriter.CloseStatus | include/ggrpc/client.h:428-453 | An active side becomes CANCELING. As written any other side becomes FINISHED, CANCELING included. Corrected, a CANCELING side stays CANCELING. |
| ClientV1ReaderWriter.CloseIdempotent | include/ggrpc/client.h:428-453 | The corrected `Close` is idempotent. |
| ClientV1ReaderWriter.CloseSafe | include/ggrpc/client.h:421-453 | The corrected `Close` keeps the corrected invariant. |
| ClientV1ReaderWriter.CloseSilent | include/ggrpc/client.h:421-453 | `Close` never installs or reports `OnWrite`/`OnError`. |
| ClientV1ReaderWriter.ReleaseSpec | include/ggrpc/client.h:411-417 | `Release` marks the stream released and closes it without a callback. |
| ClientV1ReaderWriter.ReleaseSafe | include/ggrpc/client.h:411-417 | With the corrected `DoClose`, a released stream is deleted exactly when it owes nothing. |
| ClientV1ReaderWriter.ReleaseSilent | include/ggrpc/client.h:411-417 | `Release` keeps `OnWrite`/`OnError` silenced. |
| ClientV1ReaderWriter.SubmitSpec | include/ggrpc/client.h:480-512 | `Write` and `WritesDone`:<br>• take the request in while INIT, CONNECTING, WRITING or IDLE, and drop it otherwise;<br>• in IDLE, send it at once;<br>• otherwise append it to the back of the queue and send nothing.<br>In IDLE, as written the queue stays empty; corrected, it holds the request. |
| ClientV1ReaderWriter.SubmitSilent | include/ggrpc/client.h:480-512 | `Write`/`WritesDone` keep `OnWrite`/`OnError` silenced. |
| ClientV1ReaderWriter.SubmitSafe | include/ggrpc/client.h:480-512 | The corrected `Write`/`WritesDone` keep the corrected invariant, the FIFO included. |
| ClientV1ReaderWriter.ProceedToConnectSpec | include/ggrpc/client.h:537-573 | The connect completion:<br>• as written, leaves a CANCELING stream CANCELING and owed nothing; corrected, it finishes both sides;<br>• on failure, finishes both sides and reports `OnError(CONNECT)`;<br>• on success, issues the first Read, starts sending the queue front (or goes IDLE) and reports `OnConnect`. |
| ClientV1ReaderWriter.ConnectCanceledSpec | include/ggrpc/client.h:547-551 | The connect completion of a cancelled stream runs no callback. As written both sides stay CANCELING; corrected, both finish. |
| ClientV1ReaderWriter.ConnectFailureSpec | include/ggrpc/client.h:555-564 | A failed connect finishes both sides, issues nothing and reports `OnError(CONNECT)`. |
| ClientV1ReaderWriter.ConnectSuccessSpec | include/ggrpc/client.h:566-572 | A successful connect issues Read. Then it either goes IDLE on an empty queue or sends the queue front. Then it reports `OnConnect`. |
| ClientV1ReaderWriter.ProceedToConnectSafe | include/ggrpc/client.h:537-573 | The corrected connect completion keeps the corrected invariant. |
| ClientV1ReaderWriter.ProceedToConnectSilent | include/ggrpc/client.h:537-573 | The connect completion keeps `OnWrite`/`OnError` silenced. |
| ClientV1ReaderWriter.ProceedToReadSpec | include/ggrpc/client.h:575-629 | The read completion leaves the write side alone:<br>• a cancelled read side finishes silently;<br>• a successful Read issues the next Read before `OnRead`;<br>• a failed Read issues Finish;<br>• the Finish completion ends the read side with `OnReadDone` or `OnError(READ)`. |
| ClientV1ReaderWriter.ReadCanceledSpec | include/ggrpc/client.h:583-587 | A read completion on a CANCELING read side finishes it with nothing issued or reported. |
| ClientV1ReaderWriter.ReadSuccessSpec | include/ggrpc/client.h:604-628 | A successful Read continues the pull. A successful Finish reports `OnReadDone` and ends the read side. |
| ClientV1ReaderWriter.ReadFailureSpec | include/ggrpc/client.h:589-602 | A failed Read issues Finish. A failed Finish reports `OnError(READ)` and ends the read side. |
| ClientV1ReaderWriter.ProceedToReadSafe | include/ggrpc/client.h:575-629 | The read completion keeps the corrected invariant. |
| ClientV1ReaderWriter.ProceedToReadSilent | include/ggrpc/client.h:575-629 | The read completion keeps `OnWrite`/`OnError` silenced. |
| ClientV1ReaderWriter.ProceedToWriteSpec | include/ggrpc/client.h:631-669 | The write completion leaves the read side alone and takes nothing new in:<br>• a cancelled or failed write finishes the write side, reporting `OnError(WRITE)` only on failure;<br>• a successful one acknowledges the queue front (undefined behaviour on an empty queue);<br>• after WritesDone, it finishes with `OnWritesDone`. |
| ClientV1ReaderWriter.WriteEndedSpec | include/ggrpc/client.h:639-650 | A cancelled or failed write finishes the write side, reporting `OnError(WRITE)` only on failure. |
| ClientV1ReaderWriter.WriteSuccessSpec | include/ggrpc/client.h:652-668 | A successful write or WritesDone pops the queue front. The pop is undefined exactly on an empty queue. |
| ClientV1ReaderWriter.WritesDoneAckedSpec | include/ggrpc/client.h:652-660 | A successful WritesDone pops the marker, finishes the write side and reports `OnWritesDone`. |
| ClientV1ReaderWriter.WriteAckedSpec | include/ggrpc/client.h:662-668 | A successful Write pops the front. It then sends the next request or goes IDLE, and reports `OnWrite` with the popped request's id. |
| ClientV1ReaderWriter.WriteCompletionInOrder | include/ggrpc/client.h:662-686 | In the corrected stream, each write completion acknowledges exactly the request sent last and reports `OnWrite` with its id. The next queued request goes out; with none left the stream goes IDLE. |
| ClientV1ReaderWriter.InFlightIsFront | include/ggrpc/client.h:655-663 | In the corrected stream, the request in flight is the queue front, so the `front()`/`pop_front()` of the write completion never see an empty queue. |
| ClientV1ReaderWriter.ProceedToWriteSafe | include/ggrpc/client.h:631-669 | The corrected write completion keeps the corrected invariant. |
| ClientV1ReaderWriter.WriteSuccessSafe | include/ggrpc/client.h:652-668 | In the corrected stream, a successful write or WritesDone keeps the corrected invariant. |
| ClientV1ReaderWriter.WritesDoneAckedSafe | include/ggrpc/client.h:652-660 | When WritesDone is the queue front and in flight, its acknowledgement keeps the corrected invariant. |
| ClientV1ReaderWriter.WriteAckedSafe | include/ggrpc/client.h:662-668 | When the acknowledged Write is the queue front and in flight, its completion keeps the corrected invariant. |
| ClientV1ReaderWriter.NextWriteSafe | include/ggrpc/client.h:662-686 | The request sent after a pop is the next accepted one, so what has been sent stays a prefix of what was accepted. |
| ClientV1ReaderWriter.ProceedToWriteSilent | include/ggrpc/client.h:631-669 | The write completion keeps `OnWrite`/`OnError` silenced. |
| ClientV1ReaderWriter.SelfMoveDropsCallbacks | include/ggrpc/client.h:374-397 | As written, `SetOnWrite` and `SetOnError` on a new stream leave it unchanged. The corrected setters install the callback. |
| ClientV1ReaderWriter.FixedSetterReportsConnectError | include/ggrpc/client.h:390-397 | With the corrected `SetOnError`, a failed connect reports `OnError(CONNECT)`. |
| ClientV1ReaderWriter.IdleStream | include/ggrpc/client.h:566-573 | A connected stream with nothing queued is IDLE, and satisfies the corrected invariant. |
| ClientV1ReaderWriter.IdleWriteLosesQueuedWrite | include/ggrpc/client.h:485-487 | As written, two Writes on an IDLE stream followed by one write completion acknowledge request 2 although request 1 was the one sent. Request 2 is never sent and the stream is IDLE. |
| ClientV1ReaderWriter.IdleWriteReadsEmptyQueue | include/ggrpc/client.h:662 | As written, one Write on an IDLE stream followed by its completion reads the front of an empty queue. |
| ClientV1ReaderWriter.IdleWritesDonePopsEmptyQueue | include/ggrpc/client.h:655 | As written, WritesDone on an IDLE stream followed by its completion pops an empty queue. |
| ClientV1ReaderWriter.IdleWriteFixedKeepsOrder | include/ggrpc/client.h:480-497 | With the request also queued when IDLE, the same two Writes send 1 then 2, acknowledge 1, and keep 2 in flight. |
| ClientV1ReaderWriter.DoubleCloseDeletesPendingCall | include/ggrpc/client.h:428-453 | As written, `Connect`, `Close`, `Close`, `Release` deletes the stream while the connect completion is still owed. |
| ClientV1ReaderWriter.DoubleCloseFixedWaits | include/ggrpc/client.h:428-453 | With the corrected `DoClose` the same sequence waits for the connect completion, which then deletes the stream. |
| ClientV1ReaderWriter.CancelDuringConnectLeaks | include/ggrpc/client.h:547-551 | As written, `Connect`, `Release`, then the connect completion leaves the stream released, CANCELING and owed nothing. No action can reach it any more. |
| ClientV1ReaderWriter.CancelDuringConnectFixedFinishes | include/ggrpc/client.h:547-551 | With the corrected connect completion the same sequence deletes the stream. |
| ClientV1ReaderWriter.Apply | include/ggrpc/client.h:350-686 | Every action keeps the stream invariant:<br>• at most one completion per thunk;<br>• both sides leave INIT together;<br>• statuses name what is in flight;<br>• IDLE means an empty queue;<br>• callbacks are dropped once both sides are FINISHED;<br>• deletion happens exactly as SafeDeleter decides. |
| ClientV1ReaderWriter.ApplySafe | include/ggrpc/client.h:350-686 | Every corrected action keeps the corrected invariant: no undefined behaviour, one completion per CANCELING side, a FIFO request queue. |
| ClientV1ReaderWriter.CallSafe | include/ggrpc/client.h:350-512 | Every corrected user call keeps the corrected invariant. |
| ClientV1ReaderWriter.CompletionSafe | include/ggrpc/client.h:537-686 | Every corrected completion keeps the corrected invariant. |
| ClientV1ReaderWriter.ApplySilent | include/ggrpc/client.h:350-686 | As written, no action installs or reports `OnWrite` or `OnError`. |
| ClientV1ReaderWriter.CallSilent | include/ggrpc/client.h:350-512 | No user call installs or reports them. |
| ClientV1ReaderWriter.CompletionSilent | include/ggrpc/client.h:537-686 | No completion reports them. |
| ClientV1ReaderWriter.Run | include/ggrpc/client.h:350-686 | Any sequence of actions keeps the invariant. |
| ClientV1ReaderWriter.RunSafe | include/ggrpc/client.h:350-686 | Any sequence of corrected actions keeps the corrected invariant. |
| ClientV1ReaderWriter.RunSilent | include/ggrpc/client.h:374-397 | As written, `OnWrite` and `OnError` stay silent over any lifetime. |
| ClientV1ReaderWriter.StuckStaysStuck | include/ggrpc/client.h:547-551 | A stream no action can reach never changes again. |
| ClientV1ReaderWriter.LeakIsPermanent | include/ggrpc/client.h:547-551 | The leaked stream of `CancelDuringConnectLeaks` is never deleted, whatever follows. |
| ClientV1ReaderWriter.AsWrittenNeverReports | include/ggrpc/client.h:374-397 | As written, no lifetime ever runs `OnWrite` or `OnError`. |
| ClientV1ReaderWriter.FixedLifetime | include/ggrpc/client.h:319-686 | In the corrected stream, every lifetime:<br>• avoids undefined behaviour;<br>• sends a prefix of the accepted requests, in order;<br>• acknowledges a prefix of the sent ones;<br>• never deletes while a completion is owed, and deletes every released stream owed nothing. |
| ClientV1ReaderWriter.ClientReaderWriter.constructor | include/ggrpc/client.h:334-339 | Builds the initial stream. |
| ClientV1ReaderWriter.ClientReaderWriter.SetOnConnect | include/ggrpc/client.h:350-357 | Performs `StepSetOnConnect`. |
| ClientV1ReaderWriter.ClientReaderWriter.SetOnRead | include/ggrpc/client.h:358-365 | Performs `StepSetOnRead`. |
| ClientV1ReaderWriter.ClientReaderWriter.SetOnReadDone | include/ggrpc/client.h:366-373 | Performs `StepSetOnReadDone`. |
| ClientV1ReaderWriter.ClientReaderWriter.SetOnWrite | include/ggrpc/client.h:374-381 | Performs `StepSetOnWrite` as written: the self-move. |
| ClientV1ReaderWriter.ClientReaderWriter.SetOnWritesDone | include/ggrpc/client.h:382-389 | Performs `StepSetOnWritesDone`. |
| ClientV1ReaderWriter.ClientReaderWriter.SetOnError | include/ggrpc/client.h:390-397 | Performs `StepSetOnError` as written: the self-move. |
| ClientV1ReaderWriter.ClientReaderWriter.Connect | include/ggrpc/client.h:399-408 | Performs `StepConnect`. |
| ClientV1ReaderWriter.ClientReaderWriter.Release | include/ggrpc/client.h:411-417 | Performs `StepRelease` as written. |
| ClientV1ReaderWriter.ClientReaderWriter.Close | include/ggrpc/client.h:421-425 | Performs `StepClose` as written. |
| ClientV1ReaderWriter.ClientReaderWriter.DoClose | include/ggrpc/client.h:428-453 | Cancels when either side is active, then sets each side to CANCELING or FINISHED, then `Done`. |
| ClientV1ReaderWriter.ClientReaderWriter.Done | include/ggrpc/client.h:455-477 | Drops every callback once both sides are FINISHED. |
| ClientV1ReaderWriter.ClientReaderWriter.Write | include/ggrpc/client.h:480-497 | Performs `StepWrite` as written. |
| ClientV1ReaderWriter.ClientReaderWriter.WritesDone | include/ggrpc/client.h:499-512 | Performs `StepWritesDone` as written. |
| ClientV1ReaderWriter.ClientReaderWriter.RunCallback | include/ggrpc/client.h:516-535 | Runs the callback when present. The nesting counter is restored. |
| ClientV1ReaderWriter.ClientReaderWriter.SafeDeleter | include/ggrpc/client.h:319-330 | Deletes exactly when released, both sides FINISHED, and at nesting 0. |
| ClientV1ReaderWriter.ClientReaderWriter.HandleRequestQueue | include/ggrpc/client.h:671-686 | Goes IDLE on an empty queue. Otherwise it sends the front, as a Write or as WritesDone. |
| ClientV1ReaderWriter.ClientReaderWriter.ProceedToConnect | include/ggrpc/client.h:537-573 | Performs `StepProceedToConnect` as written. |
| ClientV1ReaderWriter.ClientReaderWriter.ConnectCompleted | include/ggrpc/client.h:554-572 | The outcome of a connect on a CONNECTING stream. |
| ClientV1ReaderWriter.ClientReaderWriter.ConnectFailed | include/ggrpc/client.h:555-564 | Both sides FINISHED, `OnError(CONNECT)`, `Done`. |
| ClientV1ReaderWriter.ClientReaderWriter.ConnectSucceeded | include/ggrpc/client.h:566-572 | Read, READING, the request queue, `OnConnect`. |
| ClientV1ReaderWriter.ClientReaderWriter.ProceedToRead | include/ggrpc/client.h:575-629 | Performs `StepProceedToRead`. |
| ClientV1ReaderWriter.ClientReaderWriter.ReadCompleted | include/ggrpc/client.h:589-628 | The outcome of a read on an active read side. |
| ClientV1ReaderWriter.ClientReaderWriter.ReadFailed | include/ggrpc/client.h:589-602 | The !ok branch of the read completion. |
| ClientV1ReaderWriter.ClientReaderWriter.ReadSucceeded | include/ggrpc/client.h:604-628 | The ok branch of the read completion. |
| ClientV1ReaderWriter.ClientReaderWriter.ProceedToWrite | include/ggrpc/client.h:631-669 | Performs `StepProceedToWrite` as written. |
| ClientV1ReaderWriter.ClientReaderWriter.WriteCompleted | include/ggrpc/client.h:645-668 | The outcome of a write on an active write side. |
| ClientV1ReaderWriter.ClientReaderWriter.PopRequest | include/ggrpc/client.h:662-663 | Takes the front request off the queue, with a fault on an empty queue. |
| ClientV1ReaderWriter.ClientReaderWriter.WriteSucceeded | include/ggrpc/client.h:652-668 | The ok branch of the write completion. |
| ServerImpl.Initial | include/ggrpc/impl/server/server.h:47 | A new server has no generator, no worker, no holder and is not shut down. |
| ServerImpl.AddHandlerSpec | include/ggrpc/impl/server/server.h:51-188 | `Add*Handler` registers exactly one generator, at the back, exactly when the server is neither started nor shut down. It changes nothing else. |
| ServerImpl.StartSpec | include/ggrpc/impl/server/server.h:190-215 | `Start` acts only when not started and not shut down. It builds exactly `threads` queues (none for a non-positive count, which leaves the server unstarted), builds the gRPC server, and spawns one worker per queue. A second `Start` is a no-op. |
| ServerImpl.ShutdownSpec | include/ggrpc/impl/server/server.h:218-257 | `Shutdown` acts only on a started server that is not yet shut down:<br>• it closes exactly the live holders, then clears the registry;<br>• it shuts down the gRPC server, then every queue, then joins every worker;<br>• a second `Shutdown` is a no-op. |
| ServerImpl.ShutdownEffectsSpec | include/ggrpc/impl/server/server.h:232-254 | The shutdown effects are in phase order. Each queue and each worker is handled exactly once. |
| ServerImpl.GenerateSpec | include/ggrpc/impl/server/server.h:69-80 | A generator run prunes expired holders, in order, and registers exactly the new context at the back. It changes nothing else. |
| ServerImpl.CreateAlarmSpec | include/ggrpc/impl/server/server.h:259-278 | `CreateAlarm` fails (null) exactly before `Start` or after `Shutdown`, changing nothing. Otherwise it prunes, registers the alarm, and binds it to queue `next_id_ % queues`. |
| ServerImpl.ShutdownStages | include/ggrpc/impl/server/server.h:218-257 | `Shutdown` is the composition of its three loops. |
| ServerImpl.Apply | include/ggrpc/impl/server/server.h:51-302 | Every operation keeps one worker per queue. |
| ServerImpl.Run | include/ggrpc/impl/server/server.h:51-302 | Any sequence of operations keeps one worker per queue. |
| ServerImpl.StartedIsFrozen | include/ggrpc/impl/server/server.h:57-60 | Once started, the generators and the queue count never change. |
| ServerImpl.ShutdownIsFinal | include/ggrpc/impl/server/server.h:225-227 | Once shut down, the server stays shut down, never registers a generator again, and every later `CreateAlarm` fails. |
| ServerImpl.ServerObject.constructor | include/ggrpc/impl/server/server.h:47 | Builds the initial server. |
| ServerImpl.ServerObject.AddHandler | include/ggrpc/impl/server/server.h:51-83 | Performs `StepAddHandler`. |
| ServerImpl.ServerObject.Start | include/ggrpc/impl/server/server.h:190-215 | Performs `StepStart` with the queue-building loop. |
| ServerImpl.ServerObject.SpawnWorkers | include/ggrpc/impl/server/server.h:210-214 | Spawns one worker per queue, in order. |
| ServerImpl.ServerObject.Shutdown | include/ggrpc/impl/server/server.h:218-257 | Performs `StepShutdown`, stage by stage. |
| ServerImpl.ServerObject.CloseHolders | include/ggrpc/impl/server/server.h:233-235 | Closes every holder in order. |
| ServerImpl.ServerObject.ShutdownQueues | include/ggrpc/impl/server/server.h:240-242 | Shuts down every queue in order. |
| ServerImpl.ServerObject.JoinWorkers | include/ggrpc/impl/server/server.h:246-254 | Joins every worker in order. |
| ServerImpl.ServerObject.Collect | include/ggrpc/impl/server/server.h:295-302 | Replaces the registry by its live holders, in order. |
| ServerImpl.ServerObject.Generate | include/ggrpc/impl/server/server.h:69-80 | Performs `StepGenerate`. |
| ServerImpl.ServerObject.CreateAlarm | include/ggrpc/impl/server/server.h:259-278 | Performs `StepCreateAlarm` and returns the chosen queue, or nothing. |
| ServerImpl.ServerObject.Destroy | include/ggrpc/impl/server/server.h:48 | The destructor performs `Shutdown`. |
| ServerV1.Initial | include/ggrpc/server.h:622 | A new older server has no generator, no worker and is not shut down. |
| ServerV1.AddHandlerSpec | include/ggrpc/server.h:626-677 | `Add*Handler` registers exactly one generator, at the back, exactly when the server is neither started nor shut down. |
| ServerV1.StartSpec | include/ggrpc/server.h:679-704 | `Start` acts only when not started and not shut down. It builds exactly `threads` queues and one worker per queue. A second `Start` is a no-op. |
| ServerV1.ShutdownSpec | include/ggrpc/server.h:707-740 | `Shutdown` acts only on a started server not yet shut down. It raises the flag every handler reads, then shuts down the gRPC server, then every queue, then joins every worker, each exactly once and in that order. A second `Shutdown` is a no-op. |
| ServerV1.ShutdownEffectsSpec | include/ggrpc/server.h:721-737 | The shutdown effects are in phase order and begin with the gRPC server. Each queue and each worker is handled exactly once. |
| ServerV1.ShutdownStages | include/ggrpc/server.h:707-740 | `Shutdown` is the composition of its loops. |
| ServerV1.Apply | include/ggrpc/server.h:626-740 | Every operation keeps one worker per queue. |
| ServerV1.Run | include/ggrpc/server.h:626-740 | Any sequence of operations keeps one worker per queue. |
| ServerV1.StartedIsFrozen | include/ggrpc/server.h:683-689 | Once started, the generators and the queue count never change. |
| ServerV1.ShutdownIsFinal | include/ggrpc/server.h:714-716 | Once shut down, the server stays shut down, registers nothing and does nothing more, the destructor's `Shutdown` included. |
| ServerV1.ServerObject.constructor | include/ggrpc/server.h:622 | Builds the initial server. |
| ServerV1.ServerObject.AddHandler | include/ggrpc/server.h:626-650 | Performs `StepAddHandler`. |
| ServerV1.ServerObject.Start | include/ggrpc/server.h:679-704 | Performs `StepStart` with the queue-building loop. |
| ServerV1.ServerObject.SpawnWorkers | include/ggrpc/server.h:699-703 | Spawns one worker per queue, in order. |
| ServerV1.ServerObject.Shutdown | include/ggrpc/server.h:707-740 | Performs `StepShutdown`. |
| ServerV1.ServerObject.ShutdownQueues | include/ggrpc/server.h:723-725 | Shuts down every queue in order. |
| ServerV1.ServerObject.JoinWorkers | include/ggrpc/server.h:729-737 | Joins every worker in order. |
| ServerV1.ServerObject.Destroy | include/ggrpc/server.h:623 | The destructor performs `Shutdown`. |
| ServerV1ResponseWriter.Initial | include/ggrpc/server.h:89-97 | A handler just initialised is LISTENING and awaits exactly its accept. |
| ServerV1ResponseWriter.Sent | include/ggrpc/server.h:215-220 | The replies a handler sent are exactly those of its `Finish`/`FinishWithError` operations, no more than it issued operations. |
| ServerV1ResponseWriter.ReplySpec | include/ggrpc/server.h:102-135 | `Finish` and `FinishWithError` act only while IDLE and before a shutdown request. The first such call stores its reply, moves to FINISHING and sets exactly one alarm; every later call changes nothing. |
| ServerV1ResponseWriter.ProceedToAcceptSpec | include/ggrpc/server.h:138-171 | After a shutdown request or a failed accept, the handler finishes and deletes itself without re-arming or running `OnAccept`. Otherwise it re-arms its generator, becomes IDLE and runs `OnAccept` once. |
| ServerV1ResponseWriter.ProceedToNotifySpec | include/ggrpc/server.h:196-222 | A reply is stored whenever the alarm is owed. After a shutdown request or a cancelled alarm the handler finishes and deletes itself. Otherwise it sends exactly the stored reply and awaits the write. |
| ServerV1ResponseWriter.ProceedToWriteSpec | include/ggrpc/server.h:173-194 | Whatever the outcome, the write completion ends the call and deletes the handler, which is then owed nothing. |
| ServerV1ResponseWriter.Apply | include/ggrpc/server.h:102-222 | Every action keeps the handler invariant. Exactly one completion is owed until FINISHED. A reply is stored only after `OnAccept`. At most one reply is sent, and it is the stored one. Deleted exactly when FINISHED. |
| ServerV1ResponseWriter.Run | include/ggrpc/server.h:102-222 | Any sequence of actions keeps the invariant. |
| ServerV1ResponseWriter.Lifetime | include/ggrpc/server.h:102-222 | Over any lifetime:<br>• `OnAccept` runs at most once;<br>• at most one reply is sent; it is the one stored by `Finish`/`FinishWithError`, and only after `OnAccept`;<br>• the handler is deleted exactly when FINISHED, and then owed nothing. |
| ServerV1ResponseWriter.ServerResponseWriterHandler.constructor | include/ggrpc/server.h:81-97 | Builds and initialises a handler. |
| ServerV1ResponseWriter.ServerResponseWriterHandler.Finish | include/ggrpc/server.h:102-119 | Performs `StepReply` with a response. |
| ServerV1ResponseWriter.ServerResponseWriterHandler.FinishWithError | include/ggrpc/server.h:121-135 | Performs `StepReply` with an error. |
| ServerV1ResponseWriter.ServerResponseWriterHandler.Notify | include/ggrpc/server.h:78 | Sets the alarm. |
| ServerV1ResponseWriter.ServerResponseWriterHandler.ProceedToAccept | include/ggrpc/server.h:138-171 | Performs `StepProceedToAccept`. |
| ServerV1ResponseWriter.ServerResponseWriterHandler.ProceedToWrite | include/ggrpc/server.h:173-194 | Performs `StepProceedToWrite`. |
| ServerV1ResponseWriter.ServerResponseWriterHandler.ProceedToNotify | include/ggrpc/server.h:196-222 | Performs `StepProceedToNotify`. |
| ServerV1ReaderWriter.Initial | include/ggrpc/server.h:295-315 | A handler just initialised has both sides LISTENING and awaits exactly its accept. |
| ServerV1ReaderWriter.DeletedIsQuiet | include/ggrpc/server.h:388-391 | A deleted handler is owed no completion. |
| ServerV1ReaderWriter.EnqueueSpec | include/ggrpc/server.h:317-367 | `Write` and `Finish`:<br>• are ignored after a shutdown request, and when the write side is neither IDLE nor WRITING;<br>• when IDLE, queue the entry, set the alarm, and become WRITING (for a response) or FINISHING (for the final status);<br>• when WRITING, append the entry behind those in flight. |
| ServerV1ReaderWriter.EnqueueIdle | include/ggrpc/server.h:326-333 | Queueing on an IDLE side keeps the invariant. |
| ServerV1ReaderWriter.EnqueueWriting | include/ggrpc/server.h:334-340 | Queueing on a WRITING side keeps the invariant. |
| ServerV1ReaderWriter.ProceedToAcceptSpec | include/ggrpc/server.h:393-435 | After a shutdown request or a failed accept, both sides finish and the handler deletes itself without a callback. Otherwise it re-arms its generator, becomes IDLE, runs `OnAccept`, and issues the first Read. |
| ServerV1ReaderWriter.ProceedToReadSpec | include/ggrpc/server.h:437-481 | The read completion:<br>• on a shutdown request, ends reading silently and finishes the write side (cancelling it when busy);<br>• on a failed read, ends reading with `OnReadDoneOrError`;<br>• on success, runs `OnRead` and issues the next Read.<br>The handler is deleted exactly when both sides are over. |
| ServerV1ReaderWriter.ProceedToWriteFailSpec | include/ggrpc/server.h:489-507 | After a shutdown request or a failed write, the write side is over. The read side is cancelled if still reading. The handler is deleted exactly when reading is over too. |
| ServerV1ReaderWriter.ProceedToWriteNextSpec | include/ggrpc/server.h:509-524 | A successful write pops the entry just sent. It then sends the next one (a response stays WRITING, the final status becomes FINISHING) or becomes IDLE. The handler is not deleted. |
| ServerV1ReaderWriter.ProceedToWriteFinishingSpec | include/ggrpc/server.h:525-530 | The completion of the final status ends the write side. The handler is deleted exactly when reading is over. |
| ServerV1ReaderWriter.ProceedToNotifySpec | include/ggrpc/server.h:533-583 | The alarm is owed only while something is queued, so the empty-queue branch (lines 564-572) cannot be reached. After a shutdown request or a cancelled alarm, the write side is over and the handler is deleted exactly when reading is over too. Otherwise the queue front goes out as the next operation: a response keeps the side WRITING, the final status makes it FINISHING. |
| ServerV1ReaderWriter.WriteDoneSpec | include/ggrpc/server.h:483-531 | The write completion keeps the invariant. |
| ServerV1ReaderWriter.Apply | include/ggrpc/server.h:317-583 | Every action keeps the handler invariant:<br>• the lifecycle of both sides;<br>• the queue is a suffix of what was pushed;<br>• what was sent is a prefix of what was pushed;<br>• nothing follows the final status. |
| ServerV1ReaderWriter.Run | include/ggrpc/server.h:317-583 | Any sequence of actions keeps the invariant. |
| ServerV1ReaderWriter.Lifetime | include/ggrpc/server.h:317-583 | Over any lifetime:<br>• the entries sent are a prefix of those pushed, in order, and only the last may be the final status;<br>• `OnAccept` comes first and only once, and `OnReadDoneOrError`, if any, comes last;<br>• the handler is deleted exactly when both sides are FINISHED, and then owed nothing. |
| ServerV1ReaderWriter.ServerReaderWriterHandler.constructor | include/ggrpc/server.h:295-315 | Builds and initialises a handler. |
| ServerV1ReaderWriter.ServerReaderWriterHandler.Write | include/ggrpc/server.h:317-341 | Performs `StepEnqueue` with a response. |
| ServerV1ReaderWriter.ServerReaderWriterHandler.Finish | include/ggrpc/server.h:343-367 | Performs `StepEnqueue` with the final status. |
| ServerV1ReaderWriter.ServerReaderWriterHandler.Push | include/ggrpc/server.h:332 | The `push_back` shared by `Write` and `Finish`: appends the entry to the queue and to the record of everything pushed, and changes nothing else. |
| ServerV1ReaderWriter.ServerReaderWriterHandler.Notify | include/ggrpc/server.h:290-292 | Sets the alarm. |
| ServerV1ReaderWriter.ServerReaderWriterHandler.DoFinishRead | include/ggrpc/server.h:370-377 | `FinishRead`: cancels a read still pending, otherwise reading is over. |
| ServerV1ReaderWriter.ServerReaderWriterHandler.DoFinishWrite | include/ggrpc/server.h:378-386 | `FinishWrite`: cancels a write still pending, otherwise writing is over. |
| ServerV1ReaderWriter.ServerReaderWriterHandler.MaybeDelete | include/ggrpc/server.h:388-391 | Deletes exactly when `Deletable`, that is when both sides are FINISHED. |
| ServerV1ReaderWriter.ServerReaderWriterHandler.WriteFront | include/ggrpc/server.h:574-582 | Sends the queue front: a response by Write, the final status by Finish (becoming FINISHING). |
| ServerV1ReaderWriter.ServerReaderWriterHandler.ProceedToAccept | include/ggrpc/server.h:393-435 | Performs `StepProceedToAccept`. |
| ServerV1ReaderWriter.ServerReaderWriterHandler.ProceedToRead | include/ggrpc/server.h:437-481 | Performs `StepProceedToRead`. |
| ServerV1ReaderWriter.ServerReaderWriterHandler.ProceedToWrite | include/ggrpc/server.h:483-531 | Performs `StepProceedToWrite`. |
| ServerV1ReaderWriter.ServerReaderWriterHandler.ProceedToNotify | include/ggrpc/server.h:533-583 | Performs `StepProceedToNotify`. |

## Left out

- gRPC itself is outside the model. Each operation handed to gRPC is an entry of `issued`, and each completion is an action that arrives only while it is owed. The order in which gRPC delivers completions of different thunks is arbitrary in the model. Completion values other than `ok` (responses, `grpc::Status` contents) are not modelled. Replies and requests carry an integer id or code in place of the message.
- Worker threads, completion-queue draining (`ThreadRun`, `HandleRpcs`) and the `Handler`/thunk dispatch are not modelled; each action is one atomic step.
- Mutexes are not modelled either. This is sound for completions because each queue has exactly one worker, so one object's completions never overlap. It is sound for user calls because every entry point holds the object's mutex from start to finish.
- The windows in which a callback runs with the lock released are not interleaved with other actions. A callback's re-entrant calls into the same object are not modelled. The nesting counter is always back at 0 between steps, and `RunCallbackClient`/`RunCallbackServer` prove that each window restores it.
- Logging, clocks and the wall-clock deadline of an alarm are not modelled; a deadline is the integer millisecond delay.
- Exceptions thrown by callbacks are caught and logged by the source. The model treats the caught exception like a normal return.
- Callback identity is not modelled. A callback is only "installed or not", so the functions passed to the setters are not distinguished.
- `assert`s in the source become preconditions of the completion handlers, and the model does not cover release builds where they are compiled out. For example, `ProceedToConnect` on a stream that is neither CONNECTING nor CANCELING is outside the model.
- `detail::new_from_tuple`, the handler's `Request` virtual and the generator's construction of the context are not modelled. `ServerImpl.Generate` records only the registry entry that a generator run adds. The older server's generators and `Init` are not modelled; `ServerV1.ServerObject` keeps only the kind of handler each generator creates.
- `ServerV1ResponseWriter` and `ServerV1ReaderWriter` read `shutdown_requested_()` as a boolean parameter of each step. That parameter stands for the server's atomic `shutdown_` flag, which `ServerV1.Shutdown` raises.
- `ServerResponseWriterHandler` in include/ggrpc/server.h deletes itself through `std::unique_ptr` of its own (base) type, while its destructor is not virtual. That is undefined behaviour for a derived handler, a property of C++ types that lies outside this model.
- `Server::Wait` and the `grpc::ServerBuilder` configuration are not modelled.
- ClientManagerImpl.FixedNeverFaults: the promise covers only the intended use. `Start` after `Shutdown` (`RestartFaults`) and `Create*` on zero threads (`CreateWithoutThreadsFaults`) leave defined behaviour under either `Shutdown`. The code has no guard against either, and the model treats both as misuse rather than as defects.
- `ServerImpl.CreateAlarmSpec`: the `int next_id_` counter is unbounded in the model; its signed overflow after 2^31 alarms is not modelled.
- `ServerReaderWriterHandler::FinishGuard` (include/ggrpc/server.h:587-596) is a private helper no code path uses, and it is not modelled.
- include/ggrpc/handler.h, include/ggrpc/ggrpc.h, the examples and the tests are not part of this model.
- The writer, reader and server-side call classes of the newer generation (`ClientWriter`, `ServerReaderWriterContext` and their kin) are not part of this model. Only their registry entries appear, through `Registry.Kind`.

## Findings

| source | as written | input that shows it | evidently intended | confidence | as-written member | corrected member |
|---|---|---|---|---|---|---|
| include/ggrpc/client.h:380 | `SetOnWrite` and `SetOnError` move the member into itself (line 396 too), so the callback passed in is dropped | `SetOnError(f)`, `Connect()`, then a failed connect: `OnError` never runs | store the argument, as the other four setters do | high (not executed) | ClientV1ReaderWriter.SelfMoveDropsCallbacks | ClientV1ReaderWriter.FixedSetterReportsConnectError |
| include/ggrpc/client.h:485-487 | `Write`/`WritesDone` on an IDLE stream issue the operation without queueing the request (also lines 502-504); the write completion then does `front()`/`pop_front()` (lines 655, 662) | an IDLE stream, `Write(1)`, `Write(2)`, one write completion: request 2 is reported as written and never sent; with a single `Write(1)` the completion reads an empty deque | push the request onto the queue before sending it, so the in-flight request is always the front | high (not executed) | ClientV1ReaderWriter.IdleWriteLosesQueuedWrite | ClientV1ReaderWriter.IdleWriteFixedKeepsOrder |
| include/ggrpc/impl/client/client_reader.h:214-218 | a connect completion that finds the call CANCELING calls `Done` and returns, with nothing issued and the status still CANCELING (same at include/ggrpc/client.h:547-551) | `Connect()`, `Release()`, then the connect completion: the call is released, owed nothing, and never deleted | finish the call (FINISHED) so `Done` and `SafeDeleter` can run | high (not executed) | ClientReaderImpl.CancelDuringConnectLeaks | ClientReaderImpl.CancelDuringConnectFixedFinishes |
| include/ggrpc/client.h:547-551 | the older stream's connect completion on a CANCELING stream leaves both sides CANCELING with nothing owed | `Connect()`, `Release()`, then the connect completion | finish both sides | high (not executed) | ClientV1ReaderWriter.CancelDuringConnectLeaks | ClientV1ReaderWriter.CancelDuringConnectFixedFinishes |
| include/ggrpc/impl/client/client_reader.h:161-176 | `DoClose` maps every non-active status, CANCELING included, to FINISHED | `Connect()`, `Close()`, `Close()`, `Release()`: the reader is deleted while the connect completion is still owed, which then runs on freed memory | leave a CANCELING call waiting for its completion (Close idempotent) | high (not executed) | ClientReaderImpl.DoubleCloseDeletesPendingCall | ClientReaderImpl.DoubleCloseFixedWaits |
| include/ggrpc/client.h:428-453 | the older stream's `DoClose` also maps CANCELING to FINISHED on each side | `Connect()`, `Close()`, `Close()`, `Release()` | leave a CANCELING side waiting | high (not executed) | ClientV1ReaderWriter.DoubleCloseDeletesPendingCall | ClientV1ReaderWriter.DoubleCloseFixedWaits |
| include/ggrpc/impl/client/client_manager.h:165-168 | `Shutdown` joins `th.thread` for every queue, also when `Start` never spawned it (the destructor always calls `Shutdown`) | construct a `ClientManager(1)` and destroy it without `Start`: `th.thread->join()` through an empty `std::unique_ptr` | join only the threads that exist | high (not executed) | ClientManagerImpl.DestroyUnstartedFaults | ClientManagerImpl.FixedNeverFaults |
