# Redis registry monitor and filter service, in Dafny

This project models two parts of a game-server framework:
- the light Redis monitor that registers a server in a shared Redis store, discovers its peers and picks up commands addressed to it, and, when Redis runs as several replicas, finds the master and pings it, restarting itself when a ping times out;
- the filter service that runs the before- and after-filter chains around a request.

The monitor is a class whose fields are the monitor's own state (`started`, the store connection, the interval handles, `pingRedis`, `pingtimer`, `lastResults`). Each event it reacts to is a method: start, the `connect` handler, `_getMaster`, one ping tick, `stop`, and the periodic registration, discovery and command tasks. The lifecycle part of the state (connections, armed intervals, the master binding) has a value form, `Lifecycle.Life`. Every lifecycle method is proved to move that value exactly as a pure event function does (`Started`, `Connected`, `Probed`, `PingRound`, `Stopped`), and the lifecycle's properties are lemmas about those functions. The store is a class holding the key/value map, the TTLs and the sorted sets. Every store call takes a flag saying whether it fails. The discovery cycle is proved to publish `Membership.Reconciled`, a function of the cached snapshot, the range result and the store. Its contents are characterized by lemmas.

The filter service is a class holding the two filter lists. Each chain runner is a loop over the chain's index counter, proved equal to a recursive definition of the chain (`BeforeFrom`, `AfterFrom`). A filter's reaction to being invoked is part of the filter value: a function, an object with or without the hook, or null.

Behaviour of the code worth knowing:
- A ping timeout disarms only the ping interval before starting again. The registration and discovery intervals of the previous start stay armed, and the new start arms another pair (`Lifecycle.RestartLeavesOldIntervalsArmed`). `stop` disarms only the discovery interval (`Lifecycle.StopLeavesOtherIntervals`). There is no restart generation counter.
- The batch cap keeps the ids of the last uncached entries of the range result, not the oldest (`Membership.BatchFetchesLatest`). The missing list is built walking the range result backwards.
- When no registration TTL is configured it is three times the default refresh period, whatever refresh period is configured (`Keys.ExpireIgnoresConfiguredPeriod`).
- Master probing happens only when `mode` is exactly `multiple`.

## Model

| member | source | states |
|---|---|---|
| Keys.RegServerKeyRoundTrip | lib/monitors/redismonitorlight.js:156-157 | decoding a registration-record key gives back the server id it was built from |
| Keys.RegServerKeyDecodes | lib/monitors/redismonitorlight.js:156-157 | a key that decodes to an id is exactly that id's registration-record key |
| Keys.RegServerKeyInjective | lib/monitors/redismonitorlight.js:195-196 | two servers of one environment never share a registration record |
| Keys.CommandKeyIsNotLeaseSetKey | lib/monitors/redismonitorlight.js:209-211 | a server's command slot never coincides with the environment's lease set key |
| Keys.LeaseSetKey | lib/monitors/redismonitorlight.js:129 | the lease set key is the registry prefix followed by the environment |
| Keys.RegServerKey | lib/monitors/redismonitorlight.js:156-157 | a registration-record key starts with the server prefix and ends with `:` and the server id |
| Keys.CommandKey | lib/monitors/redismonitorlight.js:210-211 | a command slot key is the environment's lease set key followed by `:` and the server id |
| Keys.ResultKey | lib/monitors/redismonitorlight.js:103-108 | a result key starts with the result prefix and ends with the server id, or with `:` and the type when a type is given |
| Keys.ResultKeysDistinct | lib/monitors/redismonitorlight.js:101-109 | one server's results of two different types, or of a type and of no type, are stored under different keys |
| Keys.Configure | lib/monitors/redismonitorlight.js:17-32 | each option keeps a truthy given value and otherwise takes its default; mode defaults to `single`, name and password to null, a given name or password is kept as given, the batch size is copied unchanged |
| Keys.ConfigureIdempotent | lib/monitors/redismonitorlight.js:17-30 | feeding a configuration back through the defaulting changes nothing |
| Keys.ExpireIgnoresConfiguredPeriod | lib/monitors/redismonitorlight.js:23-27 | with a configured period different from the default and no expiry, the registration TTL is not three times the configured period |
| ReplicationInfo.Split | lib/monitors/redismonitorlight.js:257 | splitting on a separator always yields at least one part, the first being a prefix of the text |
| ReplicationInfo.SplitPartsFree | lib/monitors/redismonitorlight.js:257 | no part of a split contains the separator |
| ReplicationInfo.SplitJoin | lib/monitors/redismonitorlight.js:257 | joining the parts of a split with the separator gives back the original text |
| ReplicationInfo.SplitOnChar | lib/monitors/redismonitorlight.js:259 | splitting on one character yields the text before its first occurrence, then the split of the text after it; text without it splits into itself |
| ReplicationInfo.LineFields | lib/monitors/redismonitorlight.js:259-262 | a line without a colon defines nothing; otherwise its key is the text before the first colon and its value the text up to the next colon, kept only if non-empty |
| ReplicationInfo.FieldOf | lib/monitors/redismonitorlight.js:259-262 | a line contributes a field only with a non-empty value |
| ReplicationInfo.InfoMap | lib/monitors/redismonitorlight.js:258-263 | every value of the folded object is non-empty |
| ReplicationInfo.Parse | lib/monitors/redismonitorlight.js:256-263 | every value of the parsed reply is non-empty |
| ReplicationInfo.IsMasterByLastRoleLine | lib/monitors/redismonitorlight.js:256-265 | a reply is a master's iff the last line that defines `role` gives it the value `master` |
| ReplicationInfo.InfoMapHas | lib/monitors/redismonitorlight.js:256-263 | a key is in the parsed object iff some line defines it |
| ReplicationInfo.InfoMapLast | lib/monitors/redismonitorlight.js:258-263 | when several lines define a key, the last one's value is kept |
| ReplicationInfo.ParseInfo | lib/monitors/redismonitorlight.js:256-263 | the loop over the lines builds the parsed object, and its `role` is `master` iff the reply is a master's |
| ReplicationInfo.IsMasterInfo | lib/monitors/redismonitorlight.js:265 | the verdict is true iff the parsed `role` is `master` |
| Membership.Cached | lib/monitors/redismonitorlight.js:146-159 | the cached part of the new snapshot holds exactly the live ids that had a record, each with its old record |
| Membership.MissingIds | lib/monitors/redismonitorlight.js:148-159 | the missing list is no longer than the range result and holds only live ids without a cached record |
| Membership.Merged | lib/monitors/redismonitorlight.js:173-179 | merging keeps every id already present and adds at most one id per fetched value |
| Membership.Reconciled | lib/monitors/redismonitorlight.js:127-192 | every live id that had a cached record is in the published snapshot |
| Membership.FetchedKeys | lib/monitors/redismonitorlight.js:161-167 | the keys fetched are the registration keys of a prefix of the missing list, in its order; all of it when no batch size is set |
| Membership.SelfKeyedWrite | lib/monitors/redismonitorlight.js:194-200 | a registration write whose serialized record parses back to its own id keeps every stored record under its own id's key |
| Membership.Slice0 | lib/monitors/redismonitorlight.js:164 | `slice(0, end)` is a prefix; its length is `end` when in range, the whole list beyond it, and `length + end` (at least 0) for a negative end |
| Membership.Batch | lib/monitors/redismonitorlight.js:163-165 | the batch is a prefix of the missing list, and the whole list when no batch size is set |
| Membership.MissingIdsExact | lib/monitors/redismonitorlight.js:148-159 | an id is missing iff it is live and has no cached record |
| Membership.MissingIsReversed | lib/monitors/redismonitorlight.js:148-159 | the missing list is the uncached live ids in reverse range-result order |
| Membership.BatchFetchesLatest | lib/monitors/redismonitorlight.js:161-165 | with a batch size n the cycle fetches the keys of the last n uncached live ids, newest first; without one, all of them |
| Membership.BatchBound | lib/monitors/redismonitorlight.js:163-165 | with a positive batch size, the number fetched is the smaller of that size and the number missing |
| Membership.MergedHas | lib/monitors/redismonitorlight.js:173-179 | after the merge an id is present iff it was cached or some truthy fetched value carries it |
| Membership.MergedFirstWins | lib/monitors/redismonitorlight.js:174-178 | when several fetched values carry one id, the one at the lowest index wins |
| Membership.MergedKeepsAcc | lib/monitors/redismonitorlight.js:174-178 | an id no fetched value carries keeps its cached record |
| Membership.FetchedKeyId | lib/monitors/redismonitorlight.js:146-165 | every fetched key is the registration key of a live id that had no cached record |
| Membership.ReconciledContents | lib/monitors/redismonitorlight.js:127-192 | when records carry their own ids, the published snapshot holds exactly the cached live ids and the fetched ids with truthy records; cached ids keep their record, fetched ids get the stored record, dead ids are dropped |
| Commands.Poll | lib/monitors/redismonitorlight.js:213-229 | a command is dispatched iff the get succeeds, the slot holds a truthy value and the delete succeeds; the payload is the slot's value and the slot is removed only then |
| Commands.PollTwiceDispatchesAtMostOnce | lib/monitors/redismonitorlight.js:219-227 | two polls of the same slot dispatch one stored command at most once |
| Commands.PollAbsentIsNoOp | lib/monitors/redismonitorlight.js:213-219 | polling an empty slot changes nothing and dispatches nothing |
| Lifecycle.Initial | lib/monitors/redismonitorlight.js:12-33 | a constructed monitor is not started and has no intervals armed |
| Lifecycle.Started | lib/monitors/redismonitorlight.js:35-48 | start keeps the handle invariant, opens the next connection (not already open) as the store client, and leaves the monitor not yet started |
| Lifecycle.PingCleared | lib/monitors/redismonitorlight.js:312-322 | clearing the ping timer keeps the handle invariant |
| Lifecycle.Bound | lib/monitors/redismonitorlight.js:265-275 | binding one probe reply keeps the handle invariant |
| Lifecycle.Probed | lib/monitors/redismonitorlight.js:240-284 | a round of probe replies keeps the handle invariant |
| Lifecycle.Connected | lib/monitors/redismonitorlight.js:49-75 | the connect handler keeps the handle invariant |
| Lifecycle.TasksArmed | lib/monitors/redismonitorlight.js:66-72 | arming the registration and discovery intervals keeps the handle invariant and leaves the monitor started |
| Lifecycle.PingRound | lib/monitors/redismonitorlight.js:287-310 | a ping tick keeps the handle invariant |
| Lifecycle.Stopped | lib/monitors/redismonitorlight.js:91-97 | stop keeps the handle invariant |
| Lifecycle.LastMaster | lib/monitors/redismonitorlight.js:265-267 | the bound reply is a master reply and no later reply of the round is one; without one, no reply was a master |
| Lifecycle.MasterConns | lib/monitors/redismonitorlight.js:265-275 | a connection is kept open iff it belongs to the round and its reply is a master reply |
| Lifecycle.MasterCount | lib/monitors/redismonitorlight.js:265-271 | the number of master replies is zero iff no reply bound a master |
| Lifecycle.CallsBack | lib/monitors/redismonitorlight.js:66-74 | the start callback is answered only on a connect that marks the monitor started, so later connects do not answer it again |
| Lifecycle.Restarts | lib/monitors/redismonitorlight.js:288-299 | a ping tick restarts only on a timeout, and it restarts iff it opens a new store connection |
| Lifecycle.PingClearedEffect | lib/monitors/redismonitorlight.js:312-322 | clearing disarms only the ping interval; with a bound master it closes that connection and nulls `pingtimer`, without one it closes nothing; nothing else changes |
| Lifecycle.SingleModeNoProbe | lib/monitors/redismonitorlight.js:61-65 | outside `multiple` mode a connect leaves the master binding, `pingtimer` and the replica connections untouched |
| Lifecycle.ProbedCounts | lib/monitors/redismonitorlight.js:240-284 | a round opens one connection per reply, keeps exactly the master connections open and arms one ping interval per master reply |
| Lifecycle.ProbedKeepsLifecycle | lib/monitors/redismonitorlight.js:232-285 | probing changes nothing outside the master binding |
| Lifecycle.ProbedBindsLastMaster | lib/monitors/redismonitorlight.js:265-271 | the last master reply to arrive is bound and `pingtimer` names the newest ping interval, which pings it; with no master reply the binding and intervals are unchanged |
| Lifecycle.ProbedKeepsArmed | lib/monitors/redismonitorlight.js:265-271 | probing never disarms an interval, and every interval it arms is a ping interval |
| Lifecycle.SecondMasterWins | lib/monitors/redismonitorlight.js:265-271 | with two master replies the second is bound and both ping intervals stay armed |
| Lifecycle.FirstConnectArms | lib/monitors/redismonitorlight.js:67-74 | the first connect after a start arms one registration and one discovery interval under fresh handles and answers the start callback |
| Lifecycle.ReconnectArmsNoTask | lib/monitors/redismonitorlight.js:61-74 | a later connect answers no callback and arms nothing but ping intervals |
| Lifecycle.ConnectKeepsOtherIntervals | lib/monitors/redismonitorlight.js:61-74 | connecting disarms nothing but the previous ping interval |
| Lifecycle.PingReplyCancelsTimeout | lib/monitors/redismonitorlight.js:302-303 | any ping reply, even an error, leaves the state unchanged and restarts nothing |
| Lifecycle.TimeoutRestartsOnce | lib/monitors/redismonitorlight.js:288-299 | a timeout restarts iff `pingtimer` was set, closing the old store connection and opening a new one; `pingtimer` is then null, so a timeout of any ping interval still armed restarts nothing and opens no connection |
| Lifecycle.RestartLeavesOldIntervalsArmed | lib/monitors/redismonitorlight.js:288-299 | after a timeout restart and the reconnect, the old discovery interval is still armed beside a new one |
| Lifecycle.StopLeavesOtherIntervals | lib/monitors/redismonitorlight.js:91-97 | stop closes the store connection and the bound master connection and disarms the discovery interval only: every other armed interval, the registration and ping intervals included, stays armed |
| StoreModel.Store.SetEx | lib/monitors/redismonitorlight.js:198-200 | unless the write fails, stores the value with its TTL; the sorted sets are untouched |
| StoreModel.Store.Set | lib/monitors/redismonitorlight.js:111 | unless the write fails, stores the value and clears any TTL on the key |
| StoreModel.Store.Get | lib/monitors/redismonitorlight.js:213 | fails iff the request fails; otherwise the stored value, or none for a missing key |
| StoreModel.Store.Del | lib/monitors/redismonitorlight.js:221 | unless the request fails, removes the key and its TTL |
| StoreModel.Store.MGet | lib/monitors/redismonitorlight.js:167 | fails iff the request fails; otherwise one value per key, in order |
| StoreModel.Store.ZAdd | lib/monitors/redismonitorlight.js:130-133 | unless the request fails, sets the member's score in the sorted set; the plain keys are untouched |
| RedisMonitor.Monitor.SetInterval | lib/monitors/redismonitorlight.js:69-72 | arms the given periodic job under the next handle and returns that handle |
| RedisMonitor.Monitor.ClearInterval | lib/monitors/redismonitorlight.js:96 | disarms the given handle, if any; nothing else changes |
| RedisMonitor.ParseReplies | lib/monitors/redismonitorlight.js:249-263 | each probe reply's verdict is the master test of its replication info; a connection error is not a master |
| RedisMonitor.CollectCached | lib/monitors/redismonitorlight.js:146-159 | the first discovery loop yields the cached records of the live ids and the keys of the missing ones |
| RedisMonitor.MergeReplies | lib/monitors/redismonitorlight.js:173-179 | the second discovery loop yields the merge of the fetched values into the cached records |
| RedisMonitor.Monitor.constructor | lib/monitors/redismonitorlight.js:12-33 | the configuration is the defaulted options; the snapshot is empty; the lifecycle is the initial one |
| RedisMonitor.Monitor.Start | lib/monitors/redismonitorlight.js:35-48 | moves the lifecycle as `Started` does and keeps the handle invariant |
| RedisMonitor.Monitor.ClearPingTimer | lib/monitors/redismonitorlight.js:312-322 | moves the lifecycle as `PingCleared` does |
| RedisMonitor.Monitor.BindProbe | lib/monitors/redismonitorlight.js:265-275 | moves the lifecycle as `Bound` does |
| RedisMonitor.Monitor.GetMaster | lib/monitors/redismonitorlight.js:232-285 | moves the lifecycle as `Probed` does over the replies' verdicts |
| RedisMonitor.Monitor.ArmTasks | lib/monitors/redismonitorlight.js:66-72 | moves the lifecycle as `TasksArmed` does |
| RedisMonitor.Monitor.OnConnect | lib/monitors/redismonitorlight.js:49-75 | moves the lifecycle as `Connected` does and answers the callback iff not yet started |
| RedisMonitor.Monitor.PingRound | lib/monitors/redismonitorlight.js:287-310 | moves the lifecycle as `Lifecycle.PingRound` does and restarts iff no reply came and `pingtimer` was set |
| RedisMonitor.Monitor.Stop | lib/monitors/redismonitorlight.js:91-97 | moves the lifecycle as `Stopped` does |
| RedisMonitor.Monitor.UpdateServerInfo | lib/monitors/redismonitorlight.js:194-207 | refreshes the pid and, unless the write fails, stores the serialized record under its registration key with the configured TTL |
| RedisMonitor.Monitor.GetClusterInfo | lib/monitors/redismonitorlight.js:127-192 | refreshes the own lease to `now + expire`; publishes iff the lease add and the range query succeed and nothing is missing or the multi-get succeeds; what it publishes, to the snapshot and to the application, is `Reconciled` |
| RedisMonitor.Monitor.GetCommand | lib/monitors/redismonitorlight.js:209-230 | one poll of the own command slot, as `Poll`; a dispatched payload is appended to the executor's log |
| RedisMonitor.Monitor.SendCommandResult | lib/monitors/redismonitorlight.js:99-116 | unless the write fails, stores the result under the own result key and clears that key's TTL; the sorted sets are untouched |
| FilterService.BeforeHook | lib/common/service/filterService.js:62-69 | a function filter is called itself, an object filter through its `before` member when it has one and is otherwise invalid, and a null filter throws |
| FilterService.AfterHook | lib/common/service/filterService.js:100-107 | a function filter is called itself, an object filter through its `after` member when it has one and is otherwise invalid, and a null filter throws |
| FilterService.BeforeFrom | lib/common/service/filterService.js:53-71 | the index counter only grows and stays within the chain, and the chain reaches its terminal step without error only after the last filter |
| FilterService.BeforeChain | lib/common/service/filterService.js:50-74 | the chain ends within the filter list; with no filters it finishes at once without error; a clean finish comes only after the last filter; a throw comes from a null filter and a stall from a filter that never calls `next` |
| FilterService.BeforeRunsAll | lib/common/service/filterService.js:55-65 | when every filter calls `next` without error, each runs exactly once and the chain ends without error |
| FilterService.BeforeStopsAtFirstFailure | lib/common/service/filterService.js:53-70 | the first filter that errs, never calls `next`, is invalid or null decides the outcome, and no later filter runs |
| FilterService.InvokeCallback | lib/common/service/filterService.js:56 | a callback is made, once, iff the first argument is a function |
| FilterService.AsWrittenBeforeCallbacks | lib/common/service/filterService.js:56 | as written, the terminal step calls nothing, whatever the outcome |
| FilterService.BeforeCallbacks | lib/common/service/filterService.js:55-57 | the intended terminal step calls the caller's callback once iff the chain finishes, with the last `(err, resp, opts)` |
| FilterService.AsWrittenNeverCallsBack | lib/common/service/filterService.js:56 | as written, no before-chain reaches the caller's callback |
| FilterService.EmptyBeforeChainLosesCallback | lib/common/service/filterService.js:53-57 | with no before-filters the chain finishes at once without error; as written the caller's callback is not called, while the intended terminal step calls it once |
| FilterService.BeforeCallsBackOnce | lib/common/service/filterService.js:53-57 | with the callback passed in its place, an accepted request calls it once without error and a rejected one calls it once with the rejecting error |
| FilterService.AfterFrom | lib/common/service/filterService.js:91-109 | the index counter only grows and stays within the chain; the callback is reached only after the last filter |
| FilterService.AfterChain | lib/common/service/filterService.js:88-112 | the chain ends within the filter list; with no filters the callback gets the given error; the callback is reached only after the last filter; a throw comes from a null filter |
| FilterService.AfterRunsAll | lib/common/service/filterService.js:91-111 | when every after-hook calls `next`, errors do not stop the chain: each filter runs once and the callback is reached |
| FilterService.AfterSuffix | lib/common/service/filterService.js:91-109 | running the second part of a chain alone matches running the whole chain from that filter on |
| FilterService.AfterPrefix | lib/common/service/filterService.js:91-109 | the first part of a chain decides the whole chain unless it reaches its end |
| FilterService.AfterCompose | lib/common/service/filterService.js:88-112 | the after-chain threads its error through: running two chains in turn is running their concatenation |
| FilterService.AfterCallbacks | lib/common/service/filterService.js:93-95 | the caller's callback is called exactly once iff the chain reaches its end, and then with the last error |
| FilterService.Pushed | lib/common/service/filterService.js:25-27 | each registration adds one before-filter |
| FilterService.Unshifted | lib/common/service/filterService.js:34-36 | each registration adds one after-filter |
| FilterService.PushedInOrder | lib/common/service/filterService.js:25-27 | before-filters run in registration order |
| FilterService.UnshiftedReverses | lib/common/service/filterService.js:34-36 | after-filters run in reverse registration order, ahead of those already registered |
| FilterService.AfterRunsNewestFirst | lib/common/service/filterService.js:34-36 | the k-th after-filter to run is the k-th most recently registered |
| FilterService.Service.constructor | lib/common/service/filterService.js:13-18 | both lists start empty and the service is named `filter` |
| FilterService.Service.Before | lib/common/service/filterService.js:25-27 | appends the filter to the before list |
| FilterService.Service.After | lib/common/service/filterService.js:34-36 | inserts the filter at the front of the after list |
| FilterService.Service.BeforeFilter | lib/common/service/filterService.js:50-74 | the loop ends with the index counter and outcome of `BeforeFrom`; the callbacks it makes are those of the terminal step as written, and a second output gives those the intended terminal step would make |
| FilterService.Service.AfterFilter | lib/common/service/filterService.js:88-112 | the loop ends with the index counter and outcome of `AfterFrom`, and calls the callback once iff the chain reaches its end |

## Left out

- RedisMonitor.Monitor.Stop and Lifecycle.Stopped: require a store connection. In the source, `stop` before any `start` throws on the missing client (line 92); that path is excluded rather than modelled.
- Connection setup is not modelled: the Redis and Sentinel constructor arguments, `redisNodes`, `redisOpts` and the `auth` call. The `error`, `close` and `end` handlers of the store connection only log, so they are left out too.
- RedisMonitor.Monitor.OnConnect: does not itself run the first registration and discovery (lines 58-59). Those are `UpdateServerInfo`, `GetClusterInfo` and `GetCommand`, run as separate calls.
- Clock reads, `process.pid` and the result of the range query are parameters. The lease expiry by score and the store's TTL expiry are therefore not modelled.
- `JSON.parse` and `JSON.stringify` are parameters. A malformed record that makes `JSON.parse` throw is not modelled.
- The command executor is not part of this model. Dispatched payloads are recorded in order.
- Asynchrony: each store reply is taken to arrive before the next event. Interleavings of a discovery cycle with other ticks are not modelled.
- Master probing: a replication-info request that fails leads the source to read `info` of an undefined reply and throw. That path is not modelled; a probe reply is either an info text or a connection error. An error on an already bound master connection is not modelled.
- RedisMonitor.Monitor.PingRound: closes the current store connection. The source closes the one that was current when the probing ran; the two differ only if another restart happened in between.
- Membership.ReconciledContents: states the cached-record and fetched-record contents only when every registration record carries the id it is stored under. Without that, `Membership.MergedHas` still states which ids are present. `Membership.SelfKeyedWrite` shows that the monitor's own registration writes keep that assumption whenever the record's serialization parses back to its id.
- Object keys with special meaning in JavaScript (`__proto__`) are treated as ordinary ids.
- Numbers are unbounded integers. The `3.0 *` default is integer multiplication, and the default periods are whole milliseconds.
- `utils.invokeCallback` is not part of this model. It is taken to call its first argument with the rest when that argument is a function.
- Filters: a filter that calls `next` more than once is not modelled. The request, session and response a filter sees are fixed for one run, so each filter's reaction is part of the filter value. An error value that is itself a function is not modelled.

## Findings

| source | as written | input that shows it | evidently intended | confidence | as-written member | corrected member |
|---|---|---|---|---|---|---|
| lib/common/service/filterService.js:56 | the terminal step calls `utils.invokeCallback(err, resp, opts)`, handing `err` where the callback belongs, so `cb` is never called | `beforeFilter` with no before-filters: the chain finishes at once and `cb` is never called (`FilterService.EmptyBeforeChainLosesCallback`) | `utils.invokeCallback(cb, err, resp, opts)`: the caller's callback is called once with the last `(err, resp, opts)` | high; not executed | FilterService.AsWrittenNeverCallsBack | FilterService.BeforeCallsBackOnce |
