/**
 * The light Redis monitor: a class whose fields are the monitor's state, with one
 * method per event it reacts to (start, connect, the periodic tasks, ping replies
 * and timeouts, stop). Store replies and probe replies are inputs.
 */
module RedisMonitor {
  import opened Common
  import opened Keys
  import opened StoreModel
  import opened Membership
  import opened Commands
  import ReplicationInfo
  import opened Lifecycle

  /** The hosting application, as far as the monitor touches it. */
  class App {
    const env: string
    /** The record `getCurServer()` returns; the monitor refreshes its pid. */
    var curServer: ServerRecord
    /** The snapshot last handed to `replaceServers`. */
    var servers: Snapshot

    constructor (env: string, cur: ServerRecord)
      ensures this.env == env && curServer == cur && servers == map[]
    {
      this.env := env;
      curServer := cur;
      servers := map[];
    }
  }

  /** A replica's answer to a master probe, in arrival order. */
  datatype ProbeReply = InfoReply(node: nat, info: string) | ConnectError(node: nat)

  predicate IsMasterReply(r: ProbeReply)
  {
    r.InfoReply? && ReplicationInfo.IsMaster(r.info)
  }

  /** The master verdict of every reply of a round of probes. */
  function Verdicts(replies: seq<ProbeReply>): (vs: seq<bool>)
    ensures |vs| == |replies|
  {
    seq(|replies|, i requires 0 <= i < |replies| => IsMasterReply(replies[i]))
  }

  /** The replication-info parse of each probe reply. */
  method ParseReplies(replies: seq<ProbeReply>) returns (vs: seq<bool>)
    ensures vs == Verdicts(replies)
  {
    vs := [];
    for n := 0 to |replies|
      invariant vs == Verdicts(replies[..n])
    {
      var master := false;
      if replies[n].InfoReply? {
        master := ReplicationInfo.IsMasterInfo(replies[n].info);
      }
      assert Verdicts(replies[..n + 1]) == Verdicts(replies[..n]) + [master];
      vs := vs + [master];
    }
    assert replies[..|replies|] == replies;
  }

  /** The first loop of `_getClusterInfo`: walking the live ids from the last to the
      first, keep the cached record of every cached id and collect the record key of
      every other id. */
  method CollectCached(res: seq<string>, last: Snapshot, p: Prefixes, env: string)
    returns (results: Snapshot, missing: seq<string>)
    ensures results == Cached(res, last)
    ensures missing == KeysOf(p, env, MissingIds(res, last))
  {
    results := map[];
    missing := [];
    var i := |res| - 1;
    while i >= 0
      invariant -1 <= i < |res|
      invariant results == Cached(res[i + 1..], last)
      invariant missing == KeysOf(p, env, MissingIds(res[i + 1..], last))
    {
      assert res[i..][1..] == res[i + 1..];
      CachedStep(res[i..], last);
      MissingStep(res[i..], last, p, env);
      var serverId := res[i];
      if serverId in last {
        results := results[serverId := last[serverId]];
      } else {
        missing := missing + [RegServerKey(p, env, serverId)];
      }
      i := i - 1;
    }
    assert res[0..] == res;
  }

  /** The second loop of `_getClusterInfo`: walking the fetched values from the last to
      the first, add the parsed record of every present value under its own id. */
  method MergeReplies(acc: Snapshot, vals: seq<Option<string>>, parse: string -> ServerRecord)
    returns (results: Snapshot)
    ensures results == Merged(acc, vals, parse)
  {
    results := acc;
    var j := |vals| - 1;
    while j >= 0
      invariant -1 <= j < |vals|
      invariant results == Merged(acc, vals[j + 1..], parse)
    {
      assert vals[j..][1..] == vals[j + 1..];
      if vals[j].Some? && vals[j].value != "" {
        var server := parse(vals[j].value);
        results := results[server.id := server];
      }
      j := j - 1;
    }
    assert vals[0..] == vals;
  }

  class Monitor {
    const app: App
    const store: Store
    const config: Config
    const prefixes: Prefixes

    /** The membership snapshot of the last successful discovery cycle. */
    var lastResults: Snapshot
    var started: bool
    /** The store connection made by the last start (connections are numbered). */
    var client: Option<nat>
    var connections: nat
    var openClients: set<nat>
    /** The armed intervals, by handle. */
    var armed: map<nat, Task>
    var nextHandle: nat
    var timer: Option<nat>
    var updateInfoTimer: Option<nat>
    var pingtimer: Option<nat>
    /** The replica connection bound as master. */
    var pingRedis: Option<nat>
    var replicaOpen: set<nat>
    var nextConn: nat
    /** The payloads handed to the command executor, in order. */
    var dispatched: seq<string>

    /** The lifecycle part of the state. */
    function View(): Life
      reads this
    {
      Life(started, client, connections, openClients, armed, nextHandle,
           timer, updateInfoTimer, pingtimer, pingRedis, replicaOpen, nextConn)
    }

    ghost predicate Valid()
      reads this
    {
      Sane(View())
    }

    constructor (app: App, store: Store, opts: Options, defaults: Defaults, prefixes: Prefixes)
      ensures Valid() && View() == Initial()
      ensures this.app == app && this.store == store && this.prefixes == prefixes
      ensures config == Configure(opts, defaults)
      ensures lastResults == map[] && dispatched == []
    {
      this.app := app;
      this.store := store;
      this.prefixes := prefixes;
      config := Configure(opts, defaults);
      lastResults := map[];
      started := false;
      client := None;
      connections := 0;
      openClients := {};
      armed := map[];
      nextHandle := 0;
      timer, updateInfoTimer, pingtimer := None, None, None;
      pingRedis := None;
      replicaOpen := {};
      nextConn := 0;
      dispatched := [];
    }

    // -------------------------------------------------------------------------
    // Timers, connections and the lifecycle events

    /** setInterval: arm a task under the next handle. */
    method SetInterval(t: Task) returns (h: nat)
      modifies this`armed, this`nextHandle
      ensures h == old(nextHandle)
      ensures View() == Arm(old(View()), t)
    {
      h := nextHandle;
      armed := armed[h := t];
      nextHandle := nextHandle + 1;
    }

    /** clearInterval: disarm a handle; a null handle is ignored. */
    method ClearInterval(h: Option<nat>)
      modifies this`armed
      ensures View() == Disarm(old(View()), h)
    {
      if h.Some? {
        armed := armed - {h.value};
      }
    }

    /** `start`. */
    method Start()
      requires Valid()
      modifies this`started, this`client, this`connections, this`openClients
      ensures Valid()
      ensures View() == Started(old(View()))
    {
      started := false;
      client := Some(connections);
      openClients := openClients + {connections};
      connections := connections + 1;
    }

    /** `_clearPingTimer`. */
    method ClearPingTimer()
      requires Valid()
      modifies this`armed, this`replicaOpen, this`pingtimer
      ensures Valid()
      ensures View() == PingCleared(old(View()))
    {
      ClearInterval(pingtimer);
      if pingRedis.Some? {
        replicaOpen := replicaOpen - {pingRedis.value};
        pingtimer := None;
      }
    }

    /** One probe reply, once its verdict is known. */
    method BindProbe(master: bool)
      modifies this`armed, this`nextHandle, this`pingRedis, this`pingtimer, this`replicaOpen, this`nextConn
      ensures View() == Bound(old(View()), master)
    {
      var conn := nextConn;
      if master {
        var h := SetInterval(PingTick(conn));
        pingRedis := Some(conn);
        pingtimer := Some(h);
        replicaOpen := replicaOpen + {conn};
      }
      nextConn := conn + 1;
    }

    /** `_getMaster`, with the probe replies folded in arrival order: each reply is parsed
        (a connection error counts as not master), then bound or closed. */
    method GetMaster(replies: seq<ProbeReply>)
      requires Valid()
      modifies this`armed, this`nextHandle, this`pingRedis, this`pingtimer, this`replicaOpen, this`nextConn
      ensures Valid()
      ensures View() == Probed(old(View()), Verdicts(replies))
    {
      var vs := ParseReplies(replies);
      ghost var l0 := View();
      for n := 0 to |vs|
        invariant View() == Probed(l0, vs[..n])
      {
        assert vs[..n + 1][..n] == vs[..n];
        assert Probed(l0, vs[..n + 1]) == Bound(Probed(l0, vs[..n]), vs[n]);
        BindProbe(vs[n]);
      }
      assert vs[..|vs|] == vs;
      assert Sane(l0);
    }

    /** The `connect` handler. */
    method OnConnect(replies: seq<ProbeReply>) returns (calledBack: bool)
      requires Valid()
      modifies this`started, this`armed, this`nextHandle, this`timer, this`updateInfoTimer,
               this`pingRedis, this`pingtimer, this`replicaOpen, this`nextConn
      ensures Valid()
      ensures calledBack == CallsBack(old(View()))
      ensures View() == Connected(old(View()), config.mode, Verdicts(replies))
    {
      ghost var l0 := View();
      if config.mode == "multiple" {
        ClearPingTimer();
        GetMaster(replies);
      }
      assert View() == if config.mode == "multiple" then Probed(PingCleared(l0), Verdicts(replies)) else l0;
      calledBack := false;
      if !started {
        ArmTasks();
        calledBack := true;
      }
    }

    /** The first-connect branch of the `connect` handler. */
    method ArmTasks()
      modifies this`started, this`armed, this`nextHandle, this`timer, this`updateInfoTimer
      ensures View() == TasksArmed(old(View()))
    {
      var u := SetInterval(UpdateInfoTick);
      updateInfoTimer := Some(u);
      var t := SetInterval(ClusterTick);
      timer := Some(t);
      started := true;
    }

    /** One tick of the ping interval `h`, with whether the replica answered in time. */
    method PingRound(h: nat, replied: bool) returns (restarted: bool)
      requires Valid()
      requires h in armed && armed[h].PingTick?
      modifies this`armed, this`replicaOpen, this`pingtimer, this`started, this`client,
               this`connections, this`openClients
      ensures Valid()
      ensures restarted == Restarts(old(View()), replied)
      ensures View() == Lifecycle.PingRound(old(View()), h, replied)
    {
      restarted := false;
      if !replied {
        var conn := armed[h].conn;
        ClearInterval(pingtimer);
        if pingtimer.Some? {
          replicaOpen := replicaOpen - {conn};
          pingtimer := None;
          if client.Some? {
            openClients := openClients - {client.value};
          }
          Start();
          restarted := true;
        }
      }
    }

    /** `stop`. */
    method Stop()
      requires Valid()
      requires client.Some?
      modifies this`openClients, this`replicaOpen, this`armed
      ensures Valid()
      ensures View() == Stopped(old(View()))
    {
      openClients := openClients - {client.value};
      if pingRedis.Some? {
        replicaOpen := replicaOpen - {pingRedis.value};
      }
      ClearInterval(timer);
    }

    // -------------------------------------------------------------------------
    // The periodic tasks

    /** `_updateServerInfo`: refresh the pid and write the own record, with the configured
        expiry, under its registration-record key. */
    method UpdateServerInfo(pid: int, fails: bool, stringify: ServerRecord -> string) returns (ok: bool)
      modifies app`curServer, store
      ensures app.curServer == old(app.curServer).(pid := pid)
      ensures ok == !fails
      ensures var key := RegServerKey(prefixes, app.env, app.curServer.id);
        && store.kv == (if ok then old(store.kv)[key := stringify(app.curServer)] else old(store.kv))
        && store.ttl == (if ok then old(store.ttl)[key := config.updateInfoExpire] else old(store.ttl))
      ensures store.zsets == old(store.zsets)
    {
      var key := RegServerKey(prefixes, app.env, app.curServer.id);
      app.curServer := app.curServer.(pid := pid);
      ok := store.SetEx(key, config.updateInfoExpire, stringify(app.curServer), fails);
    }

    /** `_getClusterInfo`: refresh the own lease, then reconcile the live ids of the range
        query with the cached snapshot, fetch the missing records and publish the result.
        A failed lease add, range query or multi-get publishes nothing. */
    method GetClusterInfo(now: int, pid: int, zaddFails: bool, range: Option<seq<string>>,
                          mgetFails: bool, parse: string -> ServerRecord) returns (published: bool)
      modifies this`lastResults, app`curServer, app`servers, store
      ensures app.curServer == old(app.curServer).(pid := pid)
      ensures store.kv == old(store.kv) && store.ttl == old(store.ttl)
      ensures var key := LeaseSetKey(prefixes, app.env);
        store.zsets == if zaddFails then old(store.zsets)
                       else old(store.zsets)[key := Members(old(store.zsets), key)[app.curServer.id := now + config.expire]]
      ensures published <==>
        !zaddFails && range.Some? && (MissingIds(range.value, old(lastResults)) == [] || !mgetFails)
      ensures published ==>
        lastResults == Reconciled(old(lastResults), range.value, old(store.kv), prefixes, app.env,
                                  config.maxServerInfoBatch, parse) &&
        app.servers == lastResults
      ensures !published ==> lastResults == old(lastResults) && app.servers == old(app.servers)
    {
      published := false;
      var key := LeaseSetKey(prefixes, app.env);
      app.curServer := app.curServer.(pid := pid);
      var ok := store.ZAdd(key, now + config.expire, app.curServer.id, zaddFails);
      if !ok || range.None? {
        return;
      }
      var results, missing := CollectCached(range.value, lastResults, prefixes, app.env);
      if |missing| > 0 {
        if config.maxServerInfoBatch != 0 {
          missing := Slice0(missing, config.maxServerInfoBatch);
        }
        var reply := store.MGet(missing, mgetFails);
        if reply.None? {
          return;
        }
        assert reply.value == Lookups(store.kv, missing);
        results := MergeReplies(results, reply.value, parse);
      }
      lastResults := results;
      app.servers := results;
      published := true;
    }

    /** `_getCommand`: one poll of the own command slot. */
    method GetCommand(getFails: bool, delFails: bool) returns (payload: Option<string>)
      modifies store, this`dispatched
      ensures var r := Poll(old(store.kv), CommandKey(prefixes, app.env, app.curServer.id), getFails, delFails);
        && store.kv == r.kv
        && payload == r.dispatched
        && dispatched == old(dispatched) + (if r.dispatched.Some? then [r.dispatched.value] else [])
        && store.ttl == (if r.dispatched.Some? then old(store.ttl) - {CommandKey(prefixes, app.env, app.curServer.id)}
                         else old(store.ttl))
      ensures store.zsets == old(store.zsets)
    {
      payload := None;
      var key := CommandKey(prefixes, app.env, app.curServer.id);
      var reply := store.Get(key, getFails);
      if reply.None? {
        return;
      }
      if reply.value.Some? && reply.value.value != "" {
        var ok := store.Del(key, delFails);
        if ok {
          payload := reply.value;
          dispatched := dispatched + [reply.value.value];
        }
      }
    }

    /** `sendCommandResult`: write a command's result under the own result key. */
    method SendCommandResult(result: string, kind: string, fails: bool) returns (ok: bool)
      modifies store
      ensures ok == !fails
      ensures store.kv == if ok then old(store.kv)[ResultKey(prefixes, app.env, app.curServer.id, kind) := result]
                          else old(store.kv)
      ensures store.ttl == if ok then old(store.ttl) - {ResultKey(prefixes, app.env, app.curServer.id, kind)}
                           else old(store.ttl)
      ensures store.zsets == old(store.zsets)
    {
      ok := store.Set(ResultKey(prefixes, app.env, app.curServer.id, kind), result, fails);
    }
  }
}
