/**
 * The monitor's lifecycle as a state machine over a value: the `started` flag, the
 * store connections, the armed intervals and the master binding, with one function
 * per event (start, connect, master probing, ping tick, stop).
 */
module Lifecycle {
  import opened Common

  /** What an armed interval runs. */
  datatype Task = UpdateInfoTick | ClusterTick | PingTick(conn: nat)

  /** The lifecycle state. Store connections and replica connections are numbered in
      the order they are opened; interval handles likewise. */
  datatype Life = Life(
    started: bool,
    client: Option<nat>,
    connections: nat,
    openClients: set<nat>,
    armed: map<nat, Task>,
    nextHandle: nat,
    timer: Option<nat>,
    updateInfoTimer: Option<nat>,
    pingtimer: Option<nat>,
    pingRedis: Option<nat>,
    replicaOpen: set<nat>,
    nextConn: nat)

  /** Handles and connection ids are issued fresh: every one in use is below its counter,
      and the three handle fields never share a handle. */
  ghost predicate Sane(l: Life)
  {
    && (forall h :: h in l.armed ==> h < l.nextHandle)
    && (l.timer.Some? ==> l.timer.value < l.nextHandle)
    && (l.updateInfoTimer.Some? ==> l.updateInfoTimer.value < l.nextHandle)
    && (l.pingtimer.Some? ==> l.pingtimer.value < l.nextHandle)
    && (l.timer.Some? && l.updateInfoTimer.Some? ==> l.timer.value != l.updateInfoTimer.value)
    && (l.timer.Some? && l.pingtimer.Some? ==> l.timer.value != l.pingtimer.value)
    && (l.updateInfoTimer.Some? && l.pingtimer.Some? ==> l.updateInfoTimer.value != l.pingtimer.value)
    && (forall c :: c in l.openClients ==> c < l.connections)
    && (l.client.Some? ==> l.client.value < l.connections)
    && (forall c :: c in l.replicaOpen ==> c < l.nextConn)
  }

  /** The state of a monitor that has been constructed and not yet started. */
  function Initial(): (l: Life)
    ensures Sane(l) && !l.started && l.armed == map[]
  {
    Life(false, None, 0, {}, map[], 0, None, None, None, None, {}, 0)
  }

  /** setInterval: arm a task under the next handle. */
  function Arm(l: Life, t: Task): (r: Life)
    ensures l.nextHandle !in l.armed ==> r.armed.Keys == l.armed.Keys + {l.nextHandle}
  {
    l.(armed := l.armed[l.nextHandle := t], nextHandle := l.nextHandle + 1)
  }

  /** clearInterval: disarm a handle; a null handle is ignored. */
  function Disarm(l: Life, h: Option<nat>): (r: Life)
    ensures r.armed.Keys <= l.armed.Keys
    ensures forall k :: k in r.armed ==> r.armed[k] == l.armed[k]
  {
    if h.Some? then l.(armed := l.armed - {h.value}) else l
  }

  /** `start`: reset `started` and open a new store connection (the old one is not closed). */
  function Started(l: Life): (r: Life)
    ensures Sane(l) ==> Sane(r) && l.connections !in l.openClients
    ensures r.client == Some(l.connections) && r.openClients == l.openClients + {l.connections}
    ensures r.connections == l.connections + 1 && !r.started
  {
    l.(started := false, client := Some(l.connections), connections := l.connections + 1,
       openClients := l.openClients + {l.connections})
  }

  /** `_clearPingTimer`: disarm the ping interval; if a master connection was ever bound,
      close it and null `pingtimer` (`pingRedis` keeps naming the closed connection). */
  function PingCleared(l: Life): (r: Life)
    ensures Sane(l) ==> Sane(r)
  {
    var d := Disarm(l, l.pingtimer);
    if l.pingRedis.Some? then d.(replicaOpen := d.replicaOpen - {l.pingRedis.value}, pingtimer := None)
    else d
  }

  /** One probe reply with its master verdict: a master binds its connection and arms a
      new ping interval, without disarming the previous one; any other reply closes its
      connection. */
  function Bound(l: Life, master: bool): (r: Life)
    ensures Sane(l) ==> Sane(r)
  {
    var conn := l.nextConn;
    if master then
      Arm(l, PingTick(conn)).(pingRedis := Some(conn), pingtimer := Some(l.nextHandle),
                             replicaOpen := l.replicaOpen + {conn}, nextConn := conn + 1)
    else l.(nextConn := conn + 1)
  }

  /** The probe replies of `_getMaster`, folded in arrival order. */
  function Probed(l: Life, vs: seq<bool>): (r: Life)
    ensures Sane(l) ==> Sane(r)
  {
    if vs == [] then l else Bound(Probed(l, vs[..|vs| - 1]), vs[|vs| - 1])
  }

  /** The `connect` handler: in `multiple` mode clear the ping timer and probe for the
      master; on the first connect after a start, arm the registration and discovery
      intervals and set `started`. */
  function Connected(l: Life, mode: string, vs: seq<bool>): (r: Life)
    ensures Sane(l) ==> Sane(r)
  {
    var p := if mode == "multiple" then Probed(PingCleared(l), vs) else l;
    if l.started then p else TasksArmed(p)
  }

  /** The first connect after a start: arm the registration and the discovery intervals
      and set `started`. */
  function TasksArmed(l: Life): (r: Life)
    ensures Sane(l) ==> Sane(r)
    ensures r.started
  {
    var u := Arm(l, UpdateInfoTick).(updateInfoTimer := Some(l.nextHandle));
    Arm(u, ClusterTick).(timer := Some(u.nextHandle), started := true)
  }

  /** Whether the start callback is answered on this connect. */
  function CallsBack(l: Life): (b: bool)
    ensures b ==> forall mode: string, vs: seq<bool> :: Connected(l, mode, vs).started
  {
    !l.started
  }

  /** One tick of the ping interval `h`: any reply cancels the timeout; on a timeout the
      current ping interval is disarmed, and if `pingtimer` was set the tick's replica
      connection and the store connection are closed, `pingtimer` is nulled, and the
      monitor starts again. */
  function PingRound(l: Life, h: nat, replied: bool): (r: Life)
    requires h in l.armed && l.armed[h].PingTick?
    ensures Sane(l) ==> Sane(r)
  {
    if replied then l
    else
      var d := Disarm(l, l.pingtimer);
      if l.pingtimer.None? then d
      else
        Started(d.(replicaOpen := d.replicaOpen - {l.armed[h].conn}, pingtimer := None,
                   openClients := if l.client.Some? then d.openClients - {l.client.value} else d.openClients))
  }

  /** Whether a ping round restarts the monitor. */
  function Restarts(l: Life, replied: bool): (b: bool)
    ensures b ==> !replied
    ensures forall h :: h in l.armed && l.armed[h].PingTick? ==>
      (b <==> PingRound(l, h, replied).connections != l.connections)
  {
    !replied && l.pingtimer.Some?
  }

  /** `stop`: close the store and master connections and disarm the discovery interval only. */
  function Stopped(l: Life): (r: Life)
    requires l.client.Some?
    ensures Sane(l) ==> Sane(r)
  {
    var a := l.(openClients := l.openClients - {l.client.value});
    var b := if l.pingRedis.Some? then a.(replicaOpen := a.replicaOpen - {l.pingRedis.value}) else a;
    Disarm(b, l.timer)
  }

  // ---------------------------------------------------------------------------
  // Master probing

  /** The last master verdict of a round, whose connection ends up bound. */
  function LastMaster(vs: seq<bool>): (r: Option<nat>)
    ensures r.Some? ==> r.value < |vs| && vs[r.value]
    ensures r.Some? ==> forall j :: r.value < j < |vs| ==> !vs[j]
    ensures r.None? ==> forall j :: 0 <= j < |vs| ==> !vs[j]
  {
    if vs == [] then None
    else if vs[|vs| - 1] then Some(|vs| - 1)
    else LastMaster(vs[..|vs| - 1])
  }

  /** The connections a round keeps open: those that answered master, numbered from `base`. */
  function MasterConns(vs: seq<bool>, base: nat): (s: set<nat>)
    ensures forall c :: c in s <==> base <= c < base + |vs| && vs[c - base]
  {
    if vs == [] then {}
    else
      var init := vs[..|vs| - 1];
      assert forall k :: 0 <= k < |init| ==> init[k] == vs[k];
      MasterConns(init, base) + (if vs[|vs| - 1] then {base + |vs| - 1} else {})
  }

  /** How many master replies a round received. */
  function MasterCount(vs: seq<bool>): (n: nat)
    ensures n <= |vs|
    ensures n == 0 <==> LastMaster(vs).None?
  {
    if vs == [] then 0
    else MasterCount(vs[..|vs| - 1]) + (if vs[|vs| - 1] then 1 else 0)
  }

  /** A round of probes opens one replica connection per reply, keeps exactly the master
      connections open and arms one ping interval per master reply. */
  lemma {:induction false} ProbedCounts(l: Life, vs: seq<bool>)
    ensures var r := Probed(l, vs);
      && r.nextConn == l.nextConn + |vs|
      && r.replicaOpen == l.replicaOpen + MasterConns(vs, l.nextConn)
      && r.nextHandle == l.nextHandle + MasterCount(vs)
  {
    if vs != [] {
      var init := vs[..|vs| - 1];
      ProbedCounts(l, init);
      assert Probed(l, vs) == Bound(Probed(l, init), vs[|vs| - 1]);
      assert MasterCount(vs) == MasterCount(init) + (if vs[|vs| - 1] then 1 else 0);
    }
  }

  /** Probing changes nothing outside the master binding. */
  lemma {:induction false} ProbedKeepsLifecycle(l: Life, vs: seq<bool>)
    ensures var r := Probed(l, vs);
      && r.started == l.started && r.client == l.client && r.openClients == l.openClients
      && r.connections == l.connections && r.timer == l.timer && r.updateInfoTimer == l.updateInfoTimer
  {
    if vs != [] {
      ProbedKeepsLifecycle(l, vs[..|vs| - 1]);
    }
  }

  /** A round of probes binds the LAST master reply to arrive and points `pingtimer` at
      the newest ping interval, which pings that connection; a round without a master
      reply leaves the binding and the intervals alone. */
  lemma {:induction false} ProbedBindsLastMaster(l: Life, vs: seq<bool>)
    ensures var r := Probed(l, vs);
      && r.pingRedis == (if LastMaster(vs).Some? then Some(l.nextConn + LastMaster(vs).value) else l.pingRedis)
      && (LastMaster(vs).None? ==> r.pingtimer == l.pingtimer && r.armed == l.armed)
      && (LastMaster(vs).Some? ==> r.pingtimer == Some(r.nextHandle - 1) && r.nextHandle - 1 in r.armed &&
                                   r.armed[r.nextHandle - 1] == PingTick(r.pingRedis.value))
  {
    if vs != [] {
      var init := vs[..|vs| - 1];
      ProbedBindsLastMaster(l, init);
      ProbedCounts(l, init);
      var m := Probed(l, init);
      assert Probed(l, vs) == Bound(m, vs[|vs| - 1]);
      if vs[|vs| - 1] {
        assert LastMaster(vs) == Some(|vs| - 1);
      } else {
        assert LastMaster(vs) == LastMaster(init);
      }
    }
  }

  /** Probing never disarms anything, and every interval it arms is a ping interval. */
  lemma {:induction false} ProbedKeepsArmed(l: Life, vs: seq<bool>)
    requires Sane(l)
    ensures var r := Probed(l, vs);
      && (forall h :: h in l.armed ==> h in r.armed && r.armed[h] == l.armed[h])
      && (forall h :: h in r.armed && h !in l.armed ==> l.nextHandle <= h && r.armed[h].PingTick?)
  {
    if vs != [] {
      var init := vs[..|vs| - 1];
      ProbedKeepsArmed(l, init);
      ProbedCounts(l, init);
      var m := Probed(l, init);
      assert Sane(m);
      assert m.nextHandle !in m.armed;
    }
  }

  /** Two master replies: the second to arrive is bound, and the first one's ping
      interval stays armed beside the second's. */
  lemma SecondMasterWins(l: Life, vs: seq<bool>)
    requires |vs| == 2 && vs[0] && vs[1]
    ensures var r := Probed(l, vs);
      && r.pingRedis == Some(l.nextConn + 1)
      && l.nextHandle in r.armed && r.armed[l.nextHandle] == PingTick(l.nextConn)
      && l.nextHandle + 1 in r.armed && r.armed[l.nextHandle + 1] == PingTick(l.nextConn + 1)
      && r.pingtimer == Some(l.nextHandle + 1)
  {
    var one := vs[..1];
    assert one[..0] == [];
    var b1 := Bound(l, true);
    assert Probed(l, one) == b1;
    assert b1.armed == l.armed[l.nextHandle := PingTick(l.nextConn)];
    assert b1.nextHandle == l.nextHandle + 1 && b1.nextConn == l.nextConn + 1;
    var b2 := Bound(b1, true);
    assert Probed(l, vs) == b2;
    assert b2.armed == b1.armed[l.nextHandle + 1 := PingTick(l.nextConn + 1)];
  }

  // ---------------------------------------------------------------------------
  // Connect, ping and stop

  /** The first connect after a start arms one registration and one discovery interval
      under fresh handles, sets `started` and answers the start callback. */
  lemma FirstConnectArms(l: Life, mode: string, vs: seq<bool>)
    requires Sane(l) && !l.started
    ensures var r := Connected(l, mode, vs);
      && r.started && CallsBack(l)
      && r.timer.Some? && r.updateInfoTimer.Some?
      && r.timer.value !in l.armed && r.updateInfoTimer.value !in l.armed
      && r.timer.value in r.armed && r.armed[r.timer.value] == ClusterTick
      && r.updateInfoTimer.value in r.armed && r.armed[r.updateInfoTimer.value] == UpdateInfoTick
  {
    if mode == "multiple" {
      ProbedCounts(PingCleared(l), vs);
    }
  }

  /** A later connect neither answers the callback nor arms a registration or discovery
      interval: both handles stay as they were and any new interval is a ping interval. */
  lemma ReconnectArmsNoTask(l: Life, mode: string, vs: seq<bool>)
    requires Sane(l) && l.started
    ensures var r := Connected(l, mode, vs);
      && r.started && !CallsBack(l)
      && r.timer == l.timer && r.updateInfoTimer == l.updateInfoTimer
      && forall h :: h in r.armed && h !in l.armed ==> r.armed[h].PingTick?
  {
    if mode == "multiple" {
      ProbedKeepsLifecycle(PingCleared(l), vs);
      ProbedKeepsArmed(PingCleared(l), vs);
    }
  }

  /** Connecting never disarms anything but the previous ping interval. */
  lemma ConnectKeepsOtherIntervals(l: Life, mode: string, vs: seq<bool>, h: nat)
    requires Sane(l)
    requires h in l.armed && Some(h) != l.pingtimer
    ensures var r := Connected(l, mode, vs);
      h in r.armed && r.armed[h] == l.armed[h]
  {
    if mode == "multiple" {
      ProbedKeepsArmed(PingCleared(l), vs);
    }
  }

  /** `_clearPingTimer` disarms the current ping interval and nothing else; when a master
      was bound, its connection is closed and `pingtimer` nulled, while `pingRedis` still
      names the closed connection; when none was, nothing else changes. */
  lemma PingClearedEffect(l: Life)
    ensures var r := PingCleared(l);
      && r.armed == (if l.pingtimer.Some? then l.armed - {l.pingtimer.value} else l.armed)
      && r.pingRedis == l.pingRedis
      && (l.pingRedis.Some? ==> l.pingRedis.value !in r.replicaOpen && r.pingtimer.None? &&
                                r.replicaOpen == l.replicaOpen - {l.pingRedis.value})
      && (l.pingRedis.None? ==> r.replicaOpen == l.replicaOpen && r.pingtimer == l.pingtimer)
      && r.started == l.started && r.client == l.client && r.openClients == l.openClients
      && r.timer == l.timer && r.updateInfoTimer == l.updateInfoTimer
      && r.nextHandle == l.nextHandle && r.nextConn == l.nextConn
  {
  }

  /** Outside `multiple` mode a connect probes nothing: the master binding, the ping
      interval, the replica connections and the connection counter are left alone. */
  lemma SingleModeNoProbe(l: Life, mode: string, vs: seq<bool>)
    requires mode != "multiple"
    ensures var r := Connected(l, mode, vs);
      && r.pingRedis == l.pingRedis && r.pingtimer == l.pingtimer
      && r.replicaOpen == l.replicaOpen && r.nextConn == l.nextConn
  {
  }

  /** Any ping reply, even an error, cancels the timeout: nothing changes. */
  lemma PingReplyCancelsTimeout(l: Life, h: nat)
    requires h in l.armed && l.armed[h].PingTick?
    ensures PingRound(l, h, true) == l && !Restarts(l, true)
  {
  }

  /** A timeout restarts the monitor iff `pingtimer` was set; the old store connection is
      closed before the new one is opened, and `pingtimer` is left null, so a second
      timeout right after causes no second restart. */
  lemma TimeoutRestartsOnce(l: Life, h1: nat)
    requires Sane(l)
    requires h1 in l.armed && l.armed[h1].PingTick?
    ensures var l1 := PingRound(l, h1, false);
      && l1.pingtimer.None?
      && (Restarts(l, false) ==>
            !l1.started && l1.client == Some(l.connections) && l1.connections == l.connections + 1 &&
            (l.client.Some? ==> l.client.value !in l1.openClients) && l.connections in l1.openClients)
      && (!Restarts(l, false) ==> l1.connections == l.connections && l1.client == l.client)
      && !Restarts(l1, false)
      && forall h2 :: h2 in l1.armed && l1.armed[h2].PingTick? ==>
           var l2 := PingRound(l1, h2, false);
           l2.connections == l1.connections && l2.client == l1.client && l2.started == l1.started
  {
  }

  /** A restart from a ping timeout disarms only the ping interval: after the reconnect the
      old discovery interval is still armed beside the new one. */
  lemma RestartLeavesOldIntervalsArmed(l: Life, h: nat, mode: string, vs: seq<bool>)
    requires Sane(l)
    requires h in l.armed && l.armed[h].PingTick?
    requires l.pingtimer.Some?
    requires l.timer.Some? && l.timer.value in l.armed && l.armed[l.timer.value] == ClusterTick
    ensures var r := Connected(PingRound(l, h, false), mode, vs);
      && r.timer.Some? && r.timer.value != l.timer.value
      && l.timer.value in r.armed && r.armed[l.timer.value] == ClusterTick
      && r.timer.value in r.armed && r.armed[r.timer.value] == ClusterTick
  {
    var l1 := PingRound(l, h, false);
    assert l.timer.value in l1.armed && l1.armed[l.timer.value] == ClusterTick;
    FirstConnectArms(l1, mode, vs);
    ConnectKeepsOtherIntervals(l1, mode, vs, l.timer.value);
  }

  /** `stop` disarms the discovery interval only: the registration and ping intervals stay
      armed, and the store connection is closed. */
  lemma StopLeavesOtherIntervals(l: Life)
    requires Sane(l) && l.client.Some?
    ensures var r := Stopped(l);
      && l.client.value !in r.openClients
      && (l.timer.Some? ==> l.timer.value !in r.armed)
      && (l.updateInfoTimer.Some? && l.updateInfoTimer.value in l.armed ==> l.updateInfoTimer.value in r.armed)
      && (l.pingtimer.Some? && l.pingtimer.value in l.armed ==> l.pingtimer.value in r.armed)
      && r.armed == (if l.timer.Some? then l.armed - {l.timer.value} else l.armed)
      && (l.pingRedis.Some? ==> l.pingRedis.value !in r.replicaOpen)
  {
  }
}
