/**
 * Store keys and the monitor's configuration, as the monitor builds them
 * from the reserved prefixes and the options object.
 */
module Keys {
  import opened Common

  /** The reserved key prefixes (their concrete values live in a constants file
      that is not part of this model). */
  datatype Prefixes = Prefixes(reg: string, regServer: string, regRes: string)

  /** The lease set of an environment: `REDIS_REG_PREFIX + env`. */
  function LeaseSetKey(p: Prefixes, env: string): (k: string)
    ensures |k| == |p.reg| + |env| && k[..|p.reg|] == p.reg && k[|p.reg|..] == env
  {
    p.reg + env
  }

  /** The registration record of a server: `REDIS_REG_SERVER_PREFIX + env + ':' + id`. */
  function RegServerKey(p: Prefixes, env: string, id: string): (k: string)
    ensures |k| == |p.regServer| + |env| + 1 + |id|
    ensures k[..|p.regServer|] == p.regServer && k[|k| - |id|..] == id && k[|k| - |id| - 1] == ':'
  {
    p.regServer + env + ":" + id
  }

  /** The command slot of a server: `REDIS_REG_PREFIX + env + ':' + id`. */
  function CommandKey(p: Prefixes, env: string, id: string): (k: string)
    ensures var lease := LeaseSetKey(p, env);
      |k| == |lease| + 1 + |id| && k[..|lease|] == lease && k[|lease|] == ':' && k[|lease| + 1..] == id
  {
    p.reg + env + ":" + id
  }

  /** The key a command result is written under; an empty `kind` is JavaScript's falsy type. */
  function ResultKey(p: Prefixes, env: string, id: string, kind: string): (k: string)
    ensures |k| == |p.regRes| + |env| + 1 + |id| + (if kind == "" then 0 else 1 + |kind|)
    ensures k[..|p.regRes|] == p.regRes
    ensures kind == "" ==> k[|k| - |id|..] == id
    ensures kind != "" ==> k[|k| - |kind|..] == kind && k[|k| - |kind| - 1] == ':'
  {
    if kind == "" then p.regRes + env + ":" + id
    else p.regRes + env + ":" + id + ":" + kind
  }

  /** Recovers the server id from a registration-record key of environment `env`. */
  function IdOfRegServerKey(p: Prefixes, env: string, key: string): (r: Option<string>)
    ensures r.Some? ==> |r.value| <= |key|
  {
    var pre := p.regServer + env + ":";
    if |pre| <= |key| && key[..|pre|] == pre then Some(key[|pre|..]) else None
  }

  /** Decoding a registration-record key gives back the id it was built from. */
  lemma RegServerKeyRoundTrip(p: Prefixes, env: string, id: string)
    ensures IdOfRegServerKey(p, env, RegServerKey(p, env, id)) == Some(id)
  {
    var pre := p.regServer + env + ":";
    assert RegServerKey(p, env, id) == pre + id;
    assert (pre + id)[..|pre|] == pre;
    assert (pre + id)[|pre|..] == id;
  }

  /** A key that decodes to `id` is exactly the registration-record key of `id`. */
  lemma RegServerKeyDecodes(p: Prefixes, env: string, key: string, id: string)
    requires IdOfRegServerKey(p, env, key) == Some(id)
    ensures key == RegServerKey(p, env, id)
  {
    var pre := p.regServer + env + ":";
    assert key == key[..|pre|] + key[|pre|..];
  }

  /** Two servers of one environment never share a registration record. */
  lemma RegServerKeyInjective(p: Prefixes, env: string, a: string, b: string)
    requires RegServerKey(p, env, a) == RegServerKey(p, env, b)
    ensures a == b
  {
    RegServerKeyRoundTrip(p, env, a);
    RegServerKeyRoundTrip(p, env, b);
  }

  /** The command slot of a server never coincides with its environment's lease set. */
  lemma CommandKeyIsNotLeaseSetKey(p: Prefixes, env: string, id: string)
    ensures CommandKey(p, env, id) != LeaseSetKey(p, env)
  {
    assert |CommandKey(p, env, id)| > |LeaseSetKey(p, env)|;
  }

  /** Results of different types never overwrite one another, nor the untyped result. */
  lemma ResultKeysDistinct(p: Prefixes, env: string, id: string, k1: string, k2: string)
    requires ResultKey(p, env, id, k1) == ResultKey(p, env, id, k2)
    ensures k1 == k2
  {
    var base := p.regRes + env + ":" + id;
    if k1 != "" && k2 != "" {
      assert ResultKey(p, env, id, k1) == base + ":" + k1;
      assert ResultKey(p, env, id, k2) == base + ":" + k2;
      assert (base + ":" + k1)[|base| + 1..] == k1;
      assert (base + ":" + k2)[|base| + 1..] == k2;
    }
  }

  /** The options object; `""` and `0` stand for absent (falsy) values. */
  datatype Options = Options(
    mode: string,
    name: string,
    period: int,
    updateInfoPeriod: int,
    updateInfoExpire: int,
    maxServerInfoBatch: int,
    expire: int,
    password: string)

  /** The default time constants (their values live in a constants file). */
  datatype Defaults = Defaults(reg: int, updateInfo: int, expire: int)

  /** The monitor's effective configuration. */
  datatype Config = Config(
    mode: string,
    name: Option<string>,
    period: int,
    updateInfoPeriod: int,
    updateInfoExpire: int,
    maxServerInfoBatch: int,
    expire: int,
    password: Option<string>)

  /** JavaScript's `s || null` on a string option. */
  function OrNull(s: string): Option<string>
  {
    if s != "" then Some(s) else None
  }

  /** JavaScript's `x || d` on a numeric option. */
  function OrNumber(x: int, d: int): int
  {
    if x != 0 then x else d
  }

  /** The option defaulting done by the monitor's constructor. */
  function Configure(o: Options, d: Defaults): (c: Config)
    ensures c.mode != ""
    ensures o.mode != "" ==> c.mode == o.mode
    ensures o.mode == "" ==> c.mode == "single"
    ensures o.period != 0 ==> c.period == o.period
    ensures o.period == 0 ==> c.period == d.reg
    ensures o.updateInfoPeriod != 0 ==> c.updateInfoPeriod == o.updateInfoPeriod
    ensures o.updateInfoPeriod == 0 ==> c.updateInfoPeriod == d.updateInfo
    ensures o.updateInfoExpire != 0 ==> c.updateInfoExpire == o.updateInfoExpire
    // the fallback is three times the DEFAULT period, whatever period is configured
    ensures o.updateInfoExpire == 0 ==> c.updateInfoExpire == 3 * d.updateInfo
    ensures c.maxServerInfoBatch == o.maxServerInfoBatch
    ensures o.expire != 0 ==> c.expire == o.expire
    ensures o.expire == 0 ==> c.expire == d.expire
    ensures c.name.Some? <==> o.name != ""
    ensures o.name != "" ==> c.name == Some(o.name)
    ensures c.password.Some? <==> o.password != ""
    ensures o.password != "" ==> c.password == Some(o.password)
  {
    Config(
      if o.mode != "" then o.mode else "single",
      OrNull(o.name),
      OrNumber(o.period, d.reg),
      OrNumber(o.updateInfoPeriod, d.updateInfo),
      OrNumber(o.updateInfoExpire, 3 * d.updateInfo),
      o.maxServerInfoBatch,
      OrNumber(o.expire, d.expire),
      OrNull(o.password))
  }

  /** The options a configuration would be written back as. */
  function AsOptions(c: Config): Options
  {
    Options(c.mode,
            if c.name.Some? then c.name.value else "",
            c.period, c.updateInfoPeriod, c.updateInfoExpire,
            c.maxServerInfoBatch, c.expire,
            if c.password.Some? then c.password.value else "")
  }

  /** Defaulting is idempotent: feeding a configuration back in changes nothing. */
  lemma ConfigureIdempotent(o: Options, d: Defaults)
    ensures Configure(AsOptions(Configure(o, d)), d) == Configure(o, d)
  {
  }

  /** With a configured refresh period but no expiry, the registration TTL is
      three times the default period, not three times the configured one. */
  lemma ExpireIgnoresConfiguredPeriod(o: Options, d: Defaults)
    requires o.updateInfoExpire == 0 && o.updateInfoPeriod != 0
    requires o.updateInfoPeriod != d.updateInfo
    ensures Configure(o, d).updateInfoExpire != 3 * Configure(o, d).updateInfoPeriod
  {
  }
}
