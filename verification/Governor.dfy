/**
  * The stream governor: client reports move an encoder profile up and down. Times
  * and durations are in milliseconds; an unset time is None.
  */
module Governors {
  import opened Options

  const SAMPLE_TTL: int := 7000
  const DOWNSHIFT_DELAY: int := 1500
  const PROFILE_SETTLE: int := 4000
  const HEALTHY_HOLD: int := 12000
  const STATIC_HOLD: int := 4000
  const UNHEALTHY_SAMPLES: nat := 2
  const LAST_PROFILE: nat := 3

  // ---- One report ------------------------------------------------------------------------

  datatype Stats = Stats(memoryWarn: bool, auRate: real, dropPercent: real, system: bool, queueDepth: nat,
                         backpressure: nat, recoveries: nat, failures: nat, callbackMS: real, decodeErrors: nat,
                         windowMS: real, rendererFPS: real, decodeFPS: real, presentedFPS: real, gapMS: real)

  datatype Reading = Reading(pressure: real, active: bool, severe: bool)

  function FrameRate(profile: nat): int
    requires profile <= LAST_PROFILE
  {
    if profile == 0 then 60 else if profile == 1 then 50 else if profile == 2 then 40 else 30
  }

  function Larger(a: real, b: real): real {
    if b > a then b else a
  }

  /** governorPressure, but for the label of the worst figure. */
  function Pressure(stats: Stats, profile: nat): (r: Reading)
    requires profile <= LAST_PROFILE
    ensures r.pressure >= 0.0 && (!r.active ==> !r.severe)
  {
    if stats.memoryWarn then Reading(4.0, true, true)
    else if stats.auRate < 5.0 then Reading(0.0, false, false)
    else
      var budget := 1000.0 / FrameRate(profile) as real;
      var drops := Larger(0.0, stats.dropPercent / 1.5);
      var queue := Larger(drops, stats.queueDepth as real / 2.0);
      var base :=
        if stats.system then
          Larger(Larger(Larger(queue, stats.backpressure as real / 3.0), stats.recoveries as real * 2.0), stats.failures as real * 4.0)
        else Larger(Larger(queue, stats.callbackMS / (budget * 0.9)), stats.decodeErrors as real * 2.0);
      var measured := stats.windowMS > 0.0;
      var decode := if !measured then 1.0 else (if stats.system then stats.rendererFPS else stats.decodeFPS) / stats.auRate;
      var present := if !measured then 1.0 else if stats.system then decode else stats.presentedFPS / stats.auRate;
      var rates :=
        if !measured then base
        else
          var first := Larger(base, Larger(0.0, 0.92 - decode) / 0.20);
          var second := if stats.system then first else Larger(first, Larger(0.0, 0.88 - present) / 0.25);
          if present < 0.85 then Larger(second, stats.gapMS / (budget * 3.0)) else second;
      var severe := || stats.decodeErrors > 0 || stats.failures > 0 || stats.recoveries > 0 || stats.queueDepth >= 3
                    || stats.dropPercent >= 8.0 || (measured && (decode < 0.50 || present < 0.35));
      Reading(rates, true, severe)
  }

  /** What counts as an unhealthy report at a profile. */
  predicate Unhealthy(stats: Stats, profile: nat)
    requires profile <= LAST_PROFILE
  {
    var r := Pressure(stats, profile);
    r.active && (r.severe || r.pressure >= 1.0)
  }

  // ---- The state ----------------------------------------------------------------------------

  datatype Client = Client(lastSeen: int, healthySince: Option<int>, staticSince: Option<int>, pressure: real, hasPressure: bool,
                           unhealthy: nat, active: bool, severe: bool, settling: nat)

  datatype Governor = Governor(profile: nat, lastChange: Option<int>, settleUntil: Option<int>, clients: map<nat, Client>)

  const Initial := Governor(0, None, None, map[])

  const NewClient := Client(0, None, None, 0.0, false, 0, false, false, 1)

  /** An unset time is longer ago than any hold. */
  predicate AtLeast(now: int, since: Option<int>, hold: int) {
    since.None? || now - since.value >= hold
  }

  predicate Held(now: int, since: Option<int>, hold: int) {
    since.Some? && now - since.value >= hold
  }

  predicate Settling(g: Governor, now: int) {
    g.settleUntil.Some? && now < g.settleUntil.value
  }

  function Purged(clients: map<nat, Client>, now: int): map<nat, Client> {
    map id | id in clients && now - clients[id].lastSeen <= SAMPLE_TTL :: clients[id]
  }

  function WarmUp(c: Client): Client {
    c.(active := false, severe := false, unhealthy := 0, healthySince := None, staticSince := None, pressure := 0.0, hasPressure := false)
  }

  /** A client's record after a report outside the settle interval. */
  function Updated(c: Client, now: int, r: Reading): Client {
    if r.active && c.settling > 0 then
      WarmUp(c).(active := true, settling := c.settling - 1)
    else if !r.active then
      c.(active := false, severe := r.severe, unhealthy := 0, healthySince := None,
         staticSince := if c.staticSince.None? then Some(now) else c.staticSince, pressure := c.pressure * 0.5, hasPressure := false)
    else
      var pressure := if c.hasPressure then c.pressure * 0.55 + r.pressure * 0.45 else r.pressure;
      var c' := c.(active := true, severe := r.severe, staticSince := None, pressure := pressure, hasPressure := true);
      if r.severe || r.pressure >= 1.0 then c'.(unhealthy := c.unhealthy + 1, healthySince := None)
      else c'.(unhealthy := 0,
               healthySince := if pressure > 0.72 then None else if c.healthySince.None? then Some(now) else c.healthySince)
  }

  function Reported(g: Governor, id: nat, now: int, stats: Stats): map<nat, Client>
    requires g.profile <= LAST_PROFILE
  {
    var clients := Purged(g.clients, now);
    var c := (if id in clients then clients[id] else NewClient).(lastSeen := now);
    clients[id := if Settling(g, now) then WarmUp(c) else Updated(c, now, Pressure(stats, g.profile))]
  }

  /** What the records say together; no order among the clients. */
  datatype Verdict = Verdict(severe: bool, unhealthy: bool, allStatic: bool, allHealthy: bool)

  predicate SevereClient(c: Client) {
    c.severe
  }

  predicate UnhealthyClient(c: Client) {
    c.unhealthy >= UNHEALTHY_SAMPLES
  }

  predicate StaticClient(c: Client, now: int) {
    Held(now, c.staticSince, STATIC_HOLD)
  }

  predicate HealthyClient(c: Client, now: int) {
    Held(now, c.healthySince, HEALTHY_HOLD)
  }

  ghost function Judge(clients: map<nat, Client>, now: int): Verdict {
    Verdict(exists id :: id in clients && SevereClient(clients[id]),
            exists id :: id in clients && UnhealthyClient(clients[id]),
            clients != map[] && forall id :: id in clients ==> StaticClient(clients[id], now),
            clients != map[] && forall id :: id in clients ==> HealthyClient(clients[id], now))
  }

  function Chosen(g: Governor, now: int, v: Verdict): nat {
    if AtLeast(now, g.lastChange, DOWNSHIFT_DELAY) && v.severe && g.profile < LAST_PROFILE then
      if g.profile + 2 < LAST_PROFILE then g.profile + 2 else LAST_PROFILE
    else if AtLeast(now, g.lastChange, DOWNSHIFT_DELAY) && v.unhealthy && g.profile < LAST_PROFILE then g.profile + 1
    else if g.profile > 0 && v.allStatic && AtLeast(now, g.lastChange, STATIC_HOLD) then 0
    else if g.profile > 0 && v.allHealthy && AtLeast(now, g.lastChange, HEALTHY_HOLD) then g.profile - 1
    else g.profile
  }

  /** Evidence is not carried over to another profile. */
  function Cleared(clients: map<nat, Client>): map<nat, Client> {
    map id | id in clients :: ClearedClient(clients[id])
  }

  function ClearedClient(c: Client): Client {
    c.(unhealthy := 0, healthySince := None, hasPressure := false, severe := false)
  }

  /** observe. */
  ghost function Observe(g: Governor, id: nat, now: int, stats: Stats): Governor
    requires g.profile <= LAST_PROFILE
  {
    var clients := Reported(g, id, now, stats);
    if Settling(g, now) then g.(clients := clients)
    else
      var to := Chosen(g, now, Judge(clients, now));
      if to == g.profile then g.(clients := clients)
      else Governor(to, Some(now), Some(now + PROFILE_SETTLE), Cleared(clients))
  }

  function SettledClient(c: Client): Client {
    WarmUp(c).(settling := 1)
  }

  /** settleAfterDiscontinuity. */
  function Disturb(g: Governor, now: int): Governor {
    g.(settleUntil := Some(now + PROFILE_SETTLE), clients := map id | id in g.clients :: SettledClient(g.clients[id]))
  }

  function Remove(g: Governor, id: nat): Governor {
    g.(clients := g.clients - {id})
  }
}
