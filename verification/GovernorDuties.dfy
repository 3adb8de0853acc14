/**
  * When the governor has to change the profile, over whole runs: what clients have
  * reported, and for how long, decides.
  */
module GovernorDuties {
  import opened Options
  import opened Governors
  import opened GovernorRuns

  /** The smoothed pressure up to which a client counts as healthy. */
  const CALM: real := 0.72

  function Read(states: seq<Governor>, events: seq<Event>, m: nat): Reading
    requires m < |events| && |states| == |events| + 1 && InRange(states[m]) && events[m].Report?
  {
    Pressure(events[m].stats, states[m].profile)
  }

  /** Event `m` is a report of client `c` that counts: its record is there and settled, and so is the governor. */
  predicate Counts(states: seq<Governor>, events: seq<Event>, c: nat, m: nat) {
    && m < |events| && |states| == |events| + 1 && InRange(states[m]) && events[m].Report? && events[m].id == c
    && !Settling(states[m], events[m].now)
    && c in states[m].clients && events[m].now - states[m].clients[c].lastSeen <= SAMPLE_TTL && states[m].clients[c].settling == 0
  }

  /** Event `m` leaves the record of `c` there: no change, no disturbance, no removal, no expiry. */
  predicate Stays(states: seq<Governor>, events: seq<Event>, c: nat, m: nat) {
    && m < |events| && |states| == |events| + 1 && !ChangesAt(states, m) && !events[m].Discontinuity? && c in states[m + 1].clients
  }

  predicate Reports(events: seq<Event>, c: nat, m: nat) {
    m < |events| && events[m].Report? && events[m].id == c
  }

  predicate CalmReading(r: Reading) {
    r.active && !r.severe && r.pressure <= CALM
  }

  /** The record of a client that has been calm since `time`. */
  predicate CalmRecord(r: Client, time: int) {
    r.settling == 0 && r.healthySince == Some(time) && r.hasPressure && r.pressure <= CALM && !r.severe && r.unhealthy == 0 && r.staticSince == None
  }

  predicate IdleRecord(r: Client, time: int) {
    r.settling == 0 && r.staticSince == Some(time) && !r.severe && r.unhealthy == 0 && !r.hasPressure
  }

  /** Client `c` became calm with its report at event `k`. */
  predicate CalmBegins(states: seq<Governor>, events: seq<Event>, c: nat, k: nat) {
    && Counts(states, events, c, k) && Stays(states, events, c, k) && CalmReading(Read(states, events, k))
    && states[k].clients[c].healthySince == None && (states[k].clients[c].hasPressure ==> states[k].clients[c].pressure <= CALM)
  }

  /** It became idle: nothing to decode. */
  predicate IdleBegins(states: seq<Governor>, events: seq<Event>, c: nat, k: nat) {
    && Counts(states, events, c, k) && Stays(states, events, c, k) && !Read(states, events, k).active
    && states[k].clients[c].staticSince == None
  }

  /** It has reported nothing else from then on, up to event `n`. */
  predicate CalmSince(states: seq<Governor>, events: seq<Event>, c: nat, k: nat, n: nat) {
    && k < n <= |events| && CalmBegins(states, events, c, k)
    && forall m :: k < m < n ==>
         Stays(states, events, c, m) && (Reports(events, c, m) ==> Counts(states, events, c, m) && CalmReading(Read(states, events, m)))
  }

  predicate IdleSince(states: seq<Governor>, events: seq<Event>, c: nat, k: nat, n: nat) {
    && k < n <= |events| && IdleBegins(states, events, c, k)
    && forall m :: k < m < n ==>
         Stays(states, events, c, m) && (Reports(events, c, m) ==> Counts(states, events, c, m) && !Read(states, events, m).active)
  }

  // ---- Records follow reports -------------------------------------------------------------------------

  lemma OwnReport(states: seq<Governor>, events: seq<Event>, c: nat, m: nat)
    requires Run(states, events) && Counts(states, events, c, m)
    ensures Reported(states[m], c, events[m].now, events[m].stats)[c] ==
            Updated(states[m].clients[c].(lastSeen := events[m].now), events[m].now, Read(states, events, m))
    ensures Stays(states, events, c, m) ==>
              states[m + 1].clients[c] == Updated(states[m].clients[c].(lastSeen := events[m].now), events[m].now, Read(states, events, m))
  {
    assert Step(states[m], events[m], states[m + 1]);
  }

  lemma OthersReport(states: seq<Governor>, events: seq<Event>, c: nat, m: nat)
    requires Run(states, events) && Stays(states, events, c, m) && InRange(states[m]) && !Reports(events, c, m)
    ensures c in states[m].clients && states[m + 1].clients[c] == states[m].clients[c]
  {
    assert Step(states[m], events[m], states[m + 1]);
  }

  lemma {:induction false} CalmLasts(states: seq<Governor>, events: seq<Event>, c: nat, k: nat, n: nat)
    requires Run(states, events) && CalmSince(states, events, c, k, n)
    ensures c in states[n].clients && CalmRecord(states[n].clients[c], events[k].now)
    decreases n
  {
    if n == k + 1 {
      OwnReport(states, events, c, k);
    } else {
      CalmLasts(states, events, c, k, n - 1);
      ProfileInRange(states, events, n - 1);
      if Reports(events, c, n - 1) {
        OwnReport(states, events, c, n - 1);
      } else {
        OthersReport(states, events, c, n - 1);
      }
    }
  }

  lemma {:induction false} IdleLasts(states: seq<Governor>, events: seq<Event>, c: nat, k: nat, n: nat)
    requires Run(states, events) && IdleSince(states, events, c, k, n)
    ensures c in states[n].clients && IdleRecord(states[n].clients[c], events[k].now)
    decreases n
  {
    if n == k + 1 {
      OwnReport(states, events, c, k);
    } else {
      IdleLasts(states, events, c, k, n - 1);
      ProfileInRange(states, events, n - 1);
      if Reports(events, c, n - 1) {
        OwnReport(states, events, c, n - 1);
      } else {
        OthersReport(states, events, c, n - 1);
      }
    }
  }

  // ---- What has to happen -----------------------------------------------------------------------------

  /** Event `n` is a report that is judged. */
  predicate Judged(states: seq<Governor>, events: seq<Event>, n: nat) {
    && n < |events| && |states| == |events| + 1 && InRange(states[n]) && events[n].Report? && !Settling(states[n], events[n].now)
  }

  /** The clients it is judged by: those heard of in the last seven seconds, and the one that reports. */
  function Present(states: seq<Governor>, events: seq<Event>, n: nat): map<nat, Client>
    requires Judged(states, events, n)
  {
    Reported(states[n], events[n].id, events[n].now, events[n].stats)
  }

  lemma NextProfile(states: seq<Governor>, events: seq<Event>, n: nat)
    requires Run(states, events) && Judged(states, events, n)
    ensures states[n + 1].profile == Chosen(states[n], events[n].now, Judge(Present(states, events, n), events[n].now))
  {
    assert Step(states[n], events[n], states[n + 1]);
  }

  /** At the report, client `c` has been calm for twelve seconds. */
  ghost predicate CalmFor(states: seq<Governor>, events: seq<Event>, c: nat, n: nat)
    requires Judged(states, events, n)
  {
    && (exists k: nat :: CalmSince(states, events, c, k, n) && events[n].now - events[k].now >= HEALTHY_HOLD)
    && (c == events[n].id ==> Counts(states, events, c, n) && CalmReading(Read(states, events, n)))
  }

  ghost predicate IdleFor(states: seq<Governor>, events: seq<Event>, c: nat, n: nat)
    requires Judged(states, events, n)
  {
    && (exists k: nat :: IdleSince(states, events, c, k, n) && events[n].now - events[k].now >= STATIC_HOLD)
    && (c == events[n].id ==> Counts(states, events, c, n) && !Read(states, events, n).active)
  }

  lemma OthersPresent(states: seq<Governor>, events: seq<Event>, c: nat, n: nat)
    requires Judged(states, events, n) && c in Present(states, events, n) && c != events[n].id
    ensures c in states[n].clients && Present(states, events, n)[c] == states[n].clients[c]
  {
  }

  lemma CalmAtReport(states: seq<Governor>, events: seq<Event>, c: nat, k: nat, n: nat)
    requires Run(states, events) && Judged(states, events, n) && c in Present(states, events, n) && CalmSince(states, events, c, k, n)
    requires c == events[n].id ==> Counts(states, events, c, n) && CalmReading(Read(states, events, n))
    ensures CalmRecord(Present(states, events, n)[c], events[k].now)
  {
    CalmLasts(states, events, c, k, n);
    if c == events[n].id {
      OwnReport(states, events, c, n);
    } else {
      OthersPresent(states, events, c, n);
    }
  }

  lemma IdleAtReport(states: seq<Governor>, events: seq<Event>, c: nat, k: nat, n: nat)
    requires Run(states, events) && Judged(states, events, n) && c in Present(states, events, n) && IdleSince(states, events, c, k, n)
    requires c == events[n].id ==> Counts(states, events, c, n) && !Read(states, events, n).active
    ensures IdleRecord(Present(states, events, n)[c], events[k].now)
  {
    IdleLasts(states, events, c, k, n);
    if c == events[n].id {
      OwnReport(states, events, c, n);
    } else {
      OthersPresent(states, events, c, n);
    }
  }

  lemma CalmIsHealthy(states: seq<Governor>, events: seq<Event>, c: nat, n: nat)
    requires Run(states, events) && Judged(states, events, n) && c in Present(states, events, n) && CalmFor(states, events, c, n)
    ensures var r, now := Present(states, events, n)[c], events[n].now;
            HealthyClient(r, now) && !SevereClient(r) && !UnhealthyClient(r) && !StaticClient(r, now)
  {
    var k: nat :| CalmSince(states, events, c, k, n) && events[n].now - events[k].now >= HEALTHY_HOLD;
    CalmAtReport(states, events, c, k, n);
  }

  lemma IdleIsStatic(states: seq<Governor>, events: seq<Event>, c: nat, n: nat)
    requires Run(states, events) && Judged(states, events, n) && c in Present(states, events, n) && IdleFor(states, events, c, n)
    ensures var r, now := Present(states, events, n)[c], events[n].now;
            StaticClient(r, now) && !SevereClient(r) && !UnhealthyClient(r)
  {
    var k: nat :| IdleSince(states, events, c, k, n) && events[n].now - events[k].now >= STATIC_HOLD;
    IdleAtReport(states, events, c, k, n);
  }

  /** When every client has been calm for twelve seconds, and the profile as old, the next report moves up one. */
  lemma CalmMovesUp(states: seq<Governor>, events: seq<Event>, n: nat)
    requires Run(states, events) && Judged(states, events, n) && states[n].profile > 0
    requires AtLeast(events[n].now, states[n].lastChange, HEALTHY_HOLD)
    requires forall c :: c in Present(states, events, n) ==> CalmFor(states, events, c, n)
    ensures states[n + 1].profile == states[n].profile - 1
  {
    var present, now := Present(states, events, n), events[n].now;
    NextProfile(states, events, n);
    forall c | c in present
      ensures HealthyClient(present[c], now) && !SevereClient(present[c]) && !UnhealthyClient(present[c]) && !StaticClient(present[c], now)
    {
      CalmIsHealthy(states, events, c, n);
    }
    assert events[n].id in present;
  }

  /** When every client has been idle for four seconds, and the profile is as old, the next report restores the best one. */
  lemma IdleMovesToBest(states: seq<Governor>, events: seq<Event>, n: nat)
    requires Run(states, events) && Judged(states, events, n) && states[n].profile > 0
    requires AtLeast(events[n].now, states[n].lastChange, STATIC_HOLD)
    requires forall c :: c in Present(states, events, n) ==> IdleFor(states, events, c, n)
    ensures states[n + 1].profile == 0
  {
    var present, now := Present(states, events, n), events[n].now;
    NextProfile(states, events, n);
    forall c | c in present ensures StaticClient(present[c], now) && !SevereClient(present[c]) && !UnhealthyClient(present[c]) {
      IdleIsStatic(states, events, c, n);
    }
    assert events[n].id in present;
  }

  /** A severe report that counts moves down two, or to the last profile, a second and a half after the last change. */
  lemma SevereMovesDown(states: seq<Governor>, events: seq<Event>, c: nat, n: nat)
    requires Run(states, events) && Counts(states, events, c, n) && Read(states, events, n).severe && states[n].profile < LAST_PROFILE
    requires AtLeast(events[n].now, states[n].lastChange, DOWNSHIFT_DELAY)
    ensures states[n + 1].profile == if states[n].profile == 0 then 2 else LAST_PROFILE
  {
    NextProfile(states, events, n);
    OwnReport(states, events, c, n);
    assert SevereClient(Present(states, events, n)[c]);
  }

  /** Between two reports of `c`: its record stays and it reports nothing. */
  predicate SilentBetween(states: seq<Governor>, events: seq<Event>, c: nat, j: nat, n: nat) {
    forall m :: j < m < n ==> Stays(states, events, c, m) && !Reports(events, c, m)
  }

  lemma {:induction false} SilenceKeeps(states: seq<Governor>, events: seq<Event>, c: nat, j: nat, n: nat)
    requires Run(states, events) && j < n <= |events| && Stays(states, events, c, j) && SilentBetween(states, events, c, j, n)
    ensures c in states[n].clients && states[n].clients[c] == states[j + 1].clients[c]
    decreases n
  {
    if n > j + 1 {
      SilenceKeeps(states, events, c, j, n - 1);
      ProfileInRange(states, events, n - 1);
      OthersReport(states, events, c, n - 1);
    }
  }

  /** Two unhealthy reports of one client in a row move down one, when nobody is severe. */
  lemma TwoUnhealthyMoveDown(states: seq<Governor>, events: seq<Event>, c: nat, j: nat, n: nat)
    requires Run(states, events) && j < n < |events|
    requires Counts(states, events, c, j) && Unhealthy(events[j].stats, states[j].profile)
    requires Counts(states, events, c, n) && Unhealthy(events[n].stats, states[n].profile)
    requires Stays(states, events, c, j) && SilentBetween(states, events, c, j, n)
    requires states[n].profile < LAST_PROFILE && AtLeast(events[n].now, states[n].lastChange, DOWNSHIFT_DELAY) && !SevereAt(states, events, n)
    ensures states[n + 1].profile == states[n].profile + 1
  {
    NextProfile(states, events, n);
    OwnReport(states, events, c, j);
    SilenceKeeps(states, events, c, j, n);
    OwnReport(states, events, c, n);
    assert UnhealthyClient(Present(states, events, n)[c]);
  }

  // ---- What counts as unhealthy ----------------------------------------------------------------------

  /** The share of the received units that the client rendered or decoded, and presented; all of them when nothing was measured. */
  function DecodeShare(stats: Stats): real
    requires stats.auRate >= 5.0
  {
    if stats.windowMS <= 0.0 then 1.0 else (if stats.system then stats.rendererFPS else stats.decodeFPS) / stats.auRate
  }

  function PresentShare(stats: Stats): real
    requires stats.auRate >= 5.0
  {
    if stats.windowMS <= 0.0 then 1.0 else if stats.system then DecodeShare(stats) else stats.presentedFPS / stats.auRate
  }

  /** A figure of the client's own decoder, or of the system's. */
  predicate DecoderStruggles(stats: Stats, profile: nat)
    requires profile <= LAST_PROFILE
  {
    if stats.system then stats.backpressure >= 3 || stats.recoveries > 0 || stats.failures > 0
    else stats.callbackMS >= 900.0 / FrameRate(profile) as real || stats.decodeErrors > 0
  }

  predicate LagsBehind(stats: Stats, profile: nat)
    requires profile <= LAST_PROFILE && stats.auRate >= 5.0
  {
    && stats.windowMS > 0.0
    && (|| DecodeShare(stats) <= 0.72
        || (!stats.system && PresentShare(stats) <= 0.63)
        || (PresentShare(stats) < 0.85 && stats.gapMS >= 3000.0 / FrameRate(profile) as real))
  }

  predicate Severe(stats: Stats)
    requires stats.auRate >= 5.0
  {
    || stats.decodeErrors > 0 || stats.failures > 0 || stats.recoveries > 0 || stats.queueDepth >= 3 || stats.dropPercent >= 8.0
    || (stats.windowMS > 0.0 && (DecodeShare(stats) < 0.50 || PresentShare(stats) < 0.35))
  }

  /** Both shares and the decoder's figures by their thresholds; the largest of the scaled figures is what the code compares. */
  lemma UnhealthyExactly(stats: Stats, profile: nat)
    requires profile <= LAST_PROFILE
    ensures Unhealthy(stats, profile) <==>
              || stats.memoryWarn
              || (stats.auRate >= 5.0
                  && (Severe(stats) || stats.dropPercent >= 1.5 || stats.queueDepth >= 2
                      || DecoderStruggles(stats, profile) || LagsBehind(stats, profile)))
    ensures !stats.memoryWarn && stats.auRate >= 5.0 ==> (Pressure(stats, profile).severe <==> Severe(stats))
  {
    var budget := 1000.0 / FrameRate(profile) as real;
    Scaled(stats.dropPercent, 1.5);
    Scaled(stats.queueDepth as real, 2.0);
    Scaled(stats.backpressure as real, 3.0);
    Scaled(stats.callbackMS, budget * 0.9);
    Scaled(stats.gapMS, budget * 3.0);
    assert budget * 0.9 == 900.0 / FrameRate(profile) as real && budget * 3.0 == 3000.0 / FrameRate(profile) as real;
    if stats.auRate >= 5.0 {
      Scaled(0.92 - DecodeShare(stats), 0.20);
      Scaled(0.88 - PresentShare(stats), 0.25);
    }
  }

  lemma Scaled(x: real, unit: real)
    requires unit > 0.0
    ensures x / unit >= 1.0 <==> x >= unit
  {
    assert x / unit * unit == x;
  }
}
