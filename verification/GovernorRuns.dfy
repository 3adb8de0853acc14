/** What the governor does over whole runs, with a clock that does not go back. */
module GovernorRuns {
  import opened Options
  import opened Governors

  datatype Event =
    | Report(now: int, id: nat, stats: Stats)
    | Discontinuity(now: int)
    | Removal(now: int, id: nat)

  ghost function After(g: Governor, e: Event): Governor
    requires g.profile <= LAST_PROFILE
  {
    match e
    case Report(now, id, stats) => Observe(g, id, now, stats)
    case Discontinuity(now) => Disturb(g, now)
    case Removal(_, id) => Remove(g, id)
  }

  predicate InRange(g: Governor) {
    g.profile <= LAST_PROFILE
  }

  ghost predicate Step(g: Governor, e: Event, g': Governor) {
    InRange(g) && g' == After(g, e)
  }

  ghost predicate Run(states: seq<Governor>, events: seq<Event>) {
    && |states| == |events| + 1 && states[0] == Initial
    && (forall i :: 0 <= i < |events| ==> InRange(states[i]) ==> Step(states[i], events[i], states[i + 1]))
    && (forall i, j :: 0 <= i < j < |events| ==> events[i].now <= events[j].now)
  }

  /** Every profile chosen is one of the four, so every step of a run is a governor's step. */
  lemma {:induction false} ProfileInRange(states: seq<Governor>, events: seq<Event>, n: nat)
    requires Run(states, events) && n < |states|
    ensures InRange(states[n])
    decreases n
  {
    if n > 0 {
      ProfileInRange(states, events, n - 1);
      assert Step(states[n - 1], events[n - 1], states[n]);
    }
  }

  predicate ChangesAt(states: seq<Governor>, i: nat)
    requires i + 1 < |states|
  {
    states[i].profile != states[i + 1].profile
  }

  // ---- Changes are apart -------------------------------------------------------------------

  predicate SettledAfter(g: Governor, time: int) {
    g.settleUntil.Some? && g.settleUntil.value >= time + PROFILE_SETTLE
  }

  lemma {:induction false} SettleGrows(states: seq<Governor>, events: seq<Event>, n: nat)
    requires Run(states, events) && n < |states|
    ensures states[n].settleUntil.Some? ==> n > 0 && states[n].settleUntil.value <= events[n - 1].now + PROFILE_SETTLE
    ensures forall i :: 0 <= i < n && ChangesAt(states, i) ==> SettledAfter(states[n], events[i].now)
    decreases n
  {
    if n > 0 {
      SettleGrows(states, events, n - 1);
      ProfileInRange(states, events, n - 1);
      assert Step(states[n - 1], events[n - 1], states[n]);
      forall i | 0 <= i < n && ChangesAt(states, i) ensures SettledAfter(states[n], events[i].now) {
        if i < n - 1 {
          assert SettledAfter(states[n - 1], events[i].now);
        }
      }
    }
  }

  /** Any two profile changes are at least four seconds apart. */
  lemma ChangesApart(states: seq<Governor>, events: seq<Event>, i: nat, j: nat)
    requires Run(states, events) && i < j < |events| && ChangesAt(states, i) && ChangesAt(states, j)
    ensures events[j].now - events[i].now >= PROFILE_SETTLE
  {
    SettleGrows(states, events, j);
    ProfileInRange(states, events, j);
    assert SettledAfter(states[j], events[i].now);
    assert Step(states[j], events[j], states[j + 1]);
  }

  // ---- Evidence for a downshift ----------------------------------------------------------------

  /** Event `k` neither changes the profile nor disturbs the source, nor has anything to do with client `c`. */
  predicate Quiet(states: seq<Governor>, events: seq<Event>, c: nat, k: nat)
    requires |states| == |events| + 1 && k < |events|
  {
    && !ChangesAt(states, k) && !events[k].Discontinuity?
    && (events[k].Removal? ==> events[k].id != c) && (events[k].Report? ==> events[k].id != c)
  }

  predicate BadReport(states: seq<Governor>, events: seq<Event>, c: nat, k: nat)
    requires |states| == |events| + 1 && k < |events|
  {
    events[k].Report? && events[k].id == c && InRange(states[k]) && Unhealthy(events[k].stats, states[k].profile)
  }

  /** How many of the client's latest reports in a row were unhealthy, since the last change or disturbance. */
  function Streak(states: seq<Governor>, events: seq<Event>, c: nat, n: nat): nat
    requires |states| == |events| + 1 && n <= |events|
  {
    if n == 0 then 0
    else if Quiet(states, events, c, n - 1) then Streak(states, events, c, n - 1)
    else if BadReport(states, events, c, n - 1) && !ChangesAt(states, n - 1) then Streak(states, events, c, n - 1) + 1
    else 0
  }

  lemma {:induction false} StreakMeans(states: seq<Governor>, events: seq<Event>, c: nat, n: nat) returns (j: nat)
    requires |states| == |events| + 1 && n <= |events| && Streak(states, events, c, n) > 0
    ensures j < n && BadReport(states, events, c, j) && !ChangesAt(states, j)
    ensures Streak(states, events, c, j) + 1 == Streak(states, events, c, n)
    ensures forall k :: j < k < n ==> Quiet(states, events, c, k)
    decreases n
  {
    if Quiet(states, events, c, n - 1) {
      j := StreakMeans(states, events, c, n - 1);
    } else {
      j := n - 1;
    }
  }

  predicate Backed(states: seq<Governor>, events: seq<Event>, n: nat, c: nat)
    requires |states| == |events| + 1 && n <= |events|
  {
    c in states[n].clients ==> states[n].clients[c].unhealthy <= Streak(states, events, c, n)
  }

  /** A client's counter after its report: one more than before at most, and only for an unhealthy report. */
  lemma ReportedCounter(g: Governor, id: nat, now: int, stats: Stats, c: nat)
    requires InRange(g) && c in Reported(g, id, now, stats)
    ensures var after := Reported(g, id, now, stats)[c].unhealthy;
            if c != id then c in g.clients && after == g.clients[c].unhealthy
            else if Unhealthy(stats, g.profile) then after <= (if c in g.clients then g.clients[c].unhealthy else 0) + 1
            else after == 0
  {
  }

  lemma {:induction false} CountersBacked(states: seq<Governor>, events: seq<Event>, n: nat, c: nat)
    requires Run(states, events) && n <= |events|
    ensures Backed(states, events, n, c)
    decreases n
  {
    if n > 0 && c in states[n].clients {
      var g, e := states[n - 1], events[n - 1];
      CountersBacked(states, events, n - 1, c);
      ProfileInRange(states, events, n - 1);
      assert Step(g, e, states[n]);
      if e.Report? {
        ReportedCounter(g, e.id, e.now, e.stats, c);
      }
    }
  }

  /** The two reports that back a step down at event `n`. */
  predicate Evidence(states: seq<Governor>, events: seq<Event>, n: nat, c: nat, i: nat, j: nat)
    requires |states| == |events| + 1 && n < |events|
  {
    && i < j <= n && BadReport(states, events, c, i) && BadReport(states, events, c, j)
    && !ChangesAt(states, i)
    && (forall k :: i < k < n && k != j ==> Quiet(states, events, c, k))
    && (j < n ==> !ChangesAt(states, j))
  }

  predicate Downshift(states: seq<Governor>, n: nat)
    requires n + 1 < |states|
  {
    states[n + 1].profile > states[n].profile
  }

  ghost predicate SevereAt(states: seq<Governor>, events: seq<Event>, n: nat)
    requires |states| == |events| + 1 && n < |events|
  {
    && events[n].Report? && InRange(states[n])
    && Judge(Reported(states[n], events[n].id, events[n].now, events[n].stats), events[n].now).severe
  }

  /**
    * A downshift without a severe client goes one profile down, and two unhealthy
    * reports of one client back it: consecutive among its reports, with no change and
    * no disturbance since the first.
    */
  lemma DownshiftBacked(states: seq<Governor>, events: seq<Event>, n: nat) returns (c: nat, i: nat, j: nat)
    requires Run(states, events) && n < |events| && Downshift(states, n) && !SevereAt(states, events, n)
    ensures states[n + 1].profile == states[n].profile + 1
    ensures Evidence(states, events, n, c, i, j)
  {
    var g, e := states[n], events[n];
    ProfileInRange(states, events, n);
    assert Step(g, e, states[n + 1]);
    var clients := Reported(g, e.id, e.now, e.stats);
    assert Judge(clients, e.now).unhealthy;
    c :| c in clients && UnhealthyClient(clients[c]);
    ReportedCounter(g, e.id, e.now, e.stats, c);
    CountersBacked(states, events, n, c);
    if c == e.id {
      assert BadReport(states, events, c, n);
      j := n;
      i := StreakMeans(states, events, c, n);
    } else {
      j := StreakMeans(states, events, c, n);
      i := StreakMeans(states, events, c, j);
    }
  }

  /** However many clients are severe, at most two profiles are skipped at once, and upward only to rest or by one. */
  lemma ChangeSizes(states: seq<Governor>, events: seq<Event>, n: nat)
    requires Run(states, events) && n < |events|
    ensures states[n + 1].profile <= states[n].profile + 2
    ensures states[n + 1].profile == 0 || states[n + 1].profile >= states[n].profile - 1
    ensures ChangesAt(states, n) ==> events[n].Report?
  {
    ProfileInRange(states, events, n);
    assert Step(states[n], events[n], states[n + 1]);
  }
}
