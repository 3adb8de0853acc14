/**
  * The client's estimate of the server clock, from the best of its last eight round
  * trips (the method of section 8 of RFC 5905), and how far off it can be.
  */
module ClockSyncs {
  const UINT64_MAX: int := 0xFFFF_FFFF_FFFF_FFFF
  const INT64_MAX: int := 0x7FFF_FFFF_FFFF_FFFF
  const INT64_MIN: int := -0x8000_0000_0000_0000
  const REPLY_TIMEOUT: nat := 10_000_000_000
  const STARTUP_INTERVAL: nat := 1_000_000_000
  const STEADY_INTERVAL: nat := 30_000_000_000
  const CAPACITY: nat := 8

  // ---- 64-bit arithmetic -----------------------------------------------------------------------

  predicate Uint64(x: int) {
    0 <= x <= UINT64_MAX
  }

  predicate Int64(x: int) {
    INT64_MIN <= x <= INT64_MAX
  }

  /** Division by two as in C: toward zero. */
  function Half(x: int): (h: int)
    ensures x >= 0 ==> 0 <= x - 2 * h <= 1
    ensures x <= 0 ==> -1 <= x - 2 * h <= 0
  {
    if x >= 0 then x / 2 else -((-x) / 2)
  }

  function Odd(x: int): int {
    x - 2 * Half(x)
  }

  /** surf_signed_difference: saturating. */
  function SignedDifference(left: int, right: int): (d: int)
    requires Uint64(left) && Uint64(right)
    ensures Int64(d) && (Int64(left - right) ==> d == left - right)
  {
    if left >= right then (if left - right > INT64_MAX then INT64_MAX else left - right)
    else if right - left > INT64_MAX then INT64_MIN else left - right
  }

  /** surf_signed_average: within one half of the mean, and no intermediate value leaves 64 bits. */
  function SignedAverage(left: int, right: int): (a: int)
    requires Int64(left) && Int64(right)
    ensures Int64(a) && -1 <= 2 * a - (left + right) <= 1
    ensures Int64(Half(left)) && Int64(Half(right)) && Int64(Half(left) + Half(right)) && Int64(Odd(left) + Odd(right))
  {
    Half(left) + Half(right) + Half(Odd(left) + Odd(right))
  }

  // ---- The estimator ----------------------------------------------------------------------------

  datatype Sample = Sample(rtt: nat, offset: int)

  /** What a reply measures. */
  function Measured(clientSend: nat, serverReceive: nat, serverSend: nat, clientReceive: nat): Sample
    requires Uint64(clientSend) && Uint64(serverReceive) && Uint64(serverSend) && Uint64(clientReceive)
    requires clientSend <= clientReceive && serverReceive <= serverSend
  {
    var elapsed, atServer := clientReceive - clientSend, serverSend - serverReceive;
    Sample(if elapsed >= atServer then elapsed - atServer else 0,
           SignedAverage(SignedDifference(serverReceive, clientSend), SignedDifference(serverSend, clientReceive)))
  }

  function WindowStart(n: nat): nat {
    if n < CAPACITY then 0 else n - CAPACITY
  }

  /** `best` is a sample of the last eight with the least round trip of those. */
  predicate IsBest(history: seq<Sample>, best: Sample) {
    && (exists j :: WindowStart(|history|) <= j < |history| && history[j] == best)
    && forall j :: WindowStart(|history|) <= j < |history| ==> best.rtt <= history[j].rtt
  }

  /** Every kept offset is a 64-bit value. */
  predicate AllInt64(history: seq<Sample>) {
    forall j :: 0 <= j < |history| ==> Int64(history[j].offset)
  }

  predicate Holds(ring: seq<Sample>, history: seq<Sample>) {
    |ring| == CAPACITY && forall j :: WindowStart(|history|) <= j < |history| ==> ring[j % CAPACITY] == history[j]
  }

  /** Probes are more frequent until there are four samples. */
  function Interval(count: nat): nat {
    if count < 4 then STARTUP_INTERVAL else STEADY_INTERVAL
  }

  class ClockSync {
    var awaiting: bool
    var pendingSend: nat
    var lastProbe: nat
    const samples: array<Sample>
    var count: nat
    var next: nat
    var best: Sample
    var synchronized: bool
    ghost var history: seq<Sample>

    /** The ring holds the last eight samples of the history. */
    ghost predicate Ring()
      reads this, samples
    {
      && samples.Length == CAPACITY
      && next == |history| % CAPACITY && count == (if |history| < CAPACITY then |history| else CAPACITY)
      && Holds(samples[..], history)
    }

    ghost predicate Valid()
      reads this, samples
    {
      && Ring() && AllInt64(history)
      && (history != [] ==> IsBest(history, best))
      && (history == [] ==> best == Sample(0, 0))
      && (synchronized <==> |history| >= 2)
    }

    constructor ()
      ensures Valid() && fresh(samples) && history == [] && !awaiting && lastProbe == 0
    {
      samples := new Sample[CAPACITY](_ => Sample(0, 0));
      awaiting, pendingSend, lastProbe, count, next, best, synchronized := false, 0, 0, 0, 0, Sample(0, 0), false;
      history := [];
    }

    /** surf_clock_sync_probe. */
    method Probe(now: nat) returns (send: bool)
      requires Valid()
      modifies this`awaiting, this`pendingSend, this`lastProbe
      ensures Valid()
      ensures send <==> && !(old(awaiting) && old(pendingSend) <= now <= old(pendingSend) + REPLY_TIMEOUT)
                        && !(old(lastProbe) != 0 && old(lastProbe) <= now < old(lastProbe) + if count < 4 then STARTUP_INTERVAL else STEADY_INTERVAL)
      ensures send ==> awaiting && pendingSend == now && lastProbe == now
      ensures !send ==> lastProbe == old(lastProbe) && pendingSend == old(pendingSend)
                        && (awaiting <==> old(awaiting) && old(pendingSend) <= now <= old(pendingSend) + REPLY_TIMEOUT)
    {
      if awaiting {
        if now >= pendingSend && now - pendingSend <= REPLY_TIMEOUT {
          return false;
        }
        awaiting := false;
      }
      if lastProbe != 0 && now >= lastProbe && now - lastProbe < Interval(count) {
        return false;
      }
      lastProbe, pendingSend, awaiting := now, now, true;
      return true;
    }

    /** The first of the samples in use with the least round trip. */
    method ChooseBest() returns (index: nat)
      requires samples.Length == CAPACITY && 0 < count <= CAPACITY
      ensures index < count && forall i :: 0 <= i < count ==> samples[index].rtt <= samples[i].rtt
    {
      index := 0;
      for i := 1 to count
        invariant index < count && forall k :: 0 <= k < i ==> samples[index].rtt <= samples[k].rtt
      {
        if samples[i].rtt < samples[index].rtt {
          index := i;
        }
      }
    }

    method Store(s: Sample)
      requires Ring()
      modifies this`count, this`next, this`history, samples
      ensures Ring() && history == old(history) + [s]
    {
      RingHolds(history, samples[..], s);
      samples[next] := s;
      assert samples[..] == old(samples[..])[next := s];
      history := history + [s];
      if count < CAPACITY {
        count := count + 1;
      }
      next := (next + 1) % CAPACITY;
    }

    /** surf_clock_sync_consume: a reply to the pending probe becomes the newest sample. */
    method Consume(clientSend: nat, serverReceive: nat, serverSend: nat, clientReceive: nat) returns (taken: bool)
      requires Valid() && Uint64(clientSend) && Uint64(serverReceive) && Uint64(serverSend) && Uint64(clientReceive)
      modifies this, samples
      ensures Valid()
      ensures taken <==> old(awaiting) && clientSend == old(pendingSend) && clientSend <= clientReceive && serverReceive <= serverSend
      ensures taken ==> !awaiting && history == old(history) + [Measured(clientSend, serverReceive, serverSend, clientReceive)]
      ensures !taken ==> history == old(history) && best == old(best) && awaiting == old(awaiting)
    {
      if !awaiting || clientSend != pendingSend || clientReceive < clientSend || serverSend < serverReceive {
        return false;
      }
      awaiting := false;
      Store(Measured(clientSend, serverReceive, serverSend, clientReceive));
      var chosen := ChooseBest();
      best := samples[chosen];
      BestInRing(history, samples[..], count, chosen);
      synchronized := count >= 2;
      return true;
    }

    /** surf_clock_sync_server_to_client: saturating at both ends. */
    method ServerToClient(server: nat) returns (ok: bool, client: nat)
      requires Valid() && Uint64(server)
      ensures ok == synchronized
      ensures ok ==> Uint64(client) && client == Clamp(server - best.offset)
    {
      if !synchronized {
        return false, 0;
      }
      if best.offset >= 0 {
        return true, if server >= best.offset then server - best.offset else 0;
      }
      var magnitude := if best.offset == INT64_MIN then INT64_MAX + 1 else -best.offset;
      return true, if UINT64_MAX - server < magnitude then UINT64_MAX else server + magnitude;
    }
  }

  function Clamp(x: int): (r: nat)
    ensures r <= UINT64_MAX && (0 <= x <= UINT64_MAX ==> r == x)
    ensures (x < 0 ==> r == 0) && (x > UINT64_MAX ==> r == UINT64_MAX)
  {
    if x < 0 then 0 else if x > UINT64_MAX then UINT64_MAX else x
  }

  lemma BestInRing(history: seq<Sample>, ring: seq<Sample>, count: nat, chosen: nat)
    requires Holds(ring, history) && count == (if |history| < CAPACITY then |history| else CAPACITY) && chosen < count
    requires forall i :: 0 <= i < count ==> ring[chosen].rtt <= ring[i].rtt
    ensures IsBest(history, ring[chosen])
  {
    var j := InWindow(|history|, chosen);
    assert history[j] == ring[chosen];
    forall k | WindowStart(|history|) <= k < |history| ensures ring[chosen].rtt <= history[k].rtt {
      assert ring[k % CAPACITY] == history[k];
    }
  }

  /** Writing one more sample overwrites none of the last eight. */
  lemma RingHolds(history: seq<Sample>, ring: seq<Sample>, s: Sample)
    requires Holds(ring, history)
    ensures Holds(ring[|history| % CAPACITY := s], history + [s])
  {
    var n := |history|;
    forall j | WindowStart(n + 1) <= j < n ensures j % CAPACITY != n % CAPACITY {
      Apart(j, n);
    }
  }

  lemma Apart(j: nat, n: nat)
    requires n - CAPACITY < j < n
    ensures j % CAPACITY != n % CAPACITY
  {
  }

  /** Every slot in use holds a sample of the window. */
  lemma InWindow(n: nat, slot: nat) returns (j: nat)
    requires slot < CAPACITY && slot < n
    ensures WindowStart(n) <= j < n && j % CAPACITY == slot
  {
    if n <= CAPACITY {
      j := slot;
    } else {
      var start := n - CAPACITY;
      var r := start % CAPACITY;
      j := start + (slot - r) % CAPACITY;
      SlotOf(start, slot);
    }
  }

  lemma SlotOf(start: nat, slot: nat)
    requires slot < CAPACITY
    ensures (start + (slot - start % CAPACITY) % CAPACITY) % CAPACITY == slot
  {
  }

  // ---- How far off the estimate can be --------------------------------------------------------------

  /** A sample whose request took `there` and whose reply took `back`, under the true offset. */
  predicate Honest(s: Sample, offset: int, there: nat, back: nat) {
    s.rtt == there + back && -1 <= 2 * s.offset - (2 * offset + there - back) <= 1
  }

  /** What the estimator measures of a round trip with a constant offset and delays that are not negative. */
  lemma MeasuredIsHonest(clientSend: nat, there: nat, atServer: nat, back: nat, offset: int)
    requires Uint64(clientSend) && Uint64(clientSend + there + offset) && Uint64(clientSend + there + offset + atServer)
    requires Uint64(clientSend + there + atServer + back)
    requires Int64(offset + there) && Int64(offset - back)
    ensures var received := clientSend + there + offset;
            Honest(Measured(clientSend, received, received + atServer, clientSend + there + atServer + back), offset, there, back)
  {
  }

  ghost predicate SomehowHonest(s: Sample, offset: int) {
    exists there: nat, back: nat :: Honest(s, offset, there, back)
  }

  /** Every sample of the last eight is such a one. */
  ghost predicate WindowHonest(history: seq<Sample>, offset: int) {
    forall i :: WindowStart(|history|) <= i < |history| ==> SomehowHonest(history[i], offset)
  }

  /** Twice the error of the estimate is at most the best round trip, and one. */
  predicate Within(best: Sample, offset: int) {
    -(best.rtt + 1) <= 2 * (best.offset - offset) <= best.rtt + 1
  }

  lemma ErrorBound(history: seq<Sample>, best: Sample, offset: int)
    requires history != [] && IsBest(history, best) && WindowHonest(history, offset)
    ensures Within(best, offset)
    ensures forall j :: WindowStart(|history|) <= j < |history| ==> best.rtt <= history[j].rtt
  {
    var j :| WindowStart(|history|) <= j < |history| && history[j] == best;
    assert SomehowHonest(history[j], offset);
    var there: nat, back: nat :| Honest(history[j], offset, there, back);
  }

  // ---- Whole sequences of exchanges -----------------------------------------------------------------

  /** A probe at `send`, on its way for `there`, answered after `atServer`, and back after `back`. */
  datatype Exchange = Exchange(send: nat, there: nat, atServer: nat, back: nat)

  /** Clocks and differences fit, under the true offset. */
  predicate InRange(x: Exchange, offset: int) {
    && Uint64(x.send) && Uint64(x.send + x.there + offset) && Uint64(x.send + x.there + offset + x.atServer)
    && Uint64(x.send + x.there + x.atServer + x.back)
    && Int64(offset + x.there) && Int64(offset - x.back)
  }

  function SampleOf(x: Exchange, offset: int): Sample
    requires InRange(x, offset)
  {
    var received := x.send + x.there + offset;
    Measured(x.send, received, received + x.atServer, x.send + x.there + x.atServer + x.back)
  }

  /** The samples an exchange after the other leaves; one that is not sent leaves none. */
  ghost predicate Measures(history: seq<Sample>, xs: seq<Exchange>, offset: int) {
    |history| == |xs| && forall i :: 0 <= i < |xs| ==> InRange(xs[i], offset) && history[i] == SampleOf(xs[i], offset)
  }

  lemma MeasuresHonestly(history: seq<Sample>, xs: seq<Exchange>, offset: int)
    requires Measures(history, xs, offset)
    ensures WindowHonest(history, offset)
  {
    forall i | WindowStart(|history|) <= i < |history| ensures SomehowHonest(history[i], offset) {
      MeasuredIsHonest(xs[i].send, xs[i].there, xs[i].atServer, xs[i].back, offset);
      assert Honest(history[i], offset, xs[i].there, xs[i].back);
    }
  }

  /** One exchange, if a probe is due. */
  method Attempt(sync: ClockSync, x: Exchange, offset: int) returns (due: bool)
    requires sync.Valid() && !sync.awaiting && InRange(x, offset)
    modifies sync, sync.samples
    ensures sync.Valid() && !sync.awaiting
    ensures sync.history == old(sync.history) + if due then [SampleOf(x, offset)] else []
  {
    due := sync.Probe(x.send);
    if due {
      var received := x.send + x.there + offset;
      var taken := sync.Consume(x.send, received, received + x.atServer, x.send + x.there + x.atServer + x.back);
    }
  }

  /**
    * Every sequence of exchanges, with one true offset and any delays that are not
    * negative: probes are sent when they are due, each reply is consumed, and after each
    * the estimate is within half the best round trip of the last eight samples, and one
    * half, of the truth.
    */
  method Synchronise(xs: seq<Exchange>, offset: int) returns (sync: ClockSync, ghost sent: seq<Exchange>)
    requires forall i :: 0 <= i < |xs| ==> InRange(xs[i], offset)
    ensures sync.Valid() && Measures(sync.history, sent, offset)
    ensures sync.history != [] ==>
              && Within(sync.best, offset)
              && forall j :: WindowStart(|sent|) <= j < |sent| ==> sync.best.rtt <= sync.history[j].rtt
    ensures forall i :: 0 <= i < |sent| ==> sent[i] in xs
  {
    sync := new ClockSync();
    sent := [];
    for i := 0 to |xs|
      invariant sync.Valid() && fresh(sync) && fresh(sync.samples) && !sync.awaiting && Measures(sync.history, sent, offset)
      invariant forall k :: 0 <= k < |sent| ==> sent[k] in xs
    {
      var due := Attempt(sync, xs[i], offset);
      if due {
        sent := sent + [xs[i]];
      }
    }
    if |sent| > 0 {
      MeasuresHonestly(sync.history, sent, offset);
      ErrorBound(sync.history, sync.best, offset);
    }
  }
}
