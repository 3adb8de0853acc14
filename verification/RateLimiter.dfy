/**
  * The sliding-window limiter in front of pairing and authentication. It keeps recent
  * hits of recent peers only; what it answers is what a reference that remembers every
  * call would answer. Times are in milliseconds.
  */
module RateLimiters {
  const MINUTE: int := 60000
  const MAX_PEERS: nat := 4096

  datatype Window = Window(hits: seq<int>, last: int)

  datatype Outcome = Accepted | Limited | Full

  /** The times after the cutoff. */
  function Recent(times: seq<int>, cutoff: int): seq<int> {
    if times == [] then []
    else
      var n := |times| - 1;
      Recent(times[..n], cutoff) + if times[n] > cutoff then [times[n]] else []
  }

  function Pruned(windows: map<nat, Window>, cutoff: int): map<nat, Window> {
    map ip | ip in windows && windows[ip].last >= cutoff :: windows[ip]
  }

  datatype Answer = Answer(windows: map<nat, Window>, outcome: Outcome)

  function Kept(pruned: map<nat, Window>, ip: nat, cutoff: int): seq<int> {
    if ip in pruned then Recent(pruned[ip].hits, cutoff) else []
  }

  /** allowRate. */
  function Allow(windows: map<nat, Window>, ip: nat, limit: nat, now: int): Answer {
    var cutoff := now - MINUTE;
    var pruned := Pruned(windows, cutoff);
    if ip !in pruned && |pruned| >= MAX_PEERS then Answer(pruned, Full)
    else
      var kept := Kept(pruned, ip, cutoff);
      if |kept| >= limit then Answer(pruned[ip := Window(kept, now)], Limited)
      else Answer(pruned[ip := Window(kept + [now], now)], Accepted)
  }

  class RateLimiter {
    const limit: nat
    var windows: map<nat, Window>

    constructor (limit: nat)
      ensures this.limit == limit && windows == map[]
    {
      this.limit := limit;
      windows := map[];
    }

    method Prune(cutoff: int)
      modifies this
      ensures windows == Pruned(old(windows), cutoff)
    {
      var todo := windows.Keys;
      while todo != {}
        invariant todo <= old(windows).Keys
        invariant forall ip :: ip in windows <==> ip in old(windows) && (ip in todo || old(windows)[ip].last >= cutoff)
        invariant forall ip :: ip in windows ==> windows[ip] == old(windows)[ip]
        decreases todo
      {
        var ip :| ip in todo;
        if windows[ip].last < cutoff {
          windows := windows - {ip};
        }
        todo := todo - {ip};
      }
    }

    method Request(ip: nat, now: int) returns (ok: bool)
      modifies this
      ensures var a := Allow(old(windows), ip, limit, now); windows == a.windows && (ok <==> a.outcome == Accepted)
    {
      var cutoff := now - MINUTE;
      Prune(cutoff);
      if ip !in windows {
        if |windows| >= MAX_PEERS {
          return false;
        }
        windows := windows[ip := Window([], now)];
      }
      var hits := windows[ip].hits;
      var kept: seq<int> := [];
      assert hits[..|hits|] == hits;
      for i := 0 to |hits|
        invariant kept == Recent(hits[..i], cutoff) && windows == old(Pruned(windows, cutoff))[ip := windows[ip]] && ip in windows
        invariant windows[ip].hits == hits
      {
        assert hits[..i + 1][..i] == hits[..i];
        if hits[i] > cutoff {
          kept := kept + [hits[i]];
        }
      }
      windows := windows[ip := Window(kept, now)];
      if |kept| >= limit {
        return false;
      }
      windows := windows[ip := Window(kept + [now], now)];
      return true;
    }
  }

  // ---- The reference ---------------------------------------------------------------------------

  datatype Call = Call(ip: nat, time: int, outcome: Outcome)

  /** A call that a full table turned away leaves no trace. */
  predicate Counts(call: Call, ip: nat) {
    call.ip == ip && call.outcome != Full
  }

  function Hits(history: seq<Call>, ip: nat): seq<int> {
    if history == [] then []
    else
      var n := |history| - 1;
      Hits(history[..n], ip) + if history[n].ip == ip && history[n].outcome == Accepted then [history[n].time] else []
  }

  predicate SeenSince(history: seq<Call>, ip: nat, cutoff: int) {
    exists i :: 0 <= i < |history| && Counts(history[i], ip) && history[i].time >= cutoff
  }

  function Peers(history: seq<Call>, cutoff: int): set<nat> {
    set i | 0 <= i < |history| && history[i].outcome != Full && history[i].time >= cutoff :: history[i].ip
  }

  /** The decision from the whole history. */
  function Decide(history: seq<Call>, ip: nat, limit: nat, now: int): Outcome {
    var cutoff := now - MINUTE;
    if !SeenSince(history, ip, cutoff) && |Peers(history, cutoff)| >= MAX_PEERS then Full
    else if |Recent(Hits(history, ip), cutoff)| >= limit then Limited
    else Accepted
  }

  // ---- Agreement -----------------------------------------------------------------------------------

  /** `last` is the time of the address's latest call that counts. */
  predicate Latest(history: seq<Call>, ip: nat, last: int) {
    && (exists i :: 0 <= i < |history| && Counts(history[i], ip) && history[i].time == last)
    && forall i :: 0 <= i < |history| && Counts(history[i], ip) ==> history[i].time <= last
  }

  predicate Gone(history: seq<Call>, ip: nat, cutoff: int) {
    forall i :: 0 <= i < |history| && Counts(history[i], ip) ==> history[i].time < cutoff
  }

  ghost predicate WindowOk(w: Window, history: seq<Call>, ip: nat, cutoff: int) {
    Latest(history, ip, w.last) && forall c :: c >= cutoff ==> SameRecent(w.hits, Hits(history, ip), c)
  }

  predicate SameRecent(a: seq<int>, b: seq<int>, c: int) {
    Recent(a, c) == Recent(b, c)
  }

  ghost predicate Tracks(windows: map<nat, Window>, history: seq<Call>, cutoff: int) {
    && (forall ip :: ip in windows ==> WindowOk(windows[ip], history, ip, cutoff))
    && (forall ip :: ip !in windows ==> Gone(history, ip, cutoff))
  }

  lemma {:induction false} RecentAppend(times: seq<int>, t: int, c: int)
    ensures Recent(times + [t], c) == Recent(times, c) + if t > c then [t] else []
  {
    assert (times + [t])[..|times|] == times;
  }

  lemma {:induction false} RecentRecent(times: seq<int>, cutoff: int, c: int)
    requires cutoff <= c
    ensures Recent(Recent(times, cutoff), c) == Recent(times, c)
    decreases |times|
  {
    if times != [] {
      var n := |times| - 1;
      RecentRecent(times[..n], cutoff, c);
      if times[n] > cutoff {
        RecentAppend(Recent(times[..n], cutoff), times[n], c);
      } else {
        assert Recent(times, cutoff) == Recent(times[..n], cutoff);
      }
    }
  }

  lemma {:induction false} GoneHasNoHits(history: seq<Call>, ip: nat, cutoff: int)
    requires Gone(history, ip, cutoff)
    ensures Recent(Hits(history, ip), cutoff) == []
    decreases |history|
  {
    if history != [] {
      var n := |history| - 1;
      assert Gone(history[..n], ip, cutoff);
      GoneHasNoHits(history[..n], ip, cutoff);
      if history[n].ip == ip && history[n].outcome == Accepted {
        assert Counts(history[n], ip);
        RecentAppend(Hits(history[..n], ip), history[n].time, cutoff);
      } else {
        assert Hits(history, ip) == Hits(history[..n], ip);
      }
    }
  }

  /** Pruning keeps the agreement, at the later cutoff. */
  lemma PrunedTracks(windows: map<nat, Window>, history: seq<Call>, before: int, cutoff: int)
    requires Tracks(windows, history, before) && before <= cutoff
    ensures Tracks(Pruned(windows, cutoff), history, cutoff)
    ensures Pruned(windows, cutoff).Keys == Peers(history, cutoff)
    ensures forall ip :: ip in Pruned(windows, cutoff) <==> SeenSince(history, ip, cutoff)
  {
    var pruned := Pruned(windows, cutoff);
    forall ip ensures ip in pruned <==> SeenSince(history, ip, cutoff) {
      if ip in windows {
        assert WindowOk(windows[ip], history, ip, before);
      } else {
        assert Gone(history, ip, before);
      }
    }
    forall ip | ip in pruned ensures WindowOk(pruned[ip], history, ip, cutoff) {
      assert WindowOk(windows[ip], history, ip, before);
    }
    forall ip | ip !in pruned ensures Gone(history, ip, cutoff) {
      if ip in windows {
        assert WindowOk(windows[ip], history, ip, before);
      } else {
        assert Gone(history, ip, before);
      }
    }
    forall ip ensures ip in pruned.Keys <==> ip in Peers(history, cutoff) {
      if SeenSince(history, ip, cutoff) {
        var i :| 0 <= i < |history| && Counts(history[i], ip) && history[i].time >= cutoff;
        assert history[i].ip in Peers(history, cutoff);
      }
    }
  }

  /** The limiter and the reference take the same decision. */
  lemma SameDecision(windows: map<nat, Window>, history: seq<Call>, before: int, ip: nat, limit: nat, now: int)
    requires Tracks(windows, history, before) && before <= now - MINUTE
    ensures Allow(windows, ip, limit, now).outcome == Decide(history, ip, limit, now)
  {
    var cutoff := now - MINUTE;
    var pruned := Pruned(windows, cutoff);
    PrunedTracks(windows, history, before, cutoff);
    assert |pruned| == |pruned.Keys|;
    if ip in pruned {
      assert WindowOk(pruned[ip], history, ip, cutoff);
      assert SameRecent(pruned[ip].hits, Hits(history, ip), cutoff);
    } else {
      assert Gone(history, ip, cutoff);
      GoneHasNoHits(history, ip, cutoff);
    }
  }

  lemma HitsAppend(history: seq<Call>, call: Call, ip: nat)
    ensures Hits(history + [call], ip) == Hits(history, ip) + if call.ip == ip && call.outcome == Accepted then [call.time] else []
  {
    assert (history + [call])[..|history|] == history;
  }

  /** An address that a call does not concern is tracked as before. */
  lemma OthersTracked(w: Window, history: seq<Call>, call: Call, ip: nat, cutoff: int)
    requires WindowOk(w, history, ip, cutoff) && !Counts(call, ip)
    ensures WindowOk(w, history + [call], ip, cutoff)
  {
    var history' := history + [call];
    var i :| 0 <= i < |history| && Counts(history[i], ip) && history[i].time == w.last;
    assert Counts(history'[i], ip) && history'[i].time == w.last;
    HitsAppend(history, call, ip);
    assert Hits(history', ip) == Hits(history, ip);
    forall c | c >= cutoff ensures SameRecent(w.hits, Hits(history', ip), c) {
      assert SameRecent(w.hits, Hits(history, ip), c);
    }
  }

  /** The hits of the address the call is for, once the window has been cut back. */
  lemma CutHits(hits: seq<int>, all: seq<int>, cutoff: int, c: int)
    requires cutoff <= c && SameRecent(hits, all, c)
    ensures SameRecent(Recent(hits, cutoff), all, c)
  {
    RecentRecent(hits, cutoff, c);
  }

  lemma CallerTracked(kept: seq<int>, history: seq<Call>, ip: nat, now: int, outcome: Outcome)
    requires outcome != Full && forall i :: 0 <= i < |history| ==> history[i].time <= now
    requires forall c :: c >= now - MINUTE ==> SameRecent(kept, Hits(history, ip), c)
    ensures WindowOk(Window(if outcome == Accepted then kept + [now] else kept, now), history + [Call(ip, now, outcome)], ip, now - MINUTE)
  {
    var call := Call(ip, now, outcome);
    var history' := history + [call];
    var hits := if outcome == Accepted then kept + [now] else kept;
    assert Counts(history'[|history|], ip) && history'[|history|].time == now;
    HitsAppend(history, call, ip);
    forall c | c >= now - MINUTE ensures SameRecent(hits, Hits(history', ip), c) {
      assert SameRecent(kept, Hits(history, ip), c);
      RecentAppend(kept, now, c);
      RecentAppend(Hits(history, ip), now, c);
      assert outcome != Accepted ==> Hits(history', ip) == Hits(history, ip);
    }
  }

  lemma KeptHits(pruned: map<nat, Window>, history: seq<Call>, ip: nat, cutoff: int)
    requires Tracks(pruned, history, cutoff)
    ensures forall c :: c >= cutoff ==> SameRecent(Kept(pruned, ip, cutoff), Hits(history, ip), c)
  {
    forall c | c >= cutoff ensures SameRecent(Kept(pruned, ip, cutoff), Hits(history, ip), c) {
      if ip in pruned {
        assert WindowOk(pruned[ip], history, ip, cutoff);
        CutHits(pruned[ip].hits, Hits(history, ip), cutoff, c);
      } else {
        assert Gone(history, ip, cutoff);
        GoneHasNoHits(history, ip, cutoff);
        RecentRecent(Hits(history, ip), cutoff, c);
      }
    }
  }

  /** The other addresses after a call that turned one away or gave it the window `w`. */
  lemma EntryTracks(pruned: map<nat, Window>, history: seq<Call>, cutoff: int, call: Call, windows: map<nat, Window>)
    requires Tracks(pruned, history, cutoff)
    requires if call.outcome == Full then windows == pruned
             else call.ip in windows && windows == pruned[call.ip := windows[call.ip]]
                  && WindowOk(windows[call.ip], history + [call], call.ip, cutoff)
    ensures Tracks(windows, history + [call], cutoff)
  {
    forall peer | peer in windows ensures WindowOk(windows[peer], history + [call], peer, cutoff) {
      if !Counts(call, peer) {
        assert WindowOk(pruned[peer], history, peer, cutoff);
        OthersTracked(pruned[peer], history, call, peer, cutoff);
      }
    }
    forall peer | peer !in windows ensures Gone(history + [call], peer, cutoff) {
      assert Gone(history, peer, cutoff);
      assert !Counts(call, peer);
    }
  }

  /** A call leaves the windows in agreement with the longer history. */
  lemma CallTracks(windows: map<nat, Window>, history: seq<Call>, before: int, ip: nat, limit: nat, now: int)
    requires Tracks(windows, history, before) && before <= now - MINUTE && forall i :: 0 <= i < |history| ==> history[i].time <= now
    ensures var a := Allow(windows, ip, limit, now); Tracks(a.windows, history + [Call(ip, now, a.outcome)], now - MINUTE)
  {
    var cutoff := now - MINUTE;
    var a := Allow(windows, ip, limit, now);
    var pruned := Pruned(windows, cutoff);
    PrunedTracks(windows, history, before, cutoff);
    if a.outcome != Full {
      KeptHits(pruned, history, ip, cutoff);
      CallerTracked(Kept(pruned, ip, cutoff), history, ip, now, a.outcome);
    }
    EntryTracks(pruned, history, cutoff, Call(ip, now, a.outcome), a.windows);
  }

  // ---- Runs ------------------------------------------------------------------------------------

  datatype Request = Request(ip: nat, now: int)

  datatype Trace = Trace(windows: map<nat, Window>, history: seq<Call>)

  function Run(requests: seq<Request>, limit: nat): Trace {
    if requests == [] then Trace(map[], [])
    else
      var n := |requests| - 1;
      var t := Run(requests[..n], limit);
      var a := Allow(t.windows, requests[n].ip, limit, requests[n].now);
      Trace(a.windows, t.history + [Call(requests[n].ip, requests[n].now, a.outcome)])
  }

  /** The clock does not go back. */
  predicate Timely(requests: seq<Request>) {
    forall i, j :: 0 <= i < j < |requests| ==> requests[i].now <= requests[j].now
  }

  predicate Recorded(requests: seq<Request>, history: seq<Call>) {
    && |history| == |requests|
    && forall i :: 0 <= i < |requests| ==> history[i].ip == requests[i].ip && history[i].time == requests[i].now
  }

  lemma NothingTracked(cutoff: int)
    ensures Tracks(map[], [], cutoff)
  {
  }

  lemma {:induction false} RunRecords(requests: seq<Request>, limit: nat)
    ensures Recorded(requests, Run(requests, limit).history)
    decreases |requests|
  {
    if requests != [] {
      RunRecords(requests[..|requests| - 1], limit);
    }
  }

  /** At any time not before the last request, and so at the next one. */
  lemma {:induction false} RunTracks(requests: seq<Request>, limit: nat, before: int)
    requires Timely(requests) && (requests != [] ==> before == requests[|requests| - 1].now - MINUTE)
    ensures Tracks(Run(requests, limit).windows, Run(requests, limit).history, before)
    decreases |requests|
  {
    if requests == [] {
      NothingTracked(before);
    } else {
      var n := |requests| - 1;
      var front, r := requests[..n], requests[n];
      var t := Run(front, limit);
      var earlier := if n > 0 then front[n - 1].now - MINUTE else before;
      RunTracks(front, limit, earlier);
      RunRecords(front, limit);
      CallTracks(t.windows, t.history, earlier, r.ip, limit, r.now);
    }
  }

  /** In every run each answer is the reference's answer from the whole history before it. */
  lemma AgreesWithHistory(requests: seq<Request>, limit: nat, ip: nat, now: int)
    requires Timely(requests + [Request(ip, now)])
    ensures var t := Run(requests, limit); Allow(t.windows, ip, limit, now).outcome == Decide(t.history, ip, limit, now)
  {
    var all := requests + [Request(ip, now)];
    var t := Run(requests, limit);
    forall i, j | 0 <= i < j < |requests| ensures requests[i].now <= requests[j].now {
      assert all[i].now <= all[j].now;
    }
    var n := |requests| - 1;
    var before := if requests == [] then now - MINUTE else requests[n].now - MINUTE;
    assert requests != [] ==> all[n].now <= all[n + 1].now;
    RunTracks(requests, limit, before);
    SameDecision(t.windows, t.history, before, ip, limit, now);
  }

  /** An accepted call makes its address no more than `limit` acceptances in the minute that ends with it. */
  lemma AtMostLimit(requests: seq<Request>, limit: nat, ip: nat, now: int)
    requires Timely(requests + [Request(ip, now)])
    requires Allow(Run(requests, limit).windows, ip, limit, now).outcome == Accepted
    ensures |Recent(Hits(Run(requests, limit).history + [Call(ip, now, Accepted)], ip), now - MINUTE)| <= limit
  {
    var history := Run(requests, limit).history;
    AgreesWithHistory(requests, limit, ip, now);
    HitsAppend(history, Call(ip, now, Accepted), ip);
    RecentAppend(Hits(history, ip), now, now - MINUTE);
  }
}
