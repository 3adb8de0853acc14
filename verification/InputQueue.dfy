/**
  * The queues in front of the pointer and touch workers. Samples may be merged into
  * the newest entry or dropped when the queue is full; edges, page commands and
  * cancellations may not.
  *
  * `stamp` numbers the arrivals and `first` is the earliest one merged into an entry;
  * the code has no such numbers, they only say which arrivals an entry stems from.
  */
module InputQueues {
  import opened Options

  datatype Work =
    | Cancellation
    | PageCommand(client: nat)
    | Pointer(client: nat, move: bool, surface: nat, buttons: nat, valid: bool, sequence: nat, timestamp: nat)
    | Wheel(client: nat, surface: nat, buttons: nat, modifiers: nat, valid: bool, sequence: nat, timestamp: nat, dx: real, dy: real)
    | Touch(client: nat, move: bool, surface: nat)

  datatype Entry = Entry(first: nat, stamp: nat, work: Work)

  /** An arrival on its own. */
  function Single(stamp: nat, work: Work): Entry {
    Entry(stamp, stamp, work)
  }

  const QUEUE_LIMIT: nat := 64

  predicate Replaceable(w: Work) {
    w.Wheel? || (w.Pointer? && w.move) || (w.Touch? && w.move)
  }

  predicate Coalesces(last: Work, next: Work) {
    && Replaceable(last) && Replaceable(next) && last.client == next.client && last.surface == next.surface
    && ((last.Pointer? && next.Pointer? && last.buttons == next.buttons)
        || (last.Wheel? && next.Wheel? && last.modifiers == next.modifiers && last.buttons == next.buttons)
        || (last.Touch? && next.Touch?))
  }

  function ClampDelta(x: real): real {
    if x < -4.0 then -4.0 else if x > 4.0 then 4.0 else x
  }

  /** What a new sample becomes when it takes the place of the newest entry. */
  function Merge(last: Work, next: Work): Work {
    if last.Wheel? && next.Wheel? then next.(dx := ClampDelta(last.dx + next.dx), dy := ClampDelta(last.dy + next.dy))
    else next
  }

  function FirstReplaceable(q: seq<Entry>, k: nat): (r: Option<nat>)
    requires k <= |q|
    ensures r.Some? ==> k <= r.value < |q| && Replaceable(q[r.value].work)
    decreases |q| - k
  {
    if k == |q| then None else if Replaceable(q[k].work) then Some(k) else FirstReplaceable(q, k + 1)
  }

  /** enqueue; None when the work is refused and its client closed. */
  function Enqueue(q: seq<Entry>, e: Entry): Option<seq<Entry>> {
    var n := |q|;
    if n > 0 && Coalesces(q[n - 1].work, e.work) then Some(q[..n - 1] + [Entry(q[n - 1].first, e.stamp, Merge(q[n - 1].work, e.work))])
    else if n >= QUEUE_LIMIT then
      var k := FirstReplaceable(q, 0);
      if k.None? then None else Some(q[..k.value] + q[k.value + 1..] + [e])
    else Some(q + [e])
  }

  class InputQueue {
    var queue: seq<Entry>

    constructor ()
      ensures queue == []
    {
      queue := [];
    }

    /** Appends, merges, makes room or refuses. */
    method Add(e: Entry) returns (accepted: bool)
      modifies this
      ensures var r := Enqueue(old(queue), e); accepted == r.Some? && queue == if accepted then r.value else old(queue)
    {
      var n := |queue|;
      if n > 0 && Coalesces(queue[n - 1].work, e.work) {
        queue := queue[n - 1 := Entry(queue[n - 1].first, e.stamp, Merge(queue[n - 1].work, e.work))];
        assert queue == old(queue)[..n - 1] + [queue[n - 1]];
        return true;
      }
      if n >= QUEUE_LIMIT {
        var k := 0;
        while k < n && !Replaceable(queue[k].work)
          invariant 0 <= k <= n && queue == old(queue)
          invariant FirstReplaceable(queue, 0) == FirstReplaceable(queue, k)
        {
          k := k + 1;
        }
        if k == n {
          return false;
        }
        queue := queue[..k] + queue[k + 1..];
      }
      queue := queue + [e];
      return true;
    }

    /** A cancellation is appended whatever the queue holds. */
    method AddCancellation(stamp: nat)
      modifies this
      ensures queue == old(queue) + [Single(stamp, Cancellation)]
    {
      queue := queue + [Single(stamp, Cancellation)];
    }

    method Take() returns (e: Entry)
      requires queue != []
      modifies this
      ensures [e] + queue == old(queue)
    {
      e := queue[0];
      queue := queue[1..];
    }
  }

  // ---- Runs ---------------------------------------------------------------------------------

  /** `history` is everything that arrived, `refused` the arrivals that closed their client. */
  datatype Lane = Lane(history: seq<Work>, refused: set<nat>, taken: seq<Entry>, queue: seq<Entry>)

  datatype Step = Arrive(work: Work) | Take

  predicate Next(s: Lane, step: Step, s': Lane) {
    match step
    case Arrive(work) =>
      var e := Single(|s.history|, work);
      var history := s.history + [work];
      if work == Cancellation then s' == s.(history := history, queue := s.queue + [e])
      else
        var r := Enqueue(s.queue, e);
        s' == if r.Some? then s.(history := history, queue := r.value)
              else s.(history := history, refused := s.refused + {|s.history|})
    case Take =>
      s.queue != [] && s' == s.(taken := s.taken + [s.queue[0]], queue := s.queue[1..])
  }

  const Empty := Lane([], {}, [], [])

  ghost predicate Run(states: seq<Lane>, steps: seq<Step>) {
    && |states| == |steps| + 1 && states[0] == Empty
    && forall i :: 0 <= i < |steps| ==> Next(states[i], steps[i], states[i + 1])
  }

  // ---- What an arrival comes to -----------------------------------------------------------------

  /** Samples: pointer and touch moves, and every turn of a wheel. */
  predicate Sample(w: Work) {
    w.Wheel? || ((w.Pointer? || w.Touch?) && w.move)
  }

  /** Two samples of one client on one surface, with the same buttons and, for a wheel, modifiers. */
  predicate Alike(a: Work, b: Work) {
    || (a.Pointer? && b.Pointer? && a.move && b.move && a.client == b.client && a.surface == b.surface && a.buttons == b.buttons)
    || (a.Wheel? && b.Wheel? && a.client == b.client && a.surface == b.surface && a.buttons == b.buttons && a.modifiers == b.modifiers)
    || (a.Touch? && b.Touch? && a.move && b.move && a.client == b.client && a.surface == b.surface)
  }

  /** What two samples that are alike become: the later one, with a wheel's turns added up within its range. */
  predicate Becomes(a: Work, b: Work, c: Work) {
    if a.Wheel? && b.Wheel? then
      && c.Wheel? && c == b.(dx := c.dx, dy := c.dy) && Clamped(a.dx + b.dx, c.dx) && Clamped(a.dy + b.dy, c.dy)
    else c == b
  }

  predicate Clamped(x: real, r: real) {
    -4.0 <= r <= 4.0 && (-4.0 <= x <= 4.0 ==> r == x) && (x < -4.0 ==> r == -4.0) && (x > 4.0 ==> r == 4.0)
  }

  predicate FirstSample(q: seq<Entry>, k: nat) {
    k < |q| && Sample(q[k].work) && forall i :: 0 <= i < k ==> !Sample(q[i].work)
  }

  lemma {:induction false} FirstReplaceableIs(q: seq<Entry>, k: nat)
    requires k <= |q| && forall i :: 0 <= i < k ==> !Sample(q[i].work)
    ensures var r := FirstReplaceable(q, k);
            if r.Some? then FirstSample(q, r.value) else forall i :: 0 <= i < |q| ==> !Sample(q[i].work)
    decreases |q| - k
  {
    if k < |q| && !Replaceable(q[k].work) {
      FirstReplaceableIs(q, k + 1);
    }
  }

  /**
    * An arrival is merged with the newest entry when both are alike; else it is appended when fewer
    * than 64 wait; else the first sample that waits makes room for it; and only if none does, it is refused.
    */
  lemma EnqueueOutcome(q: seq<Entry>, e: Entry)
    ensures var n := |q|;
            if n > 0 && Alike(q[n - 1].work, e.work) then
              && Enqueue(q, e).Some?
              && var q' := Enqueue(q, e).value;
                 && |q'| == n && q'[..n - 1] == q[..n - 1] && q'[n - 1].first == q[n - 1].first && q'[n - 1].stamp == e.stamp
                 && Becomes(q[n - 1].work, e.work, q'[n - 1].work)
            else if n < 64 then Enqueue(q, e) == Some(q + [e])
            else if exists i :: 0 <= i < n && Sample(q[i].work) then
              exists k: nat :: FirstSample(q, k) && Enqueue(q, e) == Some(q[..k] + q[k + 1..] + [e])
            else Enqueue(q, e) == None
  {
    FirstReplaceableIs(q, 0);
  }

  // ---- What every step keeps ------------------------------------------------------------------

  /** What has been handed to the worker and what waits for it, in order. */
  function Line(s: Lane): seq<Entry> {
    s.taken + s.queue
  }

  predicate InRange(x: real) {
    -4.0 <= x <= 4.0
  }

  function Delta(w: Work, horizontal: bool): real {
    if !w.Wheel? then 0.0 else if horizontal then w.dx else w.dy
  }

  /** The deltas of the arrivals from `first` to `n` that were not refused, added up and clamped one by one. */
  function Sum(history: seq<Work>, refused: set<nat>, first: nat, n: nat, horizontal: bool): real
    requires first <= n < |history|
    decreases n
  {
    if n == first then Delta(history[n], horizontal)
    else if n in refused then Sum(history, refused, first, n - 1, horizontal)
    else ClampDelta(Sum(history, refused, first, n - 1, horizontal) + Delta(history[n], horizontal))
  }

  /** Nothing but samples of one kind, client and surface arrived from `first` to `stamp`, refused work apart. */
  predicate OneRun(history: seq<Work>, refused: set<nat>, first: nat, stamp: nat)
    requires first <= stamp < |history|
  {
    forall k :: first <= k < stamp && k !in refused ==> Coalesces(history[k], history[stamp])
  }

  /** The entry is its latest arrival; a wheel's deltas are those of its whole run of arrivals. */
  predicate StemsFrom(e: Entry, history: seq<Work>, refused: set<nat>) {
    && e.first <= e.stamp < |history| && e.stamp !in refused
    && OneRun(history, refused, e.first, e.stamp)
    && var h := history[e.stamp];
       if h.Wheel? then
         e.work == h.(dx := Sum(history, refused, e.first, e.stamp, true), dy := Sum(history, refused, e.first, e.stamp, false))
       else e.work == h
  }

  /** The runs of two entries do not overlap: no sample has moved across what came between. */
  predicate Before(es: seq<Entry>, i: nat, j: nat)
    requires i < j < |es|
  {
    es[i].stamp < es[j].first
  }

  predicate InOrder(es: seq<Entry>) {
    forall i, j :: 0 <= i < j < |es| ==> Before(es, i, j)
  }

  predicate Has(es: seq<Entry>, stamp: nat) {
    exists i :: 0 <= i < |es| && es[i].stamp == stamp
  }

  /** The arrival is in the line if it has to be. */
  predicate Kept(es: seq<Entry>, history: seq<Work>, refused: set<nat>, stamp: nat) {
    stamp < |history| && !Replaceable(history[stamp]) && stamp !in refused ==> Has(es, stamp)
  }

  /** A line of entries in arrival order, in which nothing is missing but samples and refused work. */
  ghost predicate Faithful(es: seq<Entry>, history: seq<Work>, refused: set<nat>) {
    && InOrder(es)
    && (forall i :: 0 <= i < |es| ==> StemsFrom(es[i], history, refused))
    && (forall stamp :: Kept(es, history, refused, stamp))
  }

  function Pending(q: seq<Entry>): nat {
    if q == [] then 0 else Pending(q[..|q| - 1]) + if q[|q| - 1].work == Cancellation then 0 else 1
  }

  /** Since the newest entry that waits, everything was refused. */
  predicate NewestLast(s: Lane) {
    s.queue != [] ==> forall k :: s.queue[|s.queue| - 1].stamp < k < |s.history| ==> k in s.refused
  }

  ghost predicate Inv(s: Lane) {
    && Faithful(Line(s), s.history, s.refused) && Pending(s.queue) <= QUEUE_LIMIT
    && NewestLast(s) && (forall k :: k in s.refused ==> k < |s.history|)
  }

  lemma {:induction false} SumStays(history: seq<Work>, refused: set<nat>, first: nat, n: nat, horizontal: bool, work: Work, refused': set<nat>)
    requires first <= n < |history| && (refused' == refused || refused' == refused + {|history|})
    ensures Sum(history + [work], refused', first, n, horizontal) == Sum(history, refused, first, n, horizontal)
    decreases n
  {
    if n > first {
      SumStays(history, refused, first, n - 1, horizontal, work, refused');
    }
  }

  lemma {:induction false} SumSkips(history: seq<Work>, refused: set<nat>, first: nat, m: nat, n: nat, horizontal: bool)
    requires first <= m <= n < |history| && forall k :: m < k <= n ==> k in refused
    ensures Sum(history, refused, first, n, horizontal) == Sum(history, refused, first, m, horizontal)
    decreases n
  {
    if m < n {
      SumSkips(history, refused, first, m, n - 1, horizontal);
    }
  }

  lemma StemsStays(e: Entry, history: seq<Work>, refused: set<nat>, work: Work, refused': set<nat>)
    requires StemsFrom(e, history, refused) && (refused' == refused || refused' == refused + {|history|})
    ensures StemsFrom(e, history + [work], refused')
  {
    SumStays(history, refused, e.first, e.stamp, true, work, refused');
    SumStays(history, refused, e.first, e.stamp, false, work, refused');
  }

  /** A sample merged into the newest entry lengthens its run. */
  lemma MergeStems(last: Entry, history: seq<Work>, refused: set<nat>, work: Work)
    requires StemsFrom(last, history, refused) && Coalesces(last.work, work)
    requires forall k :: last.stamp < k < |history| ==> k in refused
    requires |history| !in refused
    ensures StemsFrom(Entry(last.first, |history|, Merge(last.work, work)), history + [work], refused)
  {
    var history', n := history + [work], |history|;
    forall k | last.first <= k < n && k !in refused ensures Coalesces(history'[k], work) {
      assert k < last.stamp ==> Coalesces(history[k], history[last.stamp]);
    }
    MergedSum(last, history, refused, work, true);
    MergedSum(last, history, refused, work, false);
  }

  lemma MergedSum(last: Entry, history: seq<Work>, refused: set<nat>, work: Work, horizontal: bool)
    requires StemsFrom(last, history, refused) && |history| !in refused
    requires forall k :: last.stamp < k < |history| ==> k in refused
    ensures Sum(history + [work], refused, last.first, |history|, horizontal)
            == ClampDelta(Sum(history, refused, last.first, last.stamp, horizontal) + Delta(work, horizontal))
  {
    var n := |history|;
    SumSkips(history, refused, last.first, last.stamp, n - 1, horizontal);
    SumStays(history, refused, last.first, n - 1, horizontal, work, refused);
  }

  function Without(es: seq<Entry>, k: nat): seq<Entry>
    requires k < |es|
  {
    es[..k] + es[k + 1..]
  }

  lemma HasAppend(es: seq<Entry>, e: Entry, stamp: nat)
    requires Has(es, stamp) || stamp == e.stamp
    ensures Has(es + [e], stamp)
  {
    var es' := es + [e];
    if Has(es, stamp) {
      var i :| 0 <= i < |es| && es[i].stamp == stamp;
      assert es'[i].stamp == stamp;
    } else {
      assert es'[|es|].stamp == stamp;
    }
  }

  lemma HasWithout(es: seq<Entry>, k: nat, stamp: nat)
    requires k < |es| && Has(es, stamp) && stamp != es[k].stamp
    ensures Has(Without(es, k), stamp)
  {
    var i :| 0 <= i < |es| && es[i].stamp == stamp;
    assert Without(es, k)[if i < k then i else i - 1].stamp == stamp;
  }

  /** The newest arrival goes to the end of the line. */
  lemma AppendKeeps(es: seq<Entry>, e: Entry, history: seq<Work>, work: Work, refused: set<nat>)
    requires Faithful(es, history, refused) && e.stamp == |history| && StemsFrom(e, history + [work], refused)
    requires forall i :: 0 <= i < |es| ==> es[i].stamp < e.first
    ensures Faithful(es + [e], history + [work], refused)
  {
    var es', history' := es + [e], history + [work];
    forall i | 0 <= i < |es'| ensures StemsFrom(es'[i], history', refused) {
      if i < |es| {
        StemsStays(es[i], history, refused, work, refused);
      }
    }
    forall i, j | 0 <= i < j < |es'| ensures Before(es', i, j) {
      if j < |es| {
        assert Before(es, i, j);
      }
    }
    forall stamp ensures Kept(es', history', refused, stamp) {
      assert Kept(es, history, refused, stamp);
      if Has(es, stamp) || stamp == e.stamp {
        HasAppend(es, e, stamp);
      }
    }
  }

  /** A sample leaves the line. */
  lemma WithoutKeeps(es: seq<Entry>, k: nat, history: seq<Work>, refused: set<nat>)
    requires Faithful(es, history, refused) && k < |es| && Replaceable(es[k].work)
    ensures Faithful(Without(es, k), history, refused)
  {
    var es' := Without(es, k);
    assert StemsFrom(es[k], history, refused);
    forall i | 0 <= i < |es'| ensures StemsFrom(es'[i], history, refused) {
      assert StemsFrom(es[if i < k then i else i + 1], history, refused);
    }
    forall i, j | 0 <= i < j < |es'| ensures Before(es', i, j) {
      assert Before(es, if i < k then i else i + 1, if j < k then j else j + 1);
    }
    forall stamp ensures Kept(es', history, refused, stamp) {
      assert Kept(es, history, refused, stamp);
      if Has(es, stamp) && stamp != es[k].stamp {
        HasWithout(es, k, stamp);
      }
    }
  }

  lemma RefuseKeeps(es: seq<Entry>, history: seq<Work>, work: Work, refused: set<nat>)
    requires Faithful(es, history, refused)
    ensures Faithful(es, history + [work], refused + {|history|})
  {
    forall i | 0 <= i < |es| ensures StemsFrom(es[i], history + [work], refused + {|history|}) {
      StemsStays(es[i], history, refused, work, refused + {|history|});
    }
    forall stamp ensures Kept(es, history + [work], refused + {|history|}, stamp) {
      assert Kept(es, history, refused, stamp);
    }
  }

  lemma PendingAppend(q: seq<Entry>, e: Entry)
    ensures Pending(q + [e]) == Pending(q) + if e.work == Cancellation then 0 else 1
  {
    assert (q + [e])[..|q|] == q;
  }

  lemma {:induction false} PendingBound(q: seq<Entry>)
    ensures Pending(q) <= |q|
    decreases |q|
  {
    if q != [] {
      PendingBound(q[..|q| - 1]);
    }
  }

  lemma {:induction false} PendingWithout(q: seq<Entry>, k: nat)
    requires k < |q|
    ensures Pending(Without(q, k)) == Pending(q) - if q[k].work == Cancellation then 0 else 1
    decreases |q|
  {
    var n := |q| - 1;
    if k == n {
      assert Without(q, k) == q[..n];
    } else {
      assert Without(q, k) == Without(q[..n], k) + [q[n]];
      PendingWithout(q[..n], k);
      PendingAppend(Without(q[..n], k), q[n]);
    }
  }

  /** Taking the head changes nothing in the line, and never adds to what is pending. */
  lemma {:induction false} PendingTail(q: seq<Entry>)
    requires q != []
    ensures Pending(q[1..]) <= Pending(q)
  {
    PendingWithout(q, 0);
    assert Without(q, 0) == q[1..];
  }

  /**
    * An accepted arrival leaves the queue as it was, or without one replaceable entry,
    * and stands at its end, on its own or merged with the newest one that it replaces.
    */
  lemma EnqueueShape(q: seq<Entry>, e: Entry) returns (k: nat, e': Entry)
    requires Enqueue(q, e).Some?
    ensures e' == e || (k + 1 == |q| && Coalesces(q[k].work, e.work) && e' == Entry(q[k].first, e.stamp, Merge(q[k].work, e.work)))
    ensures k < |q| ==> Replaceable(q[k].work) && Enqueue(q, e).value == Without(q, k) + [e']
    ensures k >= |q| ==> |q| < QUEUE_LIMIT && e' == e && Enqueue(q, e).value == q + [e']
  {
    var n := |q|;
    e' := e;
    if n > 0 && Coalesces(q[n - 1].work, e.work) {
      k, e' := n - 1, Entry(q[n - 1].first, e.stamp, Merge(q[n - 1].work, e.work));
    } else if n >= QUEUE_LIMIT {
      k := FirstReplaceable(q, 0).value;
    } else {
      k := n;
    }
  }

  lemma SingleStems(s: Lane, work: Work)
    requires Inv(s)
    ensures StemsFrom(Single(|s.history|, work), s.history + [work], s.refused)
    ensures forall i :: 0 <= i < |Line(s)| ==> Line(s)[i].stamp < |s.history|
  {
    forall i | 0 <= i < |Line(s)| ensures Line(s)[i].stamp < |s.history| {
      assert StemsFrom(Line(s)[i], s.history, s.refused);
    }
  }

  lemma DisplaceKeeps(s: Lane, work: Work, k: nat, e': Entry, s': Lane)
    requires Inv(s) && k < |s.queue| && Replaceable(s.queue[k].work)
    requires e'.stamp == |s.history| && StemsFrom(e', s.history + [work], s.refused)
    requires forall i :: 0 <= i < |Line(s)| && i != |s.taken| + k ==> Line(s)[i].stamp < e'.first
    requires s' == s.(history := s.history + [work], queue := Without(s.queue, k) + [e'])
    requires work != Cancellation
    ensures Inv(s')
  {
    var line, at := Line(s), |s.taken| + k;
    assert line[at] == s.queue[k];
    WithoutKeeps(line, at, s.history, s.refused);
    forall i | 0 <= i < |Without(line, at)| ensures Without(line, at)[i].stamp < e'.first {
      assert Without(line, at)[i] == line[if i < at then i else i + 1];
    }
    AppendKeeps(Without(line, at), e', s.history, work, s.refused);
    assert Line(s') == Without(line, at) + [e'];
    PendingWithout(s.queue, k);
    PendingAppend(Without(s.queue, k), e');
  }

  lemma AppendedKeeps(s: Lane, work: Work, s': Lane)
    requires Inv(s) && (work == Cancellation || |s.queue| < QUEUE_LIMIT)
    requires s' == s.(history := s.history + [work], queue := s.queue + [Single(|s.history|, work)])
    ensures Inv(s')
  {
    var e := Single(|s.history|, work);
    SingleStems(s, work);
    AppendKeeps(Line(s), e, s.history, work, s.refused);
    assert Line(s') == Line(s) + [e];
    PendingAppend(s.queue, e);
    PendingBound(s.queue);
  }

  lemma MergedKeeps(s: Lane, work: Work, s': Lane)
    requires Inv(s) && s.queue != [] && work != Cancellation
    requires var last := s.queue[|s.queue| - 1];
             && Coalesces(last.work, work)
             && s' == s.(history := s.history + [work],
                         queue := Without(s.queue, |s.queue| - 1) + [Entry(last.first, |s.history|, Merge(last.work, work))])
    ensures Inv(s')
  {
    var k := |s.queue| - 1;
    var at := |s.taken| + k;
    var last := s.queue[k];
    assert Line(s)[at] == last && StemsFrom(Line(s)[at], s.history, s.refused);
    MergeStems(last, s.history, s.refused, work);
    forall i | 0 <= i < |Line(s)| && i != at ensures Line(s)[i].stamp < last.first {
      assert Before(Line(s), i, at);
    }
    DisplaceKeeps(s, work, k, Entry(last.first, |s.history|, Merge(last.work, work)), s');
  }

  lemma ArriveKeeps(s: Lane, work: Work, s': Lane)
    requires Inv(s) && Next(s, Arrive(work), s')
    ensures Inv(s')
  {
    var e := Single(|s.history|, work);
    if work == Cancellation {
      AppendedKeeps(s, work, s');
    } else if Enqueue(s.queue, e).Some? {
      var k, e' := EnqueueShape(s.queue, e);
      if e' != e {
        MergedKeeps(s, work, s');
      } else if k < |s.queue| {
        SingleStems(s, work);
        DisplaceKeeps(s, work, k, e, s');
      } else {
        AppendedKeeps(s, work, s');
      }
    } else {
      RefuseKeeps(Line(s), s.history, work, s.refused);
    }
  }

  lemma StepKeeps(s: Lane, step: Step, s': Lane)
    requires Inv(s) && Next(s, step, s')
    ensures Inv(s')
  {
    match step
    case Arrive(work) => ArriveKeeps(s, work, s');
    case Take =>
      assert Line(s') == Line(s);
      PendingTail(s.queue);
  }

  /**
    * In every run: what the worker gets is in arrival order; every edge, command and
    * cancellation that was not refused with its client closed is among it or waits;
    * a merged sample stands for a run of arrivals with nothing between them, and a
    * wheel's deltas are that run's clamped sum; at most 64 entries besides
    * cancellations wait.
    */
  lemma {:induction false} RunKeeps(states: seq<Lane>, steps: seq<Step>, n: nat)
    requires Run(states, steps) && n < |states|
    ensures Inv(states[n])
    decreases n
  {
    if n > 0 {
      RunKeeps(states, steps, n - 1);
      StepKeeps(states[n - 1], steps[n - 1], states[n]);
    }
  }

  lemma {:induction false} SumInRange(history: seq<Work>, refused: set<nat>, first: nat, n: nat, horizontal: bool)
    requires first <= n < |history| && InRange(Delta(history[first], horizontal))
    ensures InRange(Sum(history, refused, first, n, horizontal))
    decreases n
  {
    if n > first {
      SumInRange(history, refused, first, n - 1, horizontal);
    }
  }

  /** With deltas in range on arrival, so they stay. */
  lemma DeltasStayInRange(s: Lane, i: nat)
    requires Inv(s) && i < |Line(s)| && Line(s)[i].work.Wheel?
    requires forall h :: h in s.history && h.Wheel? ==> InRange(h.dx) && InRange(h.dy)
    ensures InRange(Line(s)[i].work.dx) && InRange(Line(s)[i].work.dy)
  {
    var e := Line(s)[i];
    assert StemsFrom(e, s.history, s.refused);
    assert s.history[e.first] in s.history;
    SumInRange(s.history, s.refused, e.first, e.stamp, true);
    SumInRange(s.history, s.refused, e.first, e.stamp, false);
  }
}
