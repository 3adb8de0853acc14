/**
  * One client's video lane in the transport hub: a queue of four frames, a
  * producer that drops to the next IDR when it overflows, a pause that turns
  * the queue over to a new media epoch, and the one goroutine that writes to
  * the socket.
  *
  * The writer takes frames without the lane's lock, so a drain is a sequence of
  * single removals between which the writer can take one, and a pause is seen
  * in two parts: the paused flag first, the epoch after it.
  */
module HubLanes {
  import opened Options
  import opened AccessUnits

  const LANE_CAPACITY: nat := 4

  /** `position` counts the frames submitted in `epoch` before this one, refused ones included. */
  datatype Message = Message(au: AccessUnit, epoch: nat, position: nat)

  /** Who holds the lane's lock, and how far it has come. */
  datatype Holder =
    | Free
    | Draining(m: Message)
    | Sending(m: Message)
    | Swapped
    | PauseDraining

  /** `torn`: a drain took the frame queued directly before this dependent one. */
  datatype Written = Written(m: Message, torn: bool)

  datatype Writer =
    | Ready
    | Selected(w: Written)
    | PausePassed(w: Written)
    | Writing(w: Written)
    | Dead

  datatype Lane = Lane(
    video: seq<Message>,
    dropping: bool,
    paused: bool,
    epoch: nat,
    holder: Holder,
    writer: Writer,
    submitted: seq<AccessUnit>,
    removed: Option<Message>,
    byDrain: bool,
    selected: Option<Message>,
    written: seq<Written>)

  const Connected := Lane([], false, false, 0, Free, Ready, [], None, false, None, [])

  datatype Step =
    | Submit(au: AccessUnit)
    | TakeForDrain
    | DrainDone
    | SendAfterDrain
    | SetPaused(on: bool)
    | BumpEpoch
    | WriterSelects
    | WriterChecksPause
    | WriterChecksEpoch
    | SocketWrite(ok: bool)

  predicate Enabled(s: Lane, step: Step) {
    match step
    case Submit(_) => s.holder.Free?
    case TakeForDrain => (s.holder.Draining? || s.holder.PauseDraining?) && s.video != []
    case DrainDone => (s.holder.Draining? || s.holder.PauseDraining?) && s.video == []
    case SendAfterDrain => s.holder.Sending? && |s.video| < LANE_CAPACITY
    case SetPaused(_) => s.holder.Free?
    case BumpEpoch => s.holder.Swapped?
    case WriterSelects => s.writer.Ready? && s.video != []
    case WriterChecksPause => s.writer.Selected?
    case WriterChecksEpoch => s.writer.PausePassed?
    case SocketWrite(_) => s.writer.Writing?
  }

  function Remove(s: Lane, byDrain: bool): Lane
    requires s.video != []
  {
    s.(video := s.video[1..], removed := Some(s.video[0]), byDrain := byDrain)
  }

  /** Client.write for a video frame, up to the point where it has to drain. */
  function Accept(s: Lane, au: AccessUnit): Lane {
    if s.paused then s
    else
      var m := Message(au, s.epoch, |s.submitted|);
      var noted := s.(submitted := s.submitted + [au]);
      if s.dropping && !au.idr then noted
      else
        var open := noted.(dropping := s.dropping && !au.idr);
        if |s.video| < LANE_CAPACITY then open.(video := s.video + [m])
        else open.(holder := Draining(m))
  }

  /** Guard of the selection that hands the socket a dependent frame whose predecessor a drain took. */
  predicate TearsHead(s: Lane)
    requires s.video != []
  {
    s.byDrain && !s.video[0].au.idr && s.video[0].position > 0
  }

  function Do(s: Lane, step: Step): Lane
    requires Enabled(s, step)
  {
    match step
    case Submit(au) => Accept(s, au)
    case TakeForDrain => Remove(s, true)
    case DrainDone =>
      if s.holder.PauseDraining? then s.(holder := Free)
      else if s.holder.m.au.idr then s.(dropping := false, holder := Sending(s.holder.m))
      else s.(dropping := true, holder := Free)
    case SendAfterDrain => s.(video := s.video + [s.holder.m], holder := Free)
    case SetPaused(on) => if s.paused == on then s else s.(paused := on, holder := Swapped)
    case BumpEpoch => s.(epoch := s.epoch + 1, dropping := false, submitted := [], holder := PauseDraining)
    case WriterSelects =>
      Remove(s, false).(writer := Selected(Written(s.video[0], TearsHead(s))), selected := Some(s.video[0]))
    case WriterChecksPause => s.(writer := if s.paused then Ready else PausePassed(s.writer.w))
    case WriterChecksEpoch => s.(writer := if s.writer.w.m.epoch != s.epoch then Ready else Writing(s.writer.w))
    case SocketWrite(ok) =>
      if ok then s.(writer := Ready, written := s.written + [s.writer.w]) else s.(writer := Dead)
  }

  predicate Possible(s: Lane, steps: seq<Step>)
    decreases |steps|
  {
    steps != [] ==> Enabled(s, steps[0]) && Possible(Do(s, steps[0]), steps[1..])
  }

  function Run(s: Lane, steps: seq<Step>): Lane
    requires Possible(s, steps)
    decreases |steps|
  {
    if steps == [] then s else Run(Do(s, steps[0]), steps[1..])
  }

  // ---- The invariant -----------------------------------------------------------------

  /** Submission order across epochs. */
  predicate Earlier(a: Message, b: Message) {
    a.epoch < b.epoch || (a.epoch == b.epoch && a.position < b.position)
  }

  predicate Predecessor(a: Option<Message>, b: Message) {
    a.Some? && a.value.epoch == b.epoch && a.value.position + 1 == b.position
  }

  predicate Linked(previous: Option<Message>, m: Message) {
    && (previous.Some? ==> Earlier(previous.value, m))
    && (m.au.idr || m.position == 0 || Predecessor(previous, m))
  }

  function Before(s: Lane, j: nat): Option<Message>
    requires j < |s.video|
  {
    if j == 0 then s.removed else Some(s.video[j - 1])
  }

  function Newest(s: Lane): Option<Message> {
    if s.video != [] then Some(s.video[|s.video| - 1]) else s.removed
  }

  /** A message is known: submitted in an earlier epoch, or the frame at its position in this one. */
  predicate Known(s: Lane, m: Message) {
    m.epoch < s.epoch || (m.epoch == s.epoch && m.position < |s.submitted| && s.submitted[m.position] == m.au)
  }

  predicate KnownIfAny(s: Lane, m: Option<Message>) {
    m.Some? ==> Known(s, m.value)
  }

  predicate QueueInv(s: Lane) {
    && |s.video| <= LANE_CAPACITY
    && (forall j :: 0 <= j < |s.video| ==> Linked(Before(s, j), s.video[j]) && Known(s, s.video[j]))
    && KnownIfAny(s, s.removed)
    && KnownIfAny(s, s.selected)
    && (!s.byDrain ==> s.removed == s.selected)
    && (s.byDrain ==> s.removed.Some? && (s.selected.Some? ==> Earlier(s.selected.value, s.removed.value)))
  }

  /** The producer's side: what the next submission will come directly after. */
  predicate ProducerInv(s: Lane) {
    && (s.paused && !s.holder.Swapped? ==> s.submitted == [])
    && (!s.paused && s.holder.Swapped? ==> s.submitted == [])
    && (s.holder.PauseDraining? ==> s.submitted == [] && !s.dropping)
    && (s.holder.Draining? || s.holder.Sending? ==>
          && !s.paused
          && Known(s, s.holder.m) && s.holder.m.epoch == s.epoch && s.holder.m.position + 1 == |s.submitted|
          && (Newest(s).Some? ==> Earlier(Newest(s).value, s.holder.m)))
    && (s.holder.Sending? ==> s.video == [] && s.holder.m.au.idr && !s.dropping)
    && ((s.holder.Free? || s.holder.Swapped?) && !s.dropping && s.submitted != [] ==>
          Newest(s).Some? && Newest(s).value.epoch == s.epoch && Newest(s).value.position + 1 == |s.submitted|)
    && (s.holder.PauseDraining? ==> forall j :: 0 <= j < |s.video| ==> s.video[j].epoch < s.epoch)
  }

  /** No later frame of this epoch can pass the writer's two checks. */
  predicate Doomed(s: Lane, epoch: nat) {
    epoch < s.epoch || (epoch == s.epoch && s.paused && s.holder.Swapped?)
  }

  function LastWritten(written: seq<Written>): Option<Message> {
    if written == [] then None else Some(written[|written| - 1].m)
  }

  /** A written frame is torn exactly when it is dependent and the frame submitted before it was not written before it. */
  predicate WrittenExact(previous: Option<Message>, w: Written) {
    && (previous.Some? ==> Earlier(previous.value, w.m))
    && (w.torn <==> !w.m.au.idr && w.m.position > 0 && !Predecessor(previous, w.m))
  }

  predicate WriterInv(s: Lane) {
    var last := LastWritten(s.written);
    && (last.Some? ==> s.selected.Some? && (last == s.selected || Earlier(last.value, s.selected.value)))
    && (s.writer.Ready? && s.selected.Some? ==> last == s.selected || Doomed(s, s.selected.value.epoch))
    && (!s.writer.Ready? && !s.writer.Dead? ==> s.selected == Some(s.writer.w.m) && Known(s, s.writer.w.m))
    && (s.writer.Selected? && !Doomed(s, s.writer.w.m.epoch) ==> WrittenExact(last, s.writer.w))
    && (s.writer.PausePassed? && s.writer.w.m.epoch == s.epoch ==> WrittenExact(last, s.writer.w))
    && (s.writer.Writing? ==> WrittenExact(last, s.writer.w))
  }

  predicate HistoryInv(s: Lane) {
    forall k :: 0 <= k < |s.written| ==>
      WrittenExact(LastWritten(s.written[..k]), s.written[k]) && Known(s, s.written[k].m)
  }

  predicate Inv(s: Lane) {
    QueueInv(s) && ProducerInv(s) && WriterInv(s) && HistoryInv(s)
  }

  /** Submissions accumulate within an epoch, and epochs go forward. */
  predicate Grows(s: Lane, t: Lane) {
    s.epoch < t.epoch || (s.epoch == t.epoch && s.submitted <= t.submitted)
  }

  lemma HistoryStays(s: Lane, t: Lane)
    requires HistoryInv(s) && t.written == s.written && Grows(s, t)
    ensures HistoryInv(t)
  {
    forall k | 0 <= k < |t.written|
      ensures WrittenExact(LastWritten(t.written[..k]), t.written[k]) && Known(t, t.written[k].m)
    {
      assert Known(s, s.written[k].m);
    }
  }

  lemma QueueStays(s: Lane, t: Lane)
    requires QueueInv(s) && Grows(s, t)
    requires t.video == s.video && t.removed == s.removed && t.byDrain == s.byDrain && t.selected == s.selected
    ensures QueueInv(t)
  {
    forall j | 0 <= j < |t.video| ensures Linked(Before(t, j), t.video[j]) && Known(t, t.video[j]) {
      assert Linked(Before(s, j), s.video[j]) && Known(s, s.video[j]) && Before(s, j) == Before(t, j);
    }
  }

  lemma WriterStays(s: Lane, t: Lane)
    requires WriterInv(s) && Grows(s, t)
    requires t.writer == s.writer && t.written == s.written && t.selected == s.selected
    requires s.epoch == t.epoch && s.paused && s.holder.Swapped? ==> t.paused && t.holder.Swapped?
    requires KnownIfAny(s, s.selected)
    ensures WriterInv(t)
  {
  }

  lemma NewestKnown(s: Lane)
    requires Inv(s)
    ensures KnownIfAny(s, Newest(s))
  {
    assert s.video != [] ==> Known(s, s.video[|s.video| - 1]);
  }

  /** What the next submission comes directly after, when it is a dependent frame that is let in. */
  lemma SubmittedLinks(s: Lane, au: AccessUnit)
    requires Inv(s) && s.holder.Free? && !s.paused && (au.idr || !s.dropping)
    ensures Linked(Newest(s), Message(au, s.epoch, |s.submitted|))
  {
    NewestKnown(s);
  }

  lemma SubmittedQueue(s: Lane, m: Message, t: Lane)
    requires QueueInv(s) && Linked(Newest(s), m) && Known(t, m) && Grows(s, t) && |s.video| < LANE_CAPACITY
    requires t.video == s.video + [m] && t.removed == s.removed && t.byDrain == s.byDrain && t.selected == s.selected
    ensures QueueInv(t)
  {
    forall j | 0 <= j < |t.video| ensures Linked(Before(t, j), t.video[j]) && Known(t, t.video[j]) {
      if j < |s.video| {
        assert Before(t, j) == Before(s, j) && Linked(Before(s, j), s.video[j]) && Known(s, s.video[j]);
      } else {
        assert Before(t, j) == Newest(s);
      }
    }
  }

  lemma SubmitKeepsQueue(s: Lane, au: AccessUnit)
    requires Inv(s) && s.holder.Free? && !s.paused
    ensures QueueInv(Accept(s, au))
  {
    var t := Accept(s, au);
    if t.video == s.video {
      QueueStays(s, t);
    } else {
      SubmittedLinks(s, au);
      SubmittedQueue(s, Message(au, s.epoch, |s.submitted|), t);
    }
  }

  lemma SubmitKeepsProducer(s: Lane, au: AccessUnit)
    requires Inv(s) && s.holder.Free? && !s.paused
    ensures ProducerInv(Accept(s, au))
  {
    NewestKnown(s);
  }

  lemma SubmitKeeps(s: Lane, au: AccessUnit)
    requires Inv(s) && s.holder.Free?
    ensures Inv(Accept(s, au))
  {
    var t := Accept(s, au);
    if !s.paused {
      HistoryStays(s, t);
      WriterStays(s, t);
      SubmitKeepsQueue(s, au);
      SubmitKeepsProducer(s, au);
    }
  }

  lemma RemoveKeepsQueue(s: Lane, byDrain: bool)
    requires QueueInv(s) && s.video != []
    ensures var t := Remove(s, byDrain);
            && |t.video| <= LANE_CAPACITY
            && (forall j :: 0 <= j < |t.video| ==> Linked(Before(t, j), t.video[j]) && Known(t, t.video[j]))
            && KnownIfAny(t, t.removed)
            && Newest(t) == Newest(s)
            && (s.removed.Some? ==> Earlier(s.removed.value, s.video[0]))
  {
    var t := Remove(s, byDrain);
    assert Linked(Before(s, 0), s.video[0]) && Known(s, s.video[0]);
    forall j | 0 <= j < |t.video| ensures Linked(Before(t, j), t.video[j]) && Known(t, t.video[j]) {
      assert Before(t, j) == Before(s, j + 1) && Linked(Before(s, j + 1), s.video[j + 1]);
    }
  }

  lemma TakeForDrainKeeps(s: Lane)
    requires Inv(s) && Enabled(s, TakeForDrain)
    ensures Inv(Do(s, TakeForDrain))
  {
    RemoveKeepsQueue(s, true);
    var t := Do(s, TakeForDrain);
    HistoryStays(s, t);
    WriterStays(s, t);
    assert forall j :: 0 <= j < |t.video| ==> t.video[j] == s.video[j + 1];
  }

  lemma SelectKeepsProducer(s: Lane)
    requires Inv(s) && Enabled(s, WriterSelects)
    ensures ProducerInv(Do(s, WriterSelects))
  {
    RemoveKeepsQueue(s, false);
    var t := Do(s, WriterSelects);
    assert forall j :: 0 <= j < |t.video| ==> t.video[j] == s.video[j + 1];
  }

  lemma SelectKeepsWriter(s: Lane)
    requires Inv(s) && Enabled(s, WriterSelects)
    ensures WriterInv(Do(s, WriterSelects))
  {
    RemoveKeepsQueue(s, false);
    assert Linked(Before(s, 0), s.video[0]) && Known(s, s.video[0]);
  }

  lemma SelectKeeps(s: Lane)
    requires Inv(s) && Enabled(s, WriterSelects)
    ensures Inv(Do(s, WriterSelects))
  {
    var t := Do(s, WriterSelects);
    RemoveKeepsQueue(s, false);
    HistoryStays(s, t);
    SelectKeepsProducer(s);
    SelectKeepsWriter(s);
  }

  lemma SwapKeeps(s: Lane, on: bool)
    requires Inv(s) && s.holder.Free?
    ensures Inv(Do(s, SetPaused(on)))
  {
    var t := Do(s, SetPaused(on));
    HistoryStays(s, t);
    QueueStays(s, t);
    WriterStays(s, t);
    assert ProducerInv(t);
  }

  lemma BumpKeeps(s: Lane)
    requires Inv(s) && s.holder.Swapped?
    ensures Inv(Do(s, BumpEpoch))
  {
    var t := Do(s, BumpEpoch);
    HistoryStays(s, t);
    QueueStays(s, t);
    WriterStays(s, t);
    assert ProducerInv(t) by {
      assert forall j :: 0 <= j < |s.video| ==> Known(s, s.video[j]);
    }
  }

  lemma DrainDoneKeeps(s: Lane)
    requires Inv(s) && Enabled(s, DrainDone)
    ensures Inv(Do(s, DrainDone))
  {
    var t := Do(s, DrainDone);
    HistoryStays(s, t);
    QueueStays(s, t);
    WriterStays(s, t);
    assert ProducerInv(t);
  }

  lemma SendKeeps(s: Lane)
    requires Inv(s) && Enabled(s, SendAfterDrain)
    ensures Inv(Do(s, SendAfterDrain))
  {
    var t := Do(s, SendAfterDrain);
    HistoryStays(s, t);
    WriterStays(s, t);
    assert t.video == [s.holder.m] && Before(t, 0) == s.removed;
    assert QueueInv(t);
    assert ProducerInv(t);
  }

  lemma CheckPauseKeeps(s: Lane)
    requires Inv(s) && s.writer.Selected?
    ensures Inv(Do(s, WriterChecksPause))
  {
    var t := Do(s, WriterChecksPause);
    HistoryStays(s, t);
    QueueStays(s, t);
  }

  lemma CheckEpochKeeps(s: Lane)
    requires Inv(s) && s.writer.PausePassed?
    ensures Inv(Do(s, WriterChecksEpoch))
  {
    var t := Do(s, WriterChecksEpoch);
    HistoryStays(s, t);
    QueueStays(s, t);
  }

  lemma SocketKeeps(s: Lane, ok: bool)
    requires Inv(s) && s.writer.Writing?
    ensures Inv(Do(s, SocketWrite(ok)))
  {
    var t := Do(s, SocketWrite(ok));
    QueueStays(s, t);
    assert ProducerInv(t);
    if ok {
      var n := |s.written|;
      assert t.written[..n] == s.written;
      forall k | 0 <= k < |t.written|
        ensures WrittenExact(LastWritten(t.written[..k]), t.written[k]) && Known(t, t.written[k].m)
      {
        if k < n {
          assert t.written[..k] == s.written[..k];
        }
      }
    } else {
      HistoryStays(s, t);
    }
    assert WriterInv(t);
  }

  lemma StepKeeps(s: Lane, step: Step)
    requires Inv(s) && Enabled(s, step)
    ensures Inv(Do(s, step))
  {
    match step {
      case Submit(au) => SubmitKeeps(s, au);
      case TakeForDrain => TakeForDrainKeeps(s);
      case DrainDone => DrainDoneKeeps(s);
      case SendAfterDrain => SendKeeps(s);
      case SetPaused(on) => SwapKeeps(s, on);
      case BumpEpoch => BumpKeeps(s);
      case WriterSelects => SelectKeeps(s);
      case WriterChecksPause => CheckPauseKeeps(s);
      case WriterChecksEpoch => CheckEpochKeeps(s);
      case SocketWrite(ok) => SocketKeeps(s, ok);
    }
  }

  lemma {:induction false} RunKeeps(s: Lane, steps: seq<Step>)
    requires Inv(s) && Possible(s, steps)
    ensures Inv(Run(s, steps))
    decreases |steps|
  {
    if steps != [] {
      StepKeeps(s, steps[0]);
      RunKeeps(Do(s, steps[0]), steps[1..]);
    }
  }

  // ---- The theorems -------------------------------------------------------------------

  /**
    * In every run, each dependent frame on the socket (other than the first one
    * submitted in its epoch) comes directly after the frame submitted before it,
    * exactly when it was not torn away from it by a selection that fell between
    * two removals of a drain. Frames never overtake each other, and the frames of
    * the current epoch are the submitted ones.
    */
  lemma WrittenFramesChain(steps: seq<Step>, k: nat)
    requires Possible(Connected, steps) && k < |Run(Connected, steps).written|
    ensures var end := Run(Connected, steps);
            var w := end.written[k];
            var previous := if k == 0 then None else Some(end.written[k - 1].m);
            && (k > 0 ==> Earlier(end.written[k - 1].m, w.m))
            && (w.torn <==> !w.m.au.idr && w.m.position > 0 && !Predecessor(previous, w.m))
            && (w.m.epoch == end.epoch ==> w.m.position < |end.submitted| && end.submitted[w.m.position] == w.m.au)
  {
    RunKeeps(Connected, steps);
    var end := Run(Connected, steps);
    assert WrittenExact(LastWritten(end.written[..k]), end.written[k]);
  }

  /** The send that follows a drain always finds room, so a producer never blocks on a slow client. */
  lemma SendNeverBlocks(steps: seq<Step>)
    requires Possible(Connected, steps) && Run(Connected, steps).holder.Sending?
    ensures Enabled(Run(Connected, steps), SendAfterDrain)
  {
    RunKeeps(Connected, steps);
  }

  /**
    * Once SetMediaPaused(true) has returned, whatever happens later, everything
    * written from then on was submitted in a later epoch; the only exception is
    * the one frame whose socket write had already begun.
    */
  lemma PauseIsABoundary(before: seq<Step>, after: seq<Step>, k: nat)
    requires Possible(Connected, before) && Possible(Run(Connected, before), after)
    requires var s := Run(Connected, before); s.paused && s.holder.Free?
    requires var s := Run(Connected, before); |s.written| <= k < |Run(s, after).written|
    ensures var s := Run(Connected, before);
            var w := Run(s, after).written[k];
            w.m.epoch > s.epoch || (k == |s.written| && s.writer == Writing(w))
  {
    RunKeeps(Connected, before);
    var s := Run(Connected, before);
    BoundaryRun(s.epoch, s, s, after);
  }

  /** Everything written since `origin` was paused, and everything the writer has let through, is newer. */
  predicate Bounded(epoch: nat, origin: Lane, s: Lane) {
    && epoch <= s.epoch
    && (s.epoch == epoch ==> s.submitted == [] && (s.paused || s.holder.Swapped?))
    && origin.written <= s.written
    && (forall k :: |origin.written| <= k < |s.written| ==>
          s.written[k].m.epoch > epoch || (k == |origin.written| && origin.writer == Writing(s.written[k])))
    && (s.writer.Writing? ==>
          s.writer.w.m.epoch > epoch || (s.written == origin.written && origin.writer == s.writer))
  }

  /** A step that leaves the writer and what it wrote alone. */
  lemma BoundarySame(epoch: nat, origin: Lane, s: Lane, t: Lane)
    requires Bounded(epoch, origin, s) && t.written == s.written && s.epoch <= t.epoch
    requires t.writer == s.writer || !t.writer.Writing?
    requires t.epoch == epoch ==> t.submitted == [] && (t.paused || t.holder.Swapped?)
    ensures Bounded(epoch, origin, t)
  {
  }

  lemma BoundaryWrite(epoch: nat, origin: Lane, s: Lane, ok: bool)
    requires Bounded(epoch, origin, s) && s.writer.Writing?
    ensures Bounded(epoch, origin, Do(s, SocketWrite(ok)))
  {
    var t := Do(s, SocketWrite(ok));
    assert ok ==> t.written[..|s.written|] == s.written;
  }

  lemma BoundaryCheck(epoch: nat, origin: Lane, s: Lane)
    requires Inv(s) && Bounded(epoch, origin, s) && s.writer.PausePassed?
    ensures Bounded(epoch, origin, Do(s, WriterChecksEpoch))
  {
    assert WriterInv(s);
  }

  lemma BoundaryStep(epoch: nat, origin: Lane, s: Lane, step: Step)
    requires Inv(s) && Bounded(epoch, origin, s) && Enabled(s, step)
    ensures Bounded(epoch, origin, Do(s, step))
  {
    match step {
      case SocketWrite(ok) => BoundaryWrite(epoch, origin, s, ok);
      case WriterChecksEpoch => BoundaryCheck(epoch, origin, s);
      case _ =>
        assert ProducerInv(s);
        BoundarySame(epoch, origin, s, Do(s, step));
    }
  }

  lemma {:induction false} BoundaryRun(epoch: nat, origin: Lane, s: Lane, steps: seq<Step>)
    requires Inv(s) && Bounded(epoch, origin, s) && Possible(s, steps)
    ensures Bounded(epoch, origin, Run(s, steps))
    decreases |steps|
  {
    if steps != [] {
      BoundaryStep(epoch, origin, s, steps[0]);
      StepKeeps(s, steps[0]);
      BoundaryRun(epoch, origin, Do(s, steps[0]), steps[1..]);
    }
  }

  // ---- A torn frame really happens ---------------------------------------------------------

  lemma Extend(s: Lane, step: Step, rest: seq<Step>)
    requires Enabled(s, step) && Possible(Do(s, step), rest)
    ensures Possible(s, [step] + rest) && Run(s, [step] + rest) == Run(Do(s, step), rest)
  {
    assert ([step] + rest)[1..] == rest;
  }

  /** Four frames fill the lane and a fifth finds it full. */
  lemma OverflowingRun() returns (steps: seq<Step>)
    ensures Possible(Connected, steps)
    ensures Run(Connected, steps) == Overflowing()
  {
    steps := [];
    var i := 5;
    while i > 0
      invariant 0 <= i <= 5
      invariant Possible(Filled(i), steps) && Run(Filled(i), steps) == Overflowing()
    {
      assert Do(Filled(i - 1), Submit(Frame(i))) == Filled(i);
      Extend(Filled(i - 1), Submit(Frame(i)), steps);
      steps := [Submit(Frame(i))] + steps;
      i := i - 1;
    }
  }

  function Frame(i: nat): AccessUnit {
    AccessUnit(i, 1, i == 1)
  }

  function Frames(n: nat): (r: seq<AccessUnit>)
    ensures |r| == n
  {
    if n == 0 then [] else Frames(n - 1) + [Frame(n)]
  }

  function Queued(n: nat): (r: seq<Message>)
    ensures |r| == n
  {
    if n == 0 then [] else Queued(n - 1) + [Message(Frame(n), 0, n - 1)]
  }

  function Filled(n: nat): Lane {
    if n <= 4 then Connected.(video := Queued(n), submitted := Frames(n))
    else Connected.(video := Queued(4), submitted := Frames(5), holder := Draining(Message(Frame(5), 0, 4)))
  }

  function Overflowing(): Lane {
    Filled(5)
  }

  /** The fifth frame overflows the lane; the drain takes the first while the writer takes the second. */
  lemma TornFrameExists() returns (steps: seq<Step>)
    ensures Possible(Connected, steps)
    ensures Run(Connected, steps).written == [Written(Message(Frame(2), 0, 1), true)]
    ensures Run(Connected, steps).submitted == Frames(5)
  {
    var fill := OverflowingRun();
    var s5 := Overflowing();
    assert Queued(2) == [Message(Frame(1), 0, 0), Message(Frame(2), 0, 1)];
    assert s5.video[..2] == Queued(2);
    var s6 := Do(s5, TakeForDrain);
    assert s6.video[0] == Message(Frame(2), 0, 1);
    var rest := WriteNextIsARun(s6);
    Extend(s5, TakeForDrain, rest);
    RunConcat(Connected, fill, [TakeForDrain] + rest);
    steps := fill + ([TakeForDrain] + rest);
  }

  // ---- The object ----------------------------------------------------------------------------

  function DrainAll(s: Lane): Lane
    ensures DrainAll(s).video == []
  {
    if s.video == [] then s
    else s.(video := [], removed := Some(s.video[|s.video| - 1]), byDrain := true)
  }

  /** Client.write with nothing from the writer in between. */
  function AfterWrite(s: Lane, au: AccessUnit): Lane {
    var t := Accept(s, au);
    if !t.holder.Draining? then t
    else
      var drained := DrainAll(t).(dropping := !au.idr, holder := Free);
      if au.idr then drained.(video := [t.holder.m]) else drained
  }

  /** Client.SetMediaPaused with nothing from the writer in between. */
  function AfterSetPaused(s: Lane, on: bool): Lane {
    if s.paused == on then s
    else DrainAll(s.(paused := on, epoch := s.epoch + 1, submitted := [], dropping := false))
  }

  /** The writer takes the head and applies writeOne's check, with nobody in between. */
  function AfterWriteNext(s: Lane): Lane
    requires s.video != []
  {
    var m := s.video[0];
    var taken := Remove(s, false).(selected := Some(m));
    if s.paused || m.epoch != s.epoch then taken
    else taken.(written := s.written + [Written(m, TearsHead(s))])
  }

  lemma {:induction false} DrainIsARun(s: Lane) returns (steps: seq<Step>)
    requires s.holder.Draining? || s.holder.PauseDraining?
    ensures Possible(s, steps) && Run(s, steps) == Do(DrainAll(s), DrainDone)
    decreases |s.video|
  {
    if s.video == [] {
      Extend(s, DrainDone, []);
      steps := [DrainDone] + [];
    } else {
      var next := Do(s, TakeForDrain);
      var rest := DrainIsARun(next);
      Extend(s, TakeForDrain, rest);
      steps := [TakeForDrain] + rest;
      assert DrainAll(next) == DrainAll(s);
    }
  }

  /** Each method of the object is a run of the machine. */
  lemma WriteIsARun(s: Lane, au: AccessUnit) returns (steps: seq<Step>)
    requires s.holder.Free?
    ensures Possible(s, steps) && Run(s, steps) == AfterWrite(s, au)
  {
    var t := Do(s, Submit(au));
    var rest := [];
    if t.holder.Draining? {
      rest := DrainIsARun(t);
      if au.idr {
        var drained := Run(t, rest);
        Extend(drained, SendAfterDrain, []);
        RunConcat(t, rest, [SendAfterDrain] + []);
        rest := rest + ([SendAfterDrain] + []);
      }
    }
    Extend(s, Submit(au), rest);
    steps := [Submit(au)] + rest;
  }

  lemma SetPausedIsARun(s: Lane, on: bool) returns (steps: seq<Step>)
    requires s.holder.Free?
    ensures Possible(s, steps) && Run(s, steps) == AfterSetPaused(s, on)
  {
    var t := Do(s, SetPaused(on));
    var rest := [];
    if t.holder.Swapped? {
      var bumped := Do(t, BumpEpoch);
      rest := DrainIsARun(bumped);
      Extend(t, BumpEpoch, rest);
      rest := [BumpEpoch] + rest;
    }
    Extend(s, SetPaused(on), rest);
    steps := [SetPaused(on)] + rest;
  }

  lemma WriteNextIsARun(s: Lane) returns (steps: seq<Step>)
    requires s.writer.Ready? && s.video != []
    ensures Possible(s, steps) && Run(s, steps) == AfterWriteNext(s)
  {
    var taken := Do(s, WriterSelects);
    var checked := Do(taken, WriterChecksPause);
    steps := [];
    if checked.writer.PausePassed? {
      var passed := Do(checked, WriterChecksEpoch);
      if passed.writer.Writing? {
        Extend(passed, SocketWrite(true), []);
        steps := [SocketWrite(true)] + [];
      }
      Extend(checked, WriterChecksEpoch, steps);
      steps := [WriterChecksEpoch] + steps;
    }
    Extend(taken, WriterChecksPause, steps);
    steps := [WriterChecksPause] + steps;
    Extend(s, WriterSelects, steps);
    steps := [WriterSelects] + steps;
  }

  lemma {:induction false} RunConcat(s: Lane, first: seq<Step>, second: seq<Step>)
    requires Possible(s, first) && Possible(Run(s, first), second)
    ensures Possible(s, first + second) && Run(s, first + second) == Run(Run(s, first), second)
    decreases |first|
  {
    if first == [] {
      assert first + second == second;
    } else {
      RunConcat(Do(s, first[0]), first[1..], second);
      assert (first + second)[1..] == first[1..] + second;
    }
  }

  class Client {
    var video: seq<Message>
    var videoDropping: bool
    var mediaPaused: bool
    var mediaEpoch: nat
    var submitted: seq<AccessUnit> // history: it only numbers the messages
    ghost var removed: Option<Message>
    ghost var byDrain: bool
    ghost var holder: Holder
    ghost var writer: Writer
    ghost var selected: Option<Message>
    ghost var written: seq<Written>

    ghost function State(): Lane
      reads this
    {
      Lane(video, videoDropping, mediaPaused, mediaEpoch, holder, writer, submitted, removed, byDrain, selected, written)
    }

    constructor ()
      ensures State() == Connected
    {
      video, videoDropping, mediaPaused, mediaEpoch := [], false, false, 0;
      submitted, removed, byDrain, holder, writer, selected, written := [], None, false, Free, Ready, None, [];
    }

    /** Empties the lane one frame at a time. */
    method DrainVideo()
      modifies this`video, this`removed, this`byDrain
      ensures State() == DrainAll(old(State()))
    {
      while video != []
        invariant DrainAll(State()) == DrainAll(old(State()))
        decreases |video|
      {
        removed, byDrain := Some(video[0]), true;
        video := video[1..];
      }
    }

    /** The branch of Client.write that carries video frames; an error means the frame was not queued. */
    method Write(au: AccessUnit) returns (ok: bool)
      requires holder.Free?
      modifies this
      ensures State() == AfterWrite(old(State()), au)
      ensures ok <==> !old(mediaPaused) && (au.idr || (!old(videoDropping) && |old(video)| < LANE_CAPACITY))
      ensures ok ==> video == (if |old(video)| < LANE_CAPACITY then old(video) else []) + [Message(au, mediaEpoch, |old(submitted)|)]
      ensures !ok ==> video == if old(mediaPaused) || old(videoDropping) then old(video) else []
      ensures videoDropping == if old(mediaPaused) then old(videoDropping) else !ok
      ensures mediaPaused == old(mediaPaused) && mediaEpoch == old(mediaEpoch)
    {
      if mediaPaused {
        return false;
      }
      var m := Message(au, mediaEpoch, |submitted|);
      submitted := submitted + [au];
      if videoDropping && !au.idr {
        return false;
      }
      if au.idr {
        videoDropping := false;
      }
      if |video| < LANE_CAPACITY {
        video := video + [m];
        return true;
      }
      DrainVideo();
      videoDropping := !au.idr;
      if au.idr {
        video := video + [m];
      }
      return au.idr;
    }

    method SetMediaPaused(on: bool)
      requires holder.Free?
      modifies this
      ensures State() == AfterSetPaused(old(State()), on) && mediaPaused == on
      ensures on == old(mediaPaused) ==> State() == old(State())
      ensures on != old(mediaPaused) ==> video == [] && !videoDropping && mediaEpoch == old(mediaEpoch) + 1
    {
      if mediaPaused == on {
        return;
      }
      mediaPaused := on;
      mediaEpoch := mediaEpoch + 1;
      submitted := [];
      videoDropping := false;
      DrainVideo();
    }

    /** The writer takes the frame at the head; `sent` says that writeOne's check let it reach the socket. */
    method WriteNext() returns (sent: bool)
      requires writer.Ready? && video != []
      modifies this
      ensures State() == AfterWriteNext(old(State()))
      ensures video == old(video)[1..] && videoDropping == old(videoDropping)
      ensures sent <==> !mediaPaused && old(video)[0].epoch == mediaEpoch
      ensures if sent then |written| == |old(written)| + 1 && written[|written| - 1].m == old(video)[0] else written == old(written)
    {
      var m := video[0];
      ghost var w := Written(m, TearsHead(State()));
      selected, removed, byDrain := Some(m), Some(m), false;
      video := video[1..];
      sent := !mediaPaused && m.epoch == mediaEpoch;
      if sent {
        written := written + [w];
      }
    }
  }
}
