/** Merging a client's log snapshot with what the server has of the same log. */
module LogMerges {
  import opened Bytes

  const NEWLINE: Byte := 10

  type Line = seq<Byte>

  const DEVICE_MAX_BYTES: nat := 0x20_0000

  // ---- Lines ---------------------------------------------------------------------------------

  /** What is left of a line when a newline or the end comes: empty lines do not count. */
  function Flush(current: Line): seq<Line> {
    if current == [] then [] else [current]
  }

  function LinesFrom(current: Line, data: seq<Byte>): seq<Line>
    decreases |data|
  {
    if data == [] then Flush(current)
    else if data[0] == NEWLINE then Flush(current) + LinesFrom([], data[1..])
    else LinesFrom(current + [data[0]], data[1..])
  }

  /** The non-empty lines of a log. */
  function Lines(data: seq<Byte>): seq<Line> {
    LinesFrom([], data)
  }

  /** Each line with a newline behind it. */
  function Joined(lines: seq<Line>): seq<Byte> {
    if lines == [] then [] else Joined(lines[..|lines| - 1]) + lines[|lines| - 1] + [NEWLINE]
  }

  predicate IsLine(line: Line) {
    line != [] && forall i :: 0 <= i < |line| ==> line[i] != NEWLINE
  }

  predicate AreLines(lines: seq<Line>) {
    forall i :: 0 <= i < |lines| ==> IsLine(lines[i])
  }

  // ---- The merge ---------------------------------------------------------------------------------

  /** The last of the first `n` lines that is known, or -1. */
  function LastKnown(lines: seq<Line>, known: set<Line>, n: nat): (k: int)
    requires n <= |lines|
    ensures -1 <= k < n
  {
    if n == 0 then -1 else if lines[n - 1] in known then n - 1 else LastKnown(lines, known, n - 1)
  }

  function LineSet(lines: seq<Line>): set<Line> {
    set i | 0 <= i < |lines| :: lines[i]
  }

  function Terminated(data: seq<Byte>): seq<Byte> {
    if data != [] && data[|data| - 1] != NEWLINE then data + [NEWLINE] else data
  }

  /** The first newline from `p` on, or the end. */
  function NextNewline(data: seq<Byte>, p: nat): (q: nat)
    requires p <= |data|
    ensures p <= q <= |data| && (q < |data| ==> data[q] == NEWLINE)
    decreases |data| - p
  {
    if p == |data| || data[p] == NEWLINE then p else NextNewline(data, p + 1)
  }

  /** readTailBytes. */
  function TailBytes(data: seq<Byte>, max: nat): seq<Byte> {
    if |data| <= max then data
    else
      var cut := |data| - max;
      var newline := NextNewline(data, cut);
      if newline < |data| then data[newline + 1..] else data[cut..]
  }

  /** What the host has behind the newest line it shares with the snapshot. */
  function HostSuffix(snapshot: seq<Byte>, existing: seq<Byte>): seq<Line> {
    var lines := Lines(existing);
    var k := LastKnown(lines, LineSet(Lines(snapshot)), |lines|);
    if k < 0 then [] else lines[k + 1..]
  }

  /** The merge before it is cut to size. */
  function Whole(snapshot: seq<Byte>, existing: seq<Byte>): seq<Byte> {
    var suffix := HostSuffix(snapshot, existing);
    if suffix == [] then snapshot else Terminated(snapshot) + Joined(suffix)
  }

  /** mergeDeviceSnapshot. */
  function Merge(snapshot: seq<Byte>, existing: seq<Byte>, max: nat): seq<Byte> {
    if HostSuffix(snapshot, existing) == [] then snapshot else TailBytes(Whole(snapshot, existing), max)
  }

  // ---- The loops -------------------------------------------------------------------------------------

  /** bytes.FieldsFunc on newlines. */
  method Fields(data: seq<Byte>) returns (lines: seq<Line>)
    ensures lines == Lines(data)
  {
    lines := [];
    var current: Line := [];
    assert data[0..] == data;
    for i := 0 to |data|
      invariant lines + LinesFrom(current, data[i..]) == Lines(data)
    {
      assert data[i..][0] == data[i] && data[i..][1..] == data[i + 1..];
      if data[i] == NEWLINE {
        assert lines + (Flush(current) + LinesFrom([], data[i + 1..])) == (lines + Flush(current)) + LinesFrom([], data[i + 1..]);
        lines := lines + Flush(current);
        current := [];
      } else {
        current := current + [data[i]];
      }
    }
    lines := lines + Flush(current);
  }

  method JoinLines(lines: seq<Line>, from: nat) returns (data: seq<Byte>)
    requires from <= |lines|
    ensures data == Joined(lines[from..])
  {
    data := [];
    for i := from to |lines|
      invariant data == Joined(lines[from..i])
    {
      assert lines[from..i + 1][..i - from] == lines[from..i];
      data := data + lines[i] + [NEWLINE];
    }
    assert lines[from..|lines|] == lines[from..];
  }

  method ReadTailBytes(data: seq<Byte>, max: nat) returns (tail: seq<Byte>)
    ensures tail == TailBytes(data, max)
  {
    if |data| <= max {
      return data;
    }
    var cut := |data| - max;
    var newline := cut;
    while newline < |data| && data[newline] != NEWLINE
      invariant cut <= newline <= |data| && NextNewline(data, cut) == NextNewline(data, newline)
    {
      newline := newline + 1;
    }
    return if newline < |data| then data[newline + 1..] else data[cut..];
  }

  method MergeDeviceSnapshot(snapshot: seq<Byte>, existing: seq<Byte>) returns (merged: seq<Byte>)
    ensures merged == Merge(snapshot, existing, DEVICE_MAX_BYTES)
  {
    if |snapshot| == 0 || |existing| == 0 {
      assert snapshot == [] ==> LineSet(Lines(snapshot)) == {};
      NothingKnown(Lines(existing), |Lines(existing)|);
      return snapshot;
    }
    var snapshotLines := Fields(snapshot);
    var existingLines := Fields(existing);
    var positions: set<Line> := {};
    for i := 0 to |snapshotLines|
      invariant positions == LineSet(snapshotLines[..i])
    {
      LineSetSnoc(snapshotLines, i);
      positions := positions + {snapshotLines[i]};
    }
    assert snapshotLines[..|snapshotLines|] == snapshotLines;
    var lastCommon := -1;
    for i := 0 to |existingLines|
      invariant lastCommon == LastKnown(existingLines, positions, i)
    {
      if existingLines[i] in positions {
        lastCommon := i;
      }
    }
    if lastCommon < 0 || lastCommon + 1 == |existingLines| {
      return snapshot;
    }
    var tail := JoinLines(existingLines, lastCommon + 1);
    merged := Terminated(snapshot) + tail;
    if |merged| > DEVICE_MAX_BYTES {
      merged := ReadTailBytes(merged, DEVICE_MAX_BYTES);
    }
  }

  lemma LineSetSnoc(lines: seq<Line>, i: nat)
    requires i < |lines|
    ensures LineSet(lines[..i + 1]) == LineSet(lines[..i]) + {lines[i]}
  {
    var a, b := lines[..i], lines[..i + 1];
    forall x | x in LineSet(b) ensures x in LineSet(a) + {lines[i]} {
      var k :| 0 <= k < |b| && b[k] == x;
      assert k < i ==> a[k] == x;
    }
    forall x | x in LineSet(a) + {lines[i]} ensures x in LineSet(b) {
      if x in LineSet(a) {
        var k :| 0 <= k < |a| && a[k] == x;
        assert b[k] == x;
      } else {
        assert b[i] == x;
      }
    }
  }

  lemma {:induction false} NothingKnown(lines: seq<Line>, n: nat)
    requires n <= |lines|
    ensures LastKnown(lines, {}, n) == -1
    decreases n
  {
    if n > 0 {
      NothingKnown(lines, n - 1);
    }
  }

  // ---- What the merge is ---------------------------------------------------------------------------

  predicate NoNewline(s: seq<Byte>) {
    forall i :: 0 <= i < |s| ==> s[i] != NEWLINE
  }

  /** A newline ends a line: what is before it and what is after it split apart. */
  lemma {:induction false} LinesSplit(current: Line, a: seq<Byte>, b: seq<Byte>)
    ensures LinesFrom(current, a + [NEWLINE] + b) == LinesFrom(current, a) + Lines(b)
    decreases |a|
  {
    var data := a + [NEWLINE] + b;
    if a == [] {
      assert data[1..] == b;
    } else {
      assert data[1..] == a[1..] + [NEWLINE] + b;
      assert data[0] == a[0];
      if a[0] == NEWLINE {
        LinesSplit([], a[1..], b);
      } else {
        LinesSplit(current + [a[0]], a[1..], b);
      }
    }
  }

  lemma {:induction false} LinesAreLines(current: Line, data: seq<Byte>)
    requires NoNewline(current)
    ensures AreLines(LinesFrom(current, data))
    decreases |data|
  {
    if data != [] {
      if data[0] == NEWLINE {
        LinesAreLines([], data[1..]);
      } else {
        LinesAreLines(current + [data[0]], data[1..]);
      }
    }
  }

  lemma {:induction false} OneLine(current: Line, line: Line)
    requires NoNewline(line) && current + line != []
    ensures LinesFrom(current, line) == [current + line]
    decreases |line|
  {
    if line == [] {
      assert current + line == current;
    } else {
      assert current + line == current + [line[0]] + line[1..];
      OneLine(current + [line[0]], line[1..]);
    }
  }

  lemma NewlineEnds(a: seq<Byte>)
    ensures Lines(a + [NEWLINE]) == Lines(a)
  {
    LinesSplit([], a, []);
    assert a + [NEWLINE] + [] == a + [NEWLINE];
  }

  /** Behind a newline, or at the start, a new line begins. */
  predicate Ended(data: seq<Byte>) {
    data == [] || data[|data| - 1] == NEWLINE
  }

  lemma LinesAppend(a: seq<Byte>, line: Line)
    requires Ended(a) && IsLine(line)
    ensures Lines(a + line + [NEWLINE]) == Lines(a) + [line]
  {
    OneLine([], line);
    assert [] + line == line;
    NewlineEnds(a + line);
    if a == [] {
      assert a + line == line;
    } else {
      var front := a[..|a| - 1];
      assert a == front + [NEWLINE];
      LinesSplit([], front, line);
      NewlineEnds(front);
    }
  }

  lemma {:induction false} JoinedSnoc(a: seq<Byte>, lines: seq<Line>)
    requires lines != []
    ensures a + Joined(lines) == a + Joined(lines[..|lines| - 1]) + lines[|lines| - 1] + [NEWLINE]
  {
  }

  lemma {:induction false} LinesOfJoined(a: seq<Byte>, lines: seq<Line>)
    requires Ended(a) && AreLines(lines)
    ensures Ended(a + Joined(lines)) && Lines(a + Joined(lines)) == Lines(a) + lines
    decreases |lines|
  {
    if lines == [] {
      assert a + Joined(lines) == a;
    } else {
      var n := |lines| - 1;
      var front := a + Joined(lines[..n]);
      LinesOfJoined(a, lines[..n]);
      LinesAppend(front, lines[n]);
      JoinedSnoc(a, lines);
      assert Lines(a) + lines[..n] + [lines[n]] == Lines(a) + lines;
    }
  }

  lemma TerminatedLines(data: seq<Byte>)
    ensures Ended(Terminated(data)) && Lines(Terminated(data)) == Lines(data)
  {
    NewlineEnds(data);
  }

  lemma {:induction false} LastKnownIs(lines: seq<Line>, known: set<Line>, n: nat)
    requires n <= |lines|
    ensures var k := LastKnown(lines, known, n);
            (k >= 0 ==> lines[k] in known) && forall i :: k < i < n ==> lines[i] !in known
    decreases n
  {
    if n > 0 && lines[n - 1] !in known {
      LastKnownIs(lines, known, n - 1);
    }
  }

  predicate Disjoint(lines: seq<Line>, known: set<Line>) {
    forall i :: 0 <= i < |lines| ==> lines[i] !in known
  }

  /** The host's part is a suffix of its lines, none of which is in the snapshot. */
  lemma HostSuffixIs(snapshot: seq<Byte>, existing: seq<Byte>)
    ensures var lines, suffix := Lines(existing), HostSuffix(snapshot, existing);
            && AreLines(suffix) && |suffix| <= |lines| && suffix == lines[|lines| - |suffix|..]
            && Disjoint(suffix, LineSet(Lines(snapshot)))
  {
    var lines, known, suffix := Lines(existing), LineSet(Lines(snapshot)), HostSuffix(snapshot, existing);
    LastKnownIs(lines, known, |lines|);
    LinesAreLines([], existing);
    var k := LastKnown(lines, known, |lines|);
    if k >= 0 {
      forall i | 0 <= i < |suffix| ensures IsLine(suffix[i]) && suffix[i] !in known {
        assert suffix[i] == lines[k + 1 + i];
      }
    }
  }

  /** With one line more it would have one of the snapshot's; it is empty when no line is shared. */
  lemma HostSuffixLongest(snapshot: seq<Byte>, existing: seq<Byte>)
    ensures var lines, known, suffix := Lines(existing), LineSet(Lines(snapshot)), HostSuffix(snapshot, existing);
            if Disjoint(lines, known) then suffix == []
            else |suffix| < |lines| && lines[|lines| - |suffix| - 1] in known
  {
    var lines, known := Lines(existing), LineSet(Lines(snapshot));
    LastKnownIs(lines, known, |lines|);
  }

  /** Below the size limit: the snapshot's lines and then the host's suffix. */
  lemma MergedLines(snapshot: seq<Byte>, existing: seq<Byte>, max: nat)
    requires |Whole(snapshot, existing)| <= max
    ensures Merge(snapshot, existing, max) == Whole(snapshot, existing)
    ensures Lines(Merge(snapshot, existing, max)) == Lines(snapshot) + HostSuffix(snapshot, existing)
  {
    HostSuffixIs(snapshot, existing);
    TerminatedLines(snapshot);
    LinesOfJoined(Terminated(snapshot), HostSuffix(snapshot, existing));
  }

  predicate AllKnown(lines: seq<Line>, known: set<Line>) {
    forall i :: 0 <= i < |lines| ==> lines[i] in known
  }

  lemma {:induction false} LastKnownAppend(shared: seq<Line>, added: seq<Line>, known: set<Line>, n: nat)
    requires shared != [] && n <= |added| && AllKnown(shared, known) && Disjoint(added, known)
    ensures LastKnown(shared + added, known, |shared| + n) == |shared| - 1
    decreases n
  {
    if n == 0 {
      assert (shared + added)[|shared| - 1] == shared[|shared| - 1];
    } else {
      assert (shared + added)[|shared| + n - 1] == added[n - 1];
      LastKnownAppend(shared, added, known, n - 1);
    }
  }

  /** Lines none of which the snapshot has, behind some that it has: they are the host's suffix. */
  lemma SuffixOf(snapshot: seq<Byte>, data: seq<Byte>, shared: seq<Line>, suffix: seq<Line>)
    requires Lines(data) == shared + suffix && shared != []
    requires AllKnown(shared, LineSet(Lines(snapshot))) && Disjoint(suffix, LineSet(Lines(snapshot)))
    ensures HostSuffix(snapshot, data) == suffix
  {
    LastKnownAppend(shared, suffix, LineSet(Lines(snapshot)), |suffix|);
  }

  lemma NoLinesNoSuffix(snapshot: seq<Byte>, existing: seq<Byte>)
    requires Lines(snapshot) == []
    ensures HostSuffix(snapshot, existing) == []
  {
    assert LineSet(Lines(snapshot)) == {};
    NothingKnown(Lines(existing), |Lines(existing)|);
  }

  lemma OwnLinesKnown(lines: seq<Line>, k: nat)
    requires k <= |lines|
    ensures AllKnown(lines[k..], LineSet(lines))
  {
  }

  /** Nothing shared, nothing added. */
  lemma DisjointNoSuffix(snapshot: seq<Byte>, data: seq<Byte>)
    requires Disjoint(Lines(data), LineSet(Lines(snapshot)))
    ensures HostSuffix(snapshot, data) == []
  {
    HostSuffixLongest(snapshot, data);
  }

  /** A snapshot adds nothing to itself. */
  lemma SelfNoSuffix(snapshot: seq<Byte>)
    ensures HostSuffix(snapshot, snapshot) == []
  {
    var lines := Lines(snapshot);
    if lines == [] {
      NoLinesNoSuffix(snapshot, snapshot);
    } else {
      OwnLinesKnown(lines, 0);
      assert lines[0..] == lines && lines + [] == lines;
      SuffixOf(snapshot, snapshot, lines, []);
    }
  }

  /** Something is added only behind a line that is shared. */
  lemma SuffixNeedsLines(snapshot: seq<Byte>, existing: seq<Byte>)
    requires HostSuffix(snapshot, existing) != []
    ensures Lines(snapshot) != []
  {
    if Lines(snapshot) == [] {
      NoLinesNoSuffix(snapshot, existing);
    }
  }

  /** A text that ends with the snapshot's last lines and the suffix merges to the whole again. */
  lemma KeepsALine(snapshot: seq<Byte>, existing: seq<Byte>, data: seq<Byte>, k: nat)
    requires HostSuffix(snapshot, existing) != [] && k < |Lines(snapshot)|
    requires Lines(data) == Lines(snapshot)[k..] + HostSuffix(snapshot, existing)
    ensures HostSuffix(snapshot, data) == HostSuffix(snapshot, existing) && Whole(snapshot, data) == Whole(snapshot, existing)
    ensures !Disjoint(Lines(data), LineSet(Lines(snapshot)))
  {
    HostSuffixIs(snapshot, existing);
    OwnLinesKnown(Lines(snapshot), k);
    SuffixOf(snapshot, data, Lines(snapshot)[k..], HostSuffix(snapshot, existing));
    assert Lines(data)[0] == Lines(snapshot)[k] && Lines(data)[0] in LineSet(Lines(snapshot));
  }

  /** Below the limit, merging the same snapshot again changes nothing. */
  lemma MergeAgain(snapshot: seq<Byte>, existing: seq<Byte>, max: nat)
    requires |Whole(snapshot, existing)| <= max
    ensures Merge(snapshot, Merge(snapshot, existing, max), max) == Merge(snapshot, existing, max)
  {
    if HostSuffix(snapshot, existing) == [] {
      SelfNoSuffix(snapshot);
    } else {
      SuffixNeedsLines(snapshot, existing);
      MergedLines(snapshot, existing, max);
      assert Lines(snapshot)[0..] == Lines(snapshot);
      KeepsALine(snapshot, existing, Whole(snapshot, existing), 0);
    }
  }

  // ---- Above the size limit ---------------------------------------------------------------------------

  lemma {:induction false} NextNewlineClean(data: seq<Byte>, p: nat)
    requires p <= |data|
    ensures NoNewline(data[p..NextNewline(data, p)])
    decreases |data| - p
  {
    if p < |data| && data[p] != NEWLINE {
      NextNewlineClean(data, p + 1);
      var q := NextNewline(data, p);
      assert data[p..q] == [data[p]] + data[p + 1..q];
    }
  }

  lemma {:induction false} LastIsNewline(data: seq<Byte>, p: nat)
    requires p < |data| && data[|data| - 1] == NEWLINE
    ensures NextNewline(data, p) < |data|
    decreases |data| - p
  {
    if data[p] != NEWLINE {
      LastIsNewline(data, p + 1);
    }
  }

  /** A run of bytes without a newline lies in one line. */
  lemma {:induction false} RunInLine(current: Line, a: seq<Byte>, run: seq<Byte>, b: seq<Byte>) returns (k: nat)
    requires NoNewline(run) && run != []
    ensures var lines := LinesFrom(current, a + run + [NEWLINE] + b); k < |lines| && |run| <= |lines[k]|
    decreases |a|
  {
    var data := a + run + [NEWLINE] + b;
    if a == [] {
      assert data == run + [NEWLINE] + b;
      LinesSplit(current, run, b);
      OneLine(current, run);
      k := 0;
    } else {
      assert data[0] == a[0] && data[1..] == a[1..] + run + [NEWLINE] + b;
      if a[0] == NEWLINE {
        k := RunInLine([], a[1..], run, b);
        k := k + |Flush(current)|;
      } else {
        k := RunInLine(current + [a[0]], a[1..], run, b);
      }
    }
  }

  /**
    * A log that ends with a newline is cut to whole lines, its last ones, within the
    * limit, and what is cut off beyond need is less than one line.
    */
  lemma TailIsWholeLines(data: seq<Byte>, max: nat, longest: nat) returns (k: nat)
    requires 0 < max < |data| && data[|data| - 1] == NEWLINE
    requires forall i :: 0 <= i < |Lines(data)| ==> |Lines(data)[i]| <= longest
    ensures k <= |Lines(data)| && Lines(TailBytes(data, max)) == Lines(data)[k..]
    ensures max - longest - 1 <= |TailBytes(data, max)| < max
  {
    var cut := |data| - max;
    LastIsNewline(data, cut);
    NextNewlineClean(data, cut);
    var newline := NextNewline(data, cut);
    var head, run, tail := data[..newline], data[cut..newline], data[newline + 1..];
    assert data == head + [NEWLINE] + tail;
    LinesSplit([], head, tail);
    k := |Lines(head)|;
    if run != [] {
      assert data == data[..cut] + run + [NEWLINE] + tail;
      var i := RunInLine([], data[..cut], run, tail);
      assert |Lines(data)[i]| <= longest;
    }
  }

  /** Above the limit the merge is such a tail of the whole merge. */
  lemma MergedTail(snapshot: seq<Byte>, existing: seq<Byte>, max: nat, longest: nat) returns (k: nat)
    requires 0 < max < |Whole(snapshot, existing)| && HostSuffix(snapshot, existing) != []
    requires forall i :: 0 <= i < |Lines(Whole(snapshot, existing))| ==> |Lines(Whole(snapshot, existing))[i]| <= longest
    ensures var whole := Lines(snapshot) + HostSuffix(snapshot, existing);
            k <= |whole| && Lines(Merge(snapshot, existing, max)) == whole[k..]
    ensures max - longest - 1 <= |Merge(snapshot, existing, max)| < max
  {
    var whole := Whole(snapshot, existing);
    MergedLines(snapshot, existing, |whole|);
    k := TailIsWholeLines(whole, max, longest);
  }

  /** Above the limit, which lines are left. */
  lemma CutLines(snapshot: seq<Byte>, existing: seq<Byte>, max: nat) returns (k: nat)
    requires max < |Whole(snapshot, existing)| && HostSuffix(snapshot, existing) != []
    ensures var whole := Lines(snapshot) + HostSuffix(snapshot, existing);
            k <= |whole| && Lines(Merge(snapshot, existing, max)) == whole[k..]
  {
    var data := Whole(snapshot, existing);
    MergedLines(snapshot, existing, |data|);
    if max == 0 {
      k := |Lines(data)|;
      assert data[|data|..] == [];
    } else {
      var longest := LongestLine(Lines(data));
      k := TailIsWholeLines(data, max, longest);
    }
  }

  lemma {:induction false} LongestLine(lines: seq<Line>) returns (longest: nat)
    ensures forall i :: 0 <= i < |lines| ==> |lines[i]| <= longest
    decreases |lines|
  {
    longest := 0;
    if lines != [] {
      var n := |lines| - 1;
      longest := LongestLine(lines[..n]);
      if longest < |lines[n]| {
        longest := |lines[n]|;
      }
    }
  }

  lemma CutToSuffix(snapshot: seq<Byte>, existing: seq<Byte>, data: seq<Byte>, k: nat)
    requires HostSuffix(snapshot, existing) != [] && |Lines(snapshot)| <= k <= |Lines(snapshot) + HostSuffix(snapshot, existing)|
    requires Lines(data) == (Lines(snapshot) + HostSuffix(snapshot, existing))[k..]
    ensures Disjoint(Lines(data), LineSet(Lines(snapshot))) && data != snapshot
  {
    var ours, suffix := Lines(snapshot), HostSuffix(snapshot, existing);
    HostSuffixIs(snapshot, existing);
    SuffixNeedsLines(snapshot, existing);
    forall i | 0 <= i < |Lines(data)| ensures Lines(data)[i] !in LineSet(ours) {
      assert Lines(data)[i] == suffix[k - |ours| + i];
    }
    assert ours[0] in LineSet(ours);
  }

  /**
    * In general, merging the same snapshot again changes nothing if and only if
    * nothing was added to it, or what was kept of the merge still has a line of it.
    */
  lemma MergeAgainIff(snapshot: seq<Byte>, existing: seq<Byte>, max: nat)
    ensures var merged := Merge(snapshot, existing, max);
            Merge(snapshot, merged, max) == merged <==>
              HostSuffix(snapshot, existing) == [] || !Disjoint(Lines(merged), LineSet(Lines(snapshot)))
  {
    var merged, suffix, ours := Merge(snapshot, existing, max), HostSuffix(snapshot, existing), Lines(snapshot);
    if suffix == [] {
      SelfNoSuffix(snapshot);
    } else if |Whole(snapshot, existing)| <= max {
      MergeAgain(snapshot, existing, max);
      SuffixNeedsLines(snapshot, existing);
      MergedLines(snapshot, existing, max);
      assert ours[0..] == ours;
      KeepsALine(snapshot, existing, merged, 0);
    } else {
      var k := CutLines(snapshot, existing, max);
      if k < |ours| {
        assert (ours + suffix)[k..] == ours[k..] + suffix;
        KeepsALine(snapshot, existing, merged, k);
      } else {
        CutToSuffix(snapshot, existing, merged, k);
        DisjointNoSuffix(snapshot, merged);
      }
    }
  }

  /** With a limit of five bytes "a" and "bbbb" do not fit: the first merge keeps nothing, the second brings the snapshot back. */
  lemma MergeAgainDiffers()
    ensures var snapshot: seq<Byte> := [97, 10];
            var existing: seq<Byte> := [97, 10, 98, 98, 98, 98, 10];
            Merge(snapshot, existing, 5) == [] && Merge(snapshot, Merge(snapshot, existing, 5), 5) == snapshot
  {
    var snapshot: seq<Byte> := [97, 10];
    var existing: seq<Byte> := [97, 10, 98, 98, 98, 98, 10];
    var a: Line, b: Line := [97], [98, 98, 98, 98];
    LinesAppend([], a);
    LinesAppend(snapshot, b);
    assert [] + a + [NEWLINE] == snapshot && snapshot + b + [NEWLINE] == existing;
    assert Lines(snapshot) == [a] && Lines(existing) == [a] + [b];
    OwnLinesKnown([a], 0);
    assert [a][0..] == [a];
    assert Disjoint([b], LineSet([a]));
    SuffixOf(snapshot, existing, [a], [b]);
    assert [b][..0] == [] && Joined([b]) == [] + b + [NEWLINE];
    assert Whole(snapshot, existing) == existing;
    assert NextNewline(existing, 6) == 6;
    assert existing[7..] == [];
    assert NextNewline(existing, 2) == 6;
    DisjointNoSuffix(snapshot, []);
  }
}
