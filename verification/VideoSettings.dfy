/**
  * The size and profile the encoder is started with: the captured size, the scale
  * limit, the coded size computed from both, and which calls change them.
  */
module VideoSettings {
  datatype Settings = Settings(
    captureW: int, captureH: int,
    maxW: int, maxH: int,
    w: int, h: int,
    bitrateK: int, quantizer: int, frameRate: int
  )

  const SMALLEST := 64
  const DEFAULT_FRAME_RATE := 60

  /** A positive even number; `value &^ 1` above one. */
  function Even(value: int): int {
    if value < 2 then 2 else value - value % 2
  }

  /** The conversion of a float to an int, toward zero. */
  function Truncated(x: real): (n: int)
    ensures x >= 0.0 ==> 0.0 <= x - n as real < 1.0
    ensures x < 0.0 ==> -1.0 < x - n as real <= 0.0
  {
    if x >= 0.0 then x.Floor else -(-x).Floor
  }

  /** A limit divided by a length; division by zero gives infinity. */
  datatype Ratio = Infinite | Ratio(value: real)

  function Over(limit: int, length: int): Ratio {
    if length == 0 then Infinite else Ratio(limit as real / length as real)
  }

  function Smaller(a: Ratio, b: Ratio): Ratio {
    if a.Infinite? then b else if b.Infinite? || a.value <= b.value then a else b
  }

  function Scaled(length: int, scale: real): int {
    Truncated(length as real * scale + 0.5)
  }

  function CodedSize(maxW: int, maxH: int, width: int, height: int): (int, int) {
    if maxW < SMALLEST || maxH < SMALLEST then (Even(width), Even(height))
    else
      var scale := Smaller(Over(maxW, width), Over(maxH, height));
      if scale.Infinite? || scale.value >= 1.0 then (Even(width), Even(height))
      else (Even(Scaled(width, scale.value)), Even(Scaled(height, scale.value)))
  }

  /** What a caller may ask for. */
  datatype Demand =
    | Size(width: int, height: int)
    | Viewport(width: int, height: int, maxW: int, maxH: int)
    | Profile(maxW: int, maxH: int, bitrateK: int, quantizer: int, frameRate: int)

  /** A call with a value out of range is ignored. */
  predicate InRange(c: Demand) {
    if c.Profile? then c.bitrateK > 0 && c.frameRate > 0 else c.width >= SMALLEST && c.height >= SMALLEST
  }

  /** The values asked for, with the coded size that follows from them. */
  function Requested(s: Settings, c: Demand): Settings {
    var t := match c
      case Size(width, height) => s.(captureW := width, captureH := height)
      case Viewport(width, height, maxW, maxH) => s.(captureW := width, captureH := height, maxW := maxW, maxH := maxH)
      case Profile(maxW, maxH, bitrateK, quantizer, frameRate) =>
        s.(maxW := maxW, maxH := maxH, bitrateK := bitrateK, quantizer := quantizer, frameRate := frameRate);
    var coded := CodedSize(t.maxW, t.maxH, t.captureW, t.captureH);
    t.(w := coded.0, h := coded.1)
  }

  function After(s: Settings, c: Demand): Settings {
    if InRange(c) then Requested(s, c) else s
  }

  /** The coded size is the one that follows from the captured size and the limit. */
  predicate Consistent(s: Settings) {
    (s.w, s.h) == CodedSize(s.maxW, s.maxH, s.captureW, s.captureH)
  }

  function Configured(s: Settings, changes: seq<Demand>): Settings {
    if changes == [] then s
    else After(Configured(s, changes[..|changes| - 1]), changes[|changes| - 1])
  }

  // ---- The coded size ---------------------------------------------------------------------------------

  /** The factor both sides are scaled by: one, or the largest that fits both limits when that is smaller. */
  ghost predicate IsScale(maxW: int, maxH: int, width: int, height: int, scale: real) {
    && 0.0 < scale <= 1.0
    && (maxW < SMALLEST || maxH < SMALLEST ==> scale == 1.0)
    && (maxW >= SMALLEST && maxH >= SMALLEST ==>
          && width as real * scale <= maxW as real && height as real * scale <= maxH as real
          && (scale == 1.0 || width as real * scale == maxW as real || height as real * scale == maxH as real))
  }

  lemma OverFits(limit: int, length: int, scale: real)
    requires limit > 0 && length > 0 && scale <= limit as real / length as real
    ensures length as real * scale <= limit as real
    ensures scale == limit as real / length as real ==> length as real * scale == limit as real
  {
    var ratio := limit as real / length as real;
    assert length as real * ratio == limit as real;
    assert length as real * scale <= length as real * ratio;
  }

  /** A side is even and near the scaled length: half a unit of rounding, one to the even number below. */
  predicate SideNear(side: int, scaled: real) {
    && side >= 2 && side % 2 == 0
    && (scaled >= 2.0 ==> scaled - 1.5 < side as real <= scaled + 0.5)
  }

  lemma EvenNear(length: int, scale: real, limit: int)
    requires length > 0 && scale > 0.0
    ensures SideNear(Even(Scaled(length, scale)), length as real * scale)
    ensures limit >= 2 && length as real * scale <= limit as real ==> Even(Scaled(length, scale)) <= limit
  {
    assert length as real * scale > 0.0;
  }

  lemma ScaleOf(maxW: int, maxH: int, width: int, height: int) returns (scale: real)
    requires width >= 2 && height >= 2
    ensures IsScale(maxW, maxH, width, height, scale)
    ensures CodedSize(maxW, maxH, width, height) == (Even(Scaled(width, scale)), Even(Scaled(height, scale)))
  {
    scale := 1.0;
    assert Scaled(width, 1.0) == width && Scaled(height, 1.0) == height;
    if maxW >= SMALLEST && maxH >= SMALLEST {
      var ratio := Smaller(Over(maxW, width), Over(maxH, height)).value;
      if ratio < 1.0 {
        scale := ratio;
      }
      OverFits(maxW, width, scale);
      OverFits(maxH, height, scale);
    }
  }

  /**
    * The coded size is a pair of positive even numbers, each within one and a half of
    * the captured side times the same factor, and neither is over its limit.
    */
  lemma CodedSizeFits(maxW: int, maxH: int, width: int, height: int) returns (scale: real)
    requires width >= 2 && height >= 2
    ensures IsScale(maxW, maxH, width, height, scale)
    ensures var c := CodedSize(maxW, maxH, width, height);
            && SideNear(c.0, width as real * scale) && SideNear(c.1, height as real * scale)
            && (maxW >= SMALLEST && maxH >= SMALLEST ==> c.0 <= maxW && c.1 <= maxH)
  {
    scale := ScaleOf(maxW, maxH, width, height);
    EvenNear(width, scale, maxW);
    EvenNear(height, scale, maxH);
  }

  /** The values asked for are in force after the call, so the same call again changes nothing. */
  lemma AskedTwice(s: Settings, c: Demand)
    ensures After(After(s, c), c) == After(s, c)
  {
  }

  /** However often the size and profile change, the coded size follows from the values in force. */
  lemma {:induction false} AlwaysConsistent(s: Settings, changes: seq<Demand>)
    requires Consistent(s)
    ensures Consistent(Configured(s, changes))
    decreases |changes|
  {
    if changes != [] {
      AlwaysConsistent(s, changes[..|changes| - 1]);
    }
  }
}
