/** The ruler widgets: a pure description of the ticks a ruler shows for a
    given scale, offset and visible length, and the `Ruler` element that
    keeps its scale and offset attributes and rebuilds its ticks whenever one
    of them changes. The horizontal and the vertical ruler run the same
    algorithm on their width and their height, so one class models both. */
module Rulers {
  import opened Snapshot

  /** The two observed attributes. */
  datatype Attr = ScaleAttr | OffsetAttr

  /** A tick at content position `pos`, drawn `px` pixels from the ruler's
      start; `major` ticks are the long ones. */
  datatype Tick = Tick(pos: int, major: bool, px: real)

  /** The numeric label drawn at a major tick. */
  datatype Label = Label(text: int, px: real)

  /** The spacing of major ticks, in content units, for a given scale. */
  function MajorInterval(scale: real): (m: int)
    ensures m in {20, 50, 100, 200, 500}
    ensures m == 20 <==> scale > 5.0
    ensures m == 50 <==> 2.0 < scale <= 5.0
    ensures m == 100 <==> 0.5 <= scale <= 2.0
    ensures m == 200 <==> 0.2 <= scale < 0.5
    ensures m == 500 <==> scale < 0.2
  {
    if scale > 5.0 then 20
    else if scale > 2.0 then 50
    else if scale < 0.2 then 500
    else if scale < 0.5 then 200
    else 100
  }

  /** Four minor ticks sit between two major ones. */
  function MinorInterval(scale: real): (n: int)
    ensures n in {4, 10, 20, 40, 100}
    ensures 5 * n == MajorInterval(scale)
  {
    MajorInterval(scale) / 5
  }

  /** The least integer not below `x` (`Math.ceil`). */
  function Ceil(x: real): (c: int)
    ensures x <= c as real < x + 1.0
  {
    -((-x).Floor)
  }

  /** The content coordinate at the ruler's start: the point the offset
      moves to pixel 0. */
  function StartPos(scale: real, offset: real): (s: real)
    requires scale != 0.0
    ensures s * scale + offset == 0.0
  {
    -offset / scale
  }

  /** The content coordinate at the ruler's end, `length` pixels further. */
  function EndPos(scale: real, offset: real, length: real): (e: real)
    requires scale != 0.0
    ensures (e - StartPos(scale, offset)) * scale == length
  {
    StartPos(scale, offset) + length / scale
  }

  /** The first tick: the least multiple of the major interval at or after
      the ruler's start. */
  function FirstTick(scale: real, offset: real): (f: int)
    requires scale != 0.0
    ensures f % MajorInterval(scale) == 0
    ensures StartPos(scale, offset) <= f as real
    ensures (f - MajorInterval(scale)) as real < StartPos(scale, offset)
  {
    var m := MajorInterval(scale);
    var sp := StartPos(scale, offset);
    var c := Ceil(sp / m as real);
    CeilTimes(sp, m as real, c);
    IntRealProduct(c, m);
    IntRealProduct(c - 1, m);
    ModUnique(c * m, m, c, 0);
    c * m
  }

  /** How many steps of `step` from `first` stay strictly below `end`. */
  function TickCount(first: int, step: int, end: real): (n: nat)
    requires step > 0
    ensures n > 0 ==> (first + (n - 1) * step) as real < end
    ensures end <= (first + n * step) as real
  {
    if end <= first as real then 0
    else
      var c := Ceil((end - first as real) / step as real);
      CeilTimes(end - first as real, step as real, c);
      c
  }

  /** How far from the ruler's start content position `p` is drawn. */
  function PixelOffset(p: int, start: real, scale: real): (px: real)
    ensures scale != 0.0 ==> start + px / scale == p as real
  {
    (p as real - start) * scale
  }

  /** The `k`-th tick of a ruler at this scale and offset. */
  function TickAt(scale: real, offset: real, k: int): (t: Tick)
    requires scale != 0.0
    ensures k >= 0 ==> (t.major <==> k % 5 == 0)
  {
    var p := FirstTick(scale, offset) + k * MinorInterval(scale);
    EveryFifthStep(FirstTick(scale, offset), MinorInterval(scale), k);
    Tick(p, p % MajorInterval(scale) == 0, PixelOffset(p, StartPos(scale, offset), scale))
  }

  /** Every tick a ruler of `length` pixels shows at this scale and offset,
      left to right. */
  function Ticks(scale: real, offset: real, length: real): (ts: seq<Tick>)
    requires scale != 0.0
    ensures |ts| == TickCount(FirstTick(scale, offset), MinorInterval(scale), EndPos(scale, offset, length))
    ensures forall k :: 0 <= k < |ts| ==> (ts[k].major <==> k % 5 == 0)
  {
    var n := TickCount(FirstTick(scale, offset), MinorInterval(scale), EndPos(scale, offset, length));
    seq(n, k requires 0 <= k < n => TickAt(scale, offset, k))
  }

  function LabelOf(t: Tick): (l: Label)
  {
    Label(t.pos, t.px)
  }

  /** The labels drawn along a list of ticks: one per major tick, in order. */
  function LabelsOf(ts: seq<Tick>): (ls: seq<Label>)
    ensures |ls| <= |ts|
  {
    if ts == [] then []
    else
      var last := ts[|ts| - 1];
      LabelsOf(ts[..|ts| - 1]) + if last.major then [LabelOf(last)] else []
  }

  /** How many of the ticks are major. */
  function CountMajor(ts: seq<Tick>): (n: nat)
    ensures n <= |ts|
  {
    if ts == [] then 0
    else CountMajor(ts[..|ts| - 1]) + if ts[|ts| - 1].major then 1 else 0
  }

  /** When every fifth tick from the first is major and no other, a list of
      `n` ticks holds `ceil(n / 5)` major ones. */
  lemma {:induction false} MajorCountIsCeilFifth(ts: seq<Tick>)
    requires forall k :: 0 <= k < |ts| ==> (ts[k].major <==> k % 5 == 0)
    ensures CountMajor(ts) == (|ts| + 4) / 5
  {
    if ts != [] {
      var init := ts[..|ts| - 1];
      assert forall k :: 0 <= k < |init| ==> init[k] == ts[k];
      MajorCountIsCeilFifth(init);
    }
  }

  // ---------------------------------------------------------------------
  // Arithmetic helpers

  /** From `x <= c < x + 1` with `c` the ceiling of `a / b`, scale by `b`. */
  lemma CeilTimes(a: real, b: real, c: int)
    requires b > 0.0
    requires a / b <= c as real < a / b + 1.0
    ensures a <= c as real * b
    ensures (c - 1) as real * b < a
  {
    var x := a / b;
    assert x * b == a;
    MulLeqRight(x, c as real, b);
    var y := (c - 1) as real;
    assert y < x;
    MulLtRight(y, x, b);
    assert y * b < x * b;
    assert y * b < a;
  }

  lemma MulLeqRight(x: real, y: real, b: real)
    requires b > 0.0 && x <= y
    ensures x * b <= y * b
  {
  }

  lemma MulLtRight(x: real, y: real, b: real)
    requires b > 0.0 && x < y
    ensures x * b < y * b
  {
  }

  lemma MulMonotone(i: int, j: int, m: int)
    requires m > 0
    ensures i <= j ==> i * m <= j * m
  {
  }

  /** A loop position still before the end has a tick in the list; one at
      or past the end has none. */
  lemma StepInRange(first: int, step: int, end: real, k: nat)
    requires step > 0
    ensures (first + k * step) as real < end ==> k < TickCount(first, step, end)
    ensures end <= (first + k * step) as real ==> TickCount(first, step, end) <= k
  {
    var n := TickCount(first, step, end);
    MulMonotone(n, k, step);
    if n > 0 {
      MulMonotone(k, n - 1, step);
    }
  }

  /** One more step of `m` from the `k`-th step is the `k + 1`-th. */
  lemma NextStep(first: int, m: int, k: int)
    ensures first + k * m + m == first + (k + 1) * m
  {
  }

  lemma PrefixExtend<T>(s: seq<T>, k: nat)
    requires k < |s|
    ensures s[..k] + [s[k]] == s[..k + 1]
  {
  }

  /** The tick the loop builds at step `k` is the `k`-th tick of the list. */
  lemma StepTick(scale: real, offset: real, length: real, k: nat, pos: int)
    requires scale != 0.0
    requires k < |Ticks(scale, offset, length)|
    requires pos == FirstTick(scale, offset) + k * MinorInterval(scale)
    ensures Ticks(scale, offset, length)[k]
         == Tick(pos, pos % MajorInterval(scale) == 0, PixelOffset(pos, StartPos(scale, offset), scale))
  {
    assert Ticks(scale, offset, length)[k] == TickAt(scale, offset, k);
  }

  // ---------------------------------------------------------------------
  // Properties of the tick list

  /** Tick `k` lies at the first tick plus `k` minor steps. */
  lemma {:induction false} TickPositions(scale: real, offset: real, length: real, k: int)
    requires scale != 0.0
    requires 0 <= k < |Ticks(scale, offset, length)|
    ensures Ticks(scale, offset, length)[k].pos == FirstTick(scale, offset) + k * MinorInterval(scale)
    ensures Ticks(scale, offset, length)[k].px == PixelOffset(Ticks(scale, offset, length)[k].pos, StartPos(scale, offset), scale)
  {
    StepTick(scale, offset, length, k, FirstTick(scale, offset) + k * MinorInterval(scale));
  }

  /** Tick positions strictly increase. */
  lemma TicksIncreasing(scale: real, offset: real, length: real, i: int, j: int)
    requires scale != 0.0
    requires 0 <= i < j < |Ticks(scale, offset, length)|
    ensures Ticks(scale, offset, length)[i].pos < Ticks(scale, offset, length)[j].pos
  {
    var m := MinorInterval(scale);
    MulMonotone(i + 1, j, m);
  }

  /** Every tick lies inside the visible window `[start, start + length/scale)`. */
  lemma TicksInWindow(scale: real, offset: real, length: real, k: int)
    requires scale != 0.0
    requires 0 <= k < |Ticks(scale, offset, length)|
    ensures StartPos(scale, offset) <= Ticks(scale, offset, length)[k].pos as real < EndPos(scale, offset, length)
  {
    var first, m := FirstTick(scale, offset), MinorInterval(scale);
    var n := |Ticks(scale, offset, length)|;
    MulMonotone(0, k, m);
    MulMonotone(k, n - 1, m);
  }

  /** No tick is missing: one more minor step after the last tick leaves the
      window, and the first tick is the first multiple of the major interval
      in it (see FirstTick). */
  lemma TicksCoverWindow(scale: real, offset: real, length: real)
    requires scale != 0.0
    ensures EndPos(scale, offset, length)
         <= (FirstTick(scale, offset) + |Ticks(scale, offset, length)| * MinorInterval(scale)) as real
  {
  }

  /** A tick is major exactly when it is a multiple of the major interval,
      which is the first tick and every fifth tick after it. */
  lemma TickMajorEveryFifth(scale: real, offset: real, length: real, k: int)
    requires scale != 0.0
    requires 0 <= k < |Ticks(scale, offset, length)|
    ensures Ticks(scale, offset, length)[k].major <==> Ticks(scale, offset, length)[k].pos % MajorInterval(scale) == 0
    ensures Ticks(scale, offset, length)[k].major <==> k % 5 == 0
  {
    StepTick(scale, offset, length, k, FirstTick(scale, offset) + k * MinorInterval(scale));
    EveryFifthStep(FirstTick(scale, offset), MinorInterval(scale), k);
  }

  /** From a multiple of `5 m`, every fifth step of `m` lands on a multiple
      of `5 m` and no other step does. */
  lemma EveryFifthStep(first: int, m: int, k: int)
    requires m > 0 && first % (5 * m) == 0
    ensures 0 <= k ==> ((first + k * m) % (5 * m) == 0 <==> k % 5 == 0)
  {
    if k < 0 {
      return;
    }
    var d := 5 * m;
    var q, a, b := first / d, k / 5, k % 5;
    var r := m * b;
    assert first == d * q;
    assert k * m == d * a + r by {
      assert k == 5 * a + b;
      assert (5 * a + b) * m == 5 * m * a + m * b;
    }
    assert first + k * m == d * (q + a) + r by {
      assert d * q + d * a == d * (q + a);
    }
    assert 0 <= r < d by {
      MulMonotone(b, 4, m);
    }
    ModUnique(first + k * m, d, q + a, r);
    assert r == 0 <==> b == 0;
  }

  /** The product of two integers, as a real, is the product of the reals. */
  lemma IntRealProduct(a: int, b: int)
    ensures (a * b) as real == a as real * b as real
  {
  }

  lemma ModUnique(p: int, d: int, q: int, r: int)
    requires d > 0 && 0 <= r < d && p == d * q + r
    ensures p % d == r
  {
    var q', r' := p / d, p % d;
    assert d * (q - q') == r' - r by {
      assert d * q + r == d * q' + r';
    }
    if q > q' {
      MulMonotone(1, q - q', d);
    } else if q < q' {
      MulMonotone(1, q' - q, d);
    }
  }

  /** A ruler with a negative scale shows no ticks at all: its end lies at
      or before its start. */
  lemma NegativeScaleNoTicks(scale: real, offset: real, length: real)
    requires scale < 0.0 && length >= 0.0
    ensures |Ticks(scale, offset, length)| == 0
  {
    assert length / scale <= 0.0;
  }

  /** Every tick is drawn within the ruler's length. */
  lemma TickPixelsInRuler(scale: real, offset: real, length: real, k: int)
    requires scale != 0.0 && length >= 0.0
    requires 0 <= k < |Ticks(scale, offset, length)|
    ensures 0.0 <= Ticks(scale, offset, length)[k].px < length
  {
    if scale < 0.0 {
      NegativeScaleNoTicks(scale, offset, length);
      assert false;
    }
    TicksInWindow(scale, offset, length, k);
    PixelsInRuler(Ticks(scale, offset, length)[k], StartPos(scale, offset), scale, length);
  }

  lemma PixelsInRuler(t: Tick, start: real, scale: real, length: real)
    requires scale > 0.0
    requires t.px == PixelOffset(t.pos, start, scale)
    requires start <= t.pos as real < start + length / scale
    ensures 0.0 <= t.px < length
  {
    var d := t.pos as real - start;
    MulLeqRight(0.0, d, scale);
    MulLtRight(d, length / scale, scale);
  }

  /** The labels are exactly the major ticks, each once, at the tick's own
      offset and with its position as text. */
  lemma {:induction false} LabelsOfMajorTicks(ts: seq<Tick>)
    ensures |LabelsOf(ts)| == CountMajor(ts)
    ensures forall l :: l in LabelsOf(ts) <==> exists t :: t in ts && t.major && l == LabelOf(t)
  {
    if ts != [] {
      var init, last := ts[..|ts| - 1], ts[|ts| - 1];
      LabelsOfMajorTicks(init);
      assert ts == init + [last];
      forall l
        ensures l in LabelsOf(ts) <==> exists t :: t in ts && t.major && l == LabelOf(t)
      {
        if l in LabelsOf(ts) && l !in LabelsOf(init) {
          assert last in ts;
        }
        if exists t :: t in ts && t.major && l == LabelOf(t) {
          var t :| t in ts && t.major && l == LabelOf(t);
          if t != last {
            assert t in init;
          }
        }
      }
    }
  }

  /** A ruler with `n` ticks shows `ceil(n / 5)` major ticks, and as many
      labels: the first tick and every fifth one after it. */
  lemma RulerMajorCount(scale: real, offset: real, length: real)
    requires scale != 0.0
    ensures CountMajor(Ticks(scale, offset, length)) == (|Ticks(scale, offset, length)| + 4) / 5
    ensures |LabelsOf(Ticks(scale, offset, length))| == (|Ticks(scale, offset, length)| + 4) / 5
  {
    var ts := Ticks(scale, offset, length);
    MajorCountIsCeilFifth(ts);
    LabelsOfMajorTicks(ts);
  }

  /** At scale 1 and offset 0 a 100-pixel ruler ends exactly on the second
      major multiple; the strict loop bound leaves it out, so the ruler shows
      five ticks and a single label. */
  lemma HundredPixelRuler()
    ensures |Ticks(1.0, 0.0, 100.0)| == 5
    ensures |LabelsOf(Ticks(1.0, 0.0, 100.0))| == 1
  {
    RulerMajorCount(1.0, 0.0, 100.0);
  }

  // ---------------------------------------------------------------------
  // Building the ticks

  /** The body of the ruler's tick update: the `if` cascade picks the major
      interval, the first tick is rounded up to a multiple of it, and the
      loop appends a tick for every minor step before the ruler's end, with
      a label after each major one. */
  method BuildTicks(scale: real, offset: real, length: real) returns (ts: seq<Tick>, ls: seq<Label>)
    requires scale != 0.0
    ensures ts == Ticks(scale, offset, length)
    ensures ls == LabelsOf(ts)
  {
    ts, ls := [], [];
    var visible := length / scale;
    var startPos := -offset / scale;

    var majorInterval := 100;
    if scale < 0.5 { majorInterval := 200; }
    if scale < 0.2 { majorInterval := 500; }
    if scale > 2.0 { majorInterval := 50; }
    if scale > 5.0 { majorInterval := 20; }
    assert majorInterval == MajorInterval(scale);

    var minorInterval := majorInterval / 5;
    var firstMajorTick := Ceil(startPos / majorInterval as real) * majorInterval;
    assert firstMajorTick == FirstTick(scale, offset);

    ghost var all := Ticks(scale, offset, length);
    ghost var end := EndPos(scale, offset, length);
    assert startPos + visible == end;
    assert |all| == TickCount(firstMajorTick, minorInterval, end);
    var pos := firstMajorTick;
    while pos as real < startPos + visible
      invariant pos == firstMajorTick + |ts| * minorInterval
      invariant |ts| <= |all|
      invariant ts == all[..|ts|]
      invariant ls == LabelsOf(ts)
      decreases Ceil(end) - pos
    {
      ghost var k := |ts|;
      StepInRange(firstMajorTick, minorInterval, end, k);
      var isMajor := pos % majorInterval == 0;
      var tick := Tick(pos, isMajor, PixelOffset(pos, startPos, scale));
      StepTick(scale, offset, length, k, pos);
      PrefixExtend(all, k);
      ts := ts + [tick];
      if isMajor {
        ls := ls + [LabelOf(tick)];
      }
      pos := pos + minorInterval;
      NextStep(firstMajorTick, minorInterval, k);
    }
    StepInRange(firstMajorTick, minorInterval, end, |ts|);
  }

  // ---------------------------------------------------------------------
  // The ruler element

  class Ruler {
    /** The ruler's extent in pixels along its axis: its width for the
        horizontal ruler, its height for the vertical one. */
    const length: real
    var scale: real
    var offset: real
    /** The tick and label elements currently in the ruler. */
    var ticks: seq<Tick>
    var labels: seq<Label>

    ghost predicate Valid()
      reads this
    {
      scale != 0.0
    }

    /** The ruler shows scale `s` and offset `o`. */
    ghost predicate Shows(s: real, o: real)
      reads this
    {
      s != 0.0 && scale == s && offset == o
      && ticks == Ticks(s, o, length) && labels == LabelsOf(ticks)
    }

    constructor (length: real)
      ensures Valid()
      ensures this.length == length
      ensures scale == 1.0 && offset == 0.0 && ticks == [] && labels == []
    {
      this.length := length;
      scale := 1.0;
      offset := 0.0;
      ticks := [];
      labels := [];
    }

    /** An observed attribute was set to a string that parses to `value`
        (`None` when it does not parse). A zero or unparsable scale reads as
        1, an unparsable offset as 0; either way the ticks are rebuilt. */
    method AttributeChanged(name: Attr, value: Option<real>)
      requires Valid()
      modifies this
      ensures Valid()
      ensures name == ScaleAttr ==> scale == NumberOr(value, 1.0) && offset == old(offset)
      ensures name == OffsetAttr ==> offset == NumberOr(value, 0.0) && scale == old(scale)
      ensures Shows(scale, offset)
    {
      match name
      case ScaleAttr =>
        scale := NumberOr(value, 1.0);
        UpdateTicks();
      case OffsetAttr =>
        offset := NumberOr(value, 0.0);
        UpdateTicks();
    }

    /** Empties the ruler and refills it with the ticks and labels for its
        current scale and offset. */
    method UpdateTicks()
      requires Valid()
      modifies this`ticks, this`labels
      ensures Shows(scale, offset)
    {
      ticks, labels := BuildTicks(scale, offset, length);
    }
  }
}
