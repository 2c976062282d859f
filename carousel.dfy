/**
 * The continuously scrolling strip of certificates in the achievements view.
 *
 * The strip holds the certificate list twice, back to back, and is moved left
 * by a motion value `x` (here `offset`, in pixels). The motion is planned in
 * segments: each runs at a constant speed from the current offset down to the
 * next multiple of the loop period `sliderWidth` (half the scroll width of the
 * doubled strip; with spacing between the items this is half a gap short of
 * the distance at which the second copy repeats the first). While a segment
 * runs, an update hook shifts the offset forward by one period once it has
 * travelled a full period; when a segment completes, the next one is planned
 * from wherever the offset then is. Hovering the strip stops the running
 * segment; leaving it plans a new segment from the frozen offset.
 *
 * Offsets and times are reals (JavaScript numbers without rounding). The
 * animation library's frame loop is replaced by an explicit `Tick`.
 */
module Carousel {

  /** Scroll speed, in pixels per second. */
  const Speed: real := 120.0

  // ---------------------------------------------------------------------------
  // Real arithmetic helpers

  function Abs(r: real): (a: real)
    ensures a >= 0.0
    ensures a == r || a == -r
  {
    if r < 0.0 then -r else r
  }

  /** JavaScript's rounding toward zero, as used by the `%` operator. */
  function Trunc(r: real): int
  {
    if r >= 0.0 then r.Floor else -((-r).Floor)
  }

  /** `k` whole periods of width `w`. */
  function Periods(k: int, w: real): real
  {
    k as real * w
  }

  /** `y` is a whole number of periods `w`. */
  ghost predicate IsMultiple(y: real, w: real)
  {
    exists k: int :: y == Periods(k, w)
  }

  lemma MulLe(a: real, b: real, w: real)
    requires a <= b && w > 0.0
    ensures a * w <= b * w
  {}

  lemma MulLt(a: real, b: real, w: real)
    requires a < b && w > 0.0
    ensures a * w < b * w
  {}

  /** `y`, which is `q` periods, lies at or above `q.Floor` periods and less than a period above that. */
  lemma FloorBracket(q: real, y: real, w: real)
    requires w > 0.0 && q * w == y
    ensures q.Floor as real * w <= y < q.Floor as real * w + w
  {
    var f := q.Floor as real;
    MulLe(f, q, w);
    MulLt(q, f + 1.0, w);
    assert (f + 1.0) * w == f * w + w;
    assert y < f * w + w;
  }

  /** The only multiple of `w` strictly inside (-w, w) is zero. */
  lemma SmallMultipleIsZero(k: int, w: real)
    requires w > 0.0
    requires Abs(Periods(k, w)) < w
    ensures k == 0
  {
    if k >= 1 {
      MulLe(1.0, k as real, w);
    } else if k <= -1 {
      MulLe(1.0, -k as real, w);
    }
  }

  /** Two multiples of `w` less than one period apart are equal. */
  lemma MultiplesApart(a: real, b: real, w: real)
    requires w > 0.0 && IsMultiple(a, w) && IsMultiple(b, w)
    requires Abs(a - b) < w
    ensures a == b
  {
    var i :| a == Periods(i, w);
    var j :| b == Periods(j, w);
    assert a - b == Periods(i - j, w);
    SmallMultipleIsZero(i - j, w);
  }

  // ---------------------------------------------------------------------------
  // Segment planning

  lemma RemainderOfNonNegative(x: real, w: real)
    requires x >= 0.0 && w > 0.0
    ensures 0.0 <= x - w * (x / w).Floor as real < w
  {
    FloorBracket(x / w, x, w);
  }

  lemma RemainderOfNegative(x: real, w: real)
    requires x < 0.0 && w > 0.0
    ensures -w < x + w * (-(x / w)).Floor as real <= 0.0
  {
    var q := x / w;
    assert q * w == x;
    assert (-q) * w == -x;
    FloorBracket(-q, -x, w);
  }

  /**
   * JavaScript's `x % w` on numbers: the remainder of division truncated toward
   * zero. It has the sign of `x`, is smaller than `w` in magnitude, and differs
   * from `x` by a whole number of periods.
   */
  function JsRem(x: real, w: real): (r: real)
    requires w > 0.0
    ensures Abs(r) < w
    ensures 0.0 <= x ==> 0.0 <= r
    ensures x <= 0.0 ==> r <= 0.0
    ensures IsMultiple(x - r, w)
  {
    var k := Trunc(x / w);
    if x >= 0.0 then
      RemainderOfNonNegative(x, w);
      assert x - (x - w * k as real) == Periods(k, w);
      x - w * k as real
    else
      RemainderOfNegative(x, w);
      assert x - (x - w * k as real) == Periods(k, w);
      x - w * k as real
  }

  /** The truncated remainder is the only value with the three properties above. */
  lemma {:induction false} JsRemUnique(x: real, w: real, r: real)
    requires w > 0.0
    requires Abs(r) < w
    requires 0.0 <= x ==> 0.0 <= r
    requires x <= 0.0 ==> r <= 0.0
    requires IsMultiple(x - r, w)
    ensures r == JsRem(x, w)
  {
    var s := JsRem(x, w);
    MultiplesApart(x - r, x - s, w);
  }

  /**
   * `sliderWidth - Math.abs(currentX % sliderWidth)`: the distance from `x` to the
   * next wrap point. Never zero, so no segment has zero length; exactly one full
   * period when `x` already sits on a period boundary, as the initial offset 0 does.
   */
  function RemainingDistance(x: real, w: real): (d: real)
    requires w > 0.0
    ensures 0.0 < d <= w
    ensures d == w <==> IsMultiple(x, w)
  {
    NoRemainderIffMultiple(x, w);
    w - Abs(JsRem(x, w))
  }

  /** The remainder vanishes exactly on the period boundaries. */
  lemma NoRemainderIffMultiple(x: real, w: real)
    requires w > 0.0
    ensures JsRem(x, w) == 0.0 <==> IsMultiple(x, w)
  {
    var r := JsRem(x, w);
    var k :| x - r == Periods(k, w);
    if IsMultiple(x, w) {
      MultiplesApart(x, x - r, w);
    }
    if r == 0.0 {
      assert x == Periods(k, w);
    }
  }

  /**
   * One planned leg of motion: from `start` down to `target` in `duration`
   * seconds. The animation handle of the source carries the same three values.
   */
  datatype Segment = Segment(start: real, target: real, duration: real)

  /**
   * `animateSlider`'s plan from the current offset `x`: travel the remaining
   * distance to the next wrap point at `Speed`.
   */
  function Plan(x: real, w: real): (s: Segment)
    requires w > 0.0
    ensures s.start == x
    ensures s.target < s.start
    ensures s.start - s.target <= w
    ensures s.duration > 0.0
    ensures s.start - s.target == Speed * s.duration
  {
    var d := RemainingDistance(x, w);
    Segment(x, x - d, d / Speed)
  }

  /**
   * A segment planned from a non-positive offset ends on the next multiple of
   * the period strictly below the offset: the target is a whole number of
   * periods, lies below `x`, and no more than one period below it.
   */
  lemma {:induction false} PlanTargetIsNextBoundary(x: real, w: real)
    requires w > 0.0 && x <= 0.0
    ensures IsMultiple(Plan(x, w).target, w)
    ensures Plan(x, w).target < x <= Plan(x, w).target + w
  {
    var r := JsRem(x, w);
    assert Abs(r) == -r;
    var t := Plan(x, w).target;
    assert t == (x - r) - w;
    var k :| x - r == Periods(k, w);
    assert Periods(k - 1, w) == Periods(k, w) - w;
    assert t == Periods(k - 1, w);
  }

  /** The next boundary below `y` is the unique multiple `t` with `t < y <= t + w`. */
  lemma {:induction false} NextBoundaryUnique(y: real, t: real, w: real)
    requires w > 0.0 && y <= 0.0
    requires IsMultiple(t, w) && t < y <= t + w
    ensures Plan(y, w).target == t
  {
    PlanTargetIsNextBoundary(y, w);
    MultiplesApart(Plan(y, w).target, t, w);
  }

  /**
   * Where a linear tween over `s` stands after `t` seconds: interpolated
   * between start and target, and clamped to the target once the duration
   * has elapsed.
   */
  function Position(s: Segment, t: real): (p: real)
    requires s.duration > 0.0 && s.target <= s.start && t >= 0.0
    ensures s.target <= p <= s.start
    ensures t >= s.duration ==> p == s.target
  {
    if t >= s.duration then s.target
    else
      var f := t / s.duration;
      MulLe(0.0, t, 1.0 / s.duration);
      MulLt(t, s.duration, 1.0 / s.duration);
      assert s.duration * (1.0 / s.duration) == 1.0;
      assert 0.0 <= f < 1.0;
      MulLe(f, 1.0, s.start - s.target + 1.0);
      assert (s.target - s.start) * f >= s.target - s.start;
      s.start + (s.target - s.start) * f
  }

  /**
   * Within a planned segment the offset falls at exactly `Speed` pixels per
   * second of elapsed time: the position after `t` seconds is `x - Speed * t`,
   * strictly above the target until the duration is up.
   */
  lemma {:induction false} PositionIsLinear(x: real, w: real, t: real)
    requires w > 0.0 && 0.0 <= t < Plan(x, w).duration
    ensures Position(Plan(x, w), t) == x - Speed * t
    ensures Plan(x, w).target < Position(Plan(x, w), t)
  {
    var s := Plan(x, w);
    var d := s.start - s.target;
    assert s.duration == d / Speed;
    assert t / s.duration == t * Speed / d;
    assert (s.target - s.start) * (t * Speed / d) == -(Speed * t);
    MulLt(t, s.duration, Speed);
  }

  /**
   * Resuming from any point of a running segment aims at the same wrap point and
   * needs exactly the time the interrupted segment had left: a pause neither
   * moves the strip nor changes where the loop next wraps.
   */
  lemma {:induction false} ReplanKeepsTarget(x: real, w: real, t: real)
    requires w > 0.0 && x <= 0.0 && 0.0 <= t < Plan(x, w).duration
    ensures Plan(Position(Plan(x, w), t), w).target == Plan(x, w).target
    ensures Plan(Position(Plan(x, w), t), w).duration == Plan(x, w).duration - t
  {
    var s := Plan(x, w);
    var y := Position(s, t);
    PositionIsLinear(x, w, t);
    PlanTargetIsNextBoundary(x, w);
    NextBoundaryUnique(y, s.target, w);
    var s' := Plan(y, w);
    assert Speed * s'.duration == y - s.target == Speed * (s.duration - t);
  }

  /**
   * The same for the offset the strip actually holds when it is paused, the
   * tween's value after the update hook: from an offset in (-w, 0] the hook does
   * not fire before the segment ends, so the frozen offset is the tween's value
   * and resuming from it aims at the same wrap point with exactly the time left.
   */
  lemma {:induction false} ResumeKeepsTarget(x: real, w: real, t: real)
    requires w > 0.0 && -w < x <= 0.0 && 0.0 <= t < Plan(x, w).duration
    ensures Wrap(Position(Plan(x, w), t), w) == Position(Plan(x, w), t)
    ensures Plan(Wrap(Position(Plan(x, w), t), w), w).target == Plan(x, w).target
    ensures Plan(Wrap(Position(Plan(x, w), t), w), w).duration == Plan(x, w).duration - t
  {
    assert -w == Periods(-1, w);
    NextBoundaryUnique(x, -w, w);
    PositionIsLinear(x, w, t);
    ReplanKeepsTarget(x, w, t);
  }

  /**
   * The `onUpdate` hook: once the tween's value has travelled a full period,
   * the offset is moved forward by exactly one period.
   */
  function Wrap(latest: real, w: real): (r: real)
    requires w > 0.0
    ensures Abs(latest) >= w ==> r == latest + w
    ensures Abs(latest) < w ==> r == latest
    ensures latest <= 0.0 ==> r <= 0.0
    ensures -2.0 * w <= latest <= -w ==> -w <= r <= 0.0
  {
    if Abs(latest) >= w then latest + w else latest
  }

  /** The hook only ever shifts by whole periods, so what is shown is unchanged. */
  lemma WrapCongruent(latest: real, w: real)
    requires w > 0.0
    ensures IsMultiple(Wrap(latest, w) - latest, w)
  {
    if Abs(latest) >= w {
      assert Wrap(latest, w) - latest == Periods(1, w);
    } else {
      assert Wrap(latest, w) - latest == Periods(0, w);
    }
  }

  /**
   * With a fixed period, an offset inside the window [-w, 0] stays inside it at
   * every moment of the segment planned from it, once the hook has run.
   */
  lemma {:induction false} WindowPreserved(x: real, w: real, t: real)
    requires w > 0.0 && -w <= x <= 0.0 && t >= 0.0
    ensures -w <= Wrap(Position(Plan(x, w), t), w) <= 0.0
  {
    assert -w == Periods(-1, w);
    assert -2.0 * w == Periods(-2, w);
    if x == -w {
      NextBoundaryUnique(x, -2.0 * w, w);
    } else {
      NextBoundaryUnique(x, -w, w);
    }
  }

  /**
   * The half-open window (-w, 0] is kept at every moment of a segment planned
   * from it: the hook fires only at the segment's end, turning -w into 0.
   */
  lemma {:induction false} OpenWindowPreserved(x: real, w: real, t: real)
    requires w > 0.0 && -w < x <= 0.0 && t >= 0.0
    ensures -w < Wrap(Position(Plan(x, w), t), w) <= 0.0
  {
    assert -w == Periods(-1, w);
    NextBoundaryUnique(x, -w, w);
    if t < Plan(x, w).duration {
      PositionIsLinear(x, w, t);
    }
  }

  /**
   * A segment planned from (-w, 0] completes at offset 0, and the next segment
   * is a full period travelled at the same speed: so after the first wrap every
   * segment is the same, and the strip moves at `Speed` across any number of
   * wraps.
   */
  lemma {:induction false} SegmentCompletes(x: real, w: real, t: real)
    requires w > 0.0 && -w < x <= 0.0 && t >= Plan(x, w).duration
    ensures Wrap(Position(Plan(x, w), t), w) == 0.0
    ensures Plan(0.0, w) == Segment(0.0, -w, w / Speed)
  {
    assert -w == Periods(-1, w);
    NextBoundaryUnique(x, -w, w);
    NextBoundaryUnique(0.0, -w, w);
    PlanTargetIsNextBoundary(0.0, w);
    PlanTargetIsNextBoundary(x, w);
    assert Speed * Plan(0.0, w).duration == w;
  }

  // ---------------------------------------------------------------------------
  // The strip

  /** The rendered strip: the certificate list followed by itself. */
  function Doubled<T>(items: seq<T>): (track: seq<T>)
    ensures |track| == 2 * |items|
    ensures forall i :: 0 <= i < |items| ==> track[i] == items[i] && track[i + |items|] == items[i]
  {
    items + items
  }

  /** Total width of a row of items, without the spacing between them. */
  function Sum(widths: seq<real>): real
  {
    if widths == [] then 0.0 else widths[0] + Sum(widths[1..])
  }

  lemma {:induction false} SumConcat(a: seq<real>, b: seq<real>)
    ensures Sum(a + b) == Sum(a) + Sum(b)
  {
    if a != [] {
      assert (a + b)[0] == a[0];
      assert (a + b)[1..] == a[1..] + b;
      SumConcat(a[1..], b);
    } else {
      assert a + b == b;
    }
  }

  /**
   * The scroll width of a row laid out with a fixed `gap` between neighbouring
   * items (the `space-x-*` spacing): the item widths plus one gap fewer than
   * there are items.
   */
  function RowWidth(widths: seq<real>, gap: real): real
  {
    if widths == [] then 0.0 else Sum(widths) + (|widths| - 1) as real * gap
  }

  /** Where item `i` of the row starts: the items before it, each followed by a gap. */
  function ItemStart(widths: seq<real>, gap: real, i: nat): real
    requires i <= |widths|
  {
    Sum(widths[..i]) + i as real * gap
  }

  /**
   * The distance by which the second copy of the list is offset from the first:
   * one copy's items and as many gaps. Shifting the strip by this distance puts
   * each item exactly where its twin was.
   */
  function RepeatDistance(widths: seq<real>, gap: real): real
  {
    Sum(widths) + |widths| as real * gap
  }

  /** Item `i + n` of the doubled strip starts exactly one repeat distance after item `i`. */
  lemma {:induction false} CopiesRepeat(widths: seq<real>, gap: real, i: nat)
    requires i <= |widths|
    ensures ItemStart(Doubled(widths), gap, i + |widths|)
         == ItemStart(Doubled(widths), gap, i) + RepeatDistance(widths, gap)
  {
    var track := Doubled(widths);
    assert track[..i + |widths|] == widths + widths[..i];
    assert track[..i] == widths[..i];
    SumConcat(widths, widths[..i]);
  }

  /**
   * The period the strip wraps by, half its scroll width, is half a gap short of
   * the repeat distance: it equals the repeat distance exactly when the items
   * have no spacing between them.
   */
  lemma {:induction false} HalfTrackIsPeriod(widths: seq<real>, gap: real)
    requires widths != []
    ensures RowWidth(Doubled(widths), gap) / 2.0 == RepeatDistance(widths, gap) - gap / 2.0
    ensures RowWidth(Doubled(widths), gap) / 2.0 == RepeatDistance(widths, gap) <==> gap == 0.0
  {
    SumConcat(widths, widths);
    assert |Doubled(widths)| == 2 * |widths|;
  }

  // ---------------------------------------------------------------------------
  // The animation state

  class Slider {
    /** The motion value `x` that translates the strip. */
    var offset: real
    /** `sliderWidth` captured by the most recent start. */
    var width: real
    /** Whether `animationRef.current` holds an animation. */
    var hasHandle: bool
    /** Whether that animation is still in flight (not stopped). */
    var running: bool
    /** The in-flight segment and the time spent in it so far. */
    var segment: Segment
    var elapsed: real

    ghost predicate Valid()
      reads this
    {
      && offset <= 0.0
      && (running ==> hasHandle)
      && (hasHandle ==>
            && width > 0.0
            && segment == Plan(segment.start, width)
            && segment.target < segment.start <= 0.0
            && 0.0 <= elapsed < segment.duration)
    }

    /**
     * The steady state once the period is fixed: the offset and the start of
     * the running segment lie in the half-open window (-width, 0].
     */
    ghost predicate InWindow()
      reads this
    {
      && -width < offset <= 0.0
      && (hasHandle ==> -width < segment.start)
    }

    /** Mounting: the motion value starts at 0 and no animation exists yet. */
    constructor ()
      ensures Valid()
      ensures offset == 0.0 && !hasHandle && !running
      ensures InWindow()
    {
      offset := 0.0;
      width := 1.0;
      hasHandle := false;
      running := false;
      segment := Segment(0.0, 0.0, 0.0);
      elapsed := 0.0;
    }

    /** `animateSlider`: start a fresh segment from the current offset. */
    method Animate()
      requires offset <= 0.0 && width > 0.0
      modifies this
      ensures Valid()
      ensures running && hasHandle
      ensures segment == Plan(old(offset), width) && elapsed == 0.0
      ensures offset == old(offset) && width == old(width)
    {
      segment := Plan(offset, width);
      elapsed := 0.0;
      hasHandle := true;
      running := true;
    }

    /**
     * `startSlider`, run on mount and when the mouse leaves the strip. Nothing
     * happens while the strip element is absent; otherwise the period is half its
     * scroll width and a segment is planned from the frozen offset, so the strip
     * does not jump.
     */
    method Start(mounted: bool, scrollWidth: real)
      requires Valid()
      requires mounted ==> scrollWidth > 0.0
      modifies this
      ensures Valid()
      ensures !mounted ==> unchanged(this)
      ensures mounted ==> && width == scrollWidth / 2.0
                          && running && hasHandle
                          && offset == old(offset)
                          && segment == Plan(old(offset), width)
                          && elapsed == 0.0
      ensures mounted && -width < old(offset) ==> InWindow()
    {
      if !mounted {
        return;
      }
      width := scrollWidth / 2.0;
      Animate();
    }

    /**
     * `pauseSlider`, run when the mouse enters the strip and on unmount: stops
     * the animation if there is one. The offset stays where it is; with no
     * animation, or one already stopped, nothing changes.
     */
    method Pause()
      requires Valid()
      modifies this
      ensures Valid()
      ensures !running
      ensures offset == old(offset) && segment == old(segment) && elapsed == old(elapsed)
      ensures width == old(width) && hasHandle == old(hasHandle)
      ensures !old(running) ==> unchanged(this)
      ensures old(InWindow()) ==> InWindow()
    {
      if hasHandle {
        running := false;
      }
    }

    /**
     * One animation frame, `dt` seconds after the previous one. A stopped strip
     * does not move. A running one takes the tween's value at the new elapsed
     * time, passes it through the update hook, and, once the segment's duration
     * is up, completes it and plans the next segment from the resulting offset.
     * Time beyond the end of a segment is not carried into the next one.
     */
    method Tick(dt: real)
      requires Valid() && dt >= 0.0
      modifies this
      ensures Valid()
      ensures !old(running) ==> unchanged(this)
      ensures old(running) ==>
        && running && hasHandle && width == old(width)
        && offset == Wrap(Position(old(segment), old(elapsed) + dt), width)
        && (if old(elapsed) + dt < old(segment).duration
            then segment == old(segment) && elapsed == old(elapsed) + dt
            else segment == Plan(offset, width) && elapsed == 0.0)
      ensures old(InWindow()) ==> InWindow()
      ensures old(running) && old(InWindow()) && old(elapsed) + dt >= old(segment).duration ==>
        offset == 0.0 && segment == Segment(0.0, -width, width / Speed)
    {
      if !running {
        return;
      }
      var t := elapsed + dt;
      var latest := Position(segment, t);
      if -width < segment.start {
        OpenWindowPreserved(segment.start, width, t);
        if t >= segment.duration {
          SegmentCompletes(segment.start, width, t);
        }
      }
      offset := Wrap(latest, width);
      if t < segment.duration {
        elapsed := t;
      } else {
        Animate();
      }
    }
  }

  /** The first segment at a 1000-pixel period: a full period in 1000/120 seconds. */
  lemma PlanFromOrigin()
    ensures Plan(0.0, 1000.0) == Segment(0.0, -1000.0, 25.0 / 3.0)
  {
    assert Trunc(0.0 / 1000.0) == 0;
    assert JsRem(0.0, 1000.0) == 0.0;
  }

  /** Resuming from -240 at a 1000-pixel period: 760 pixels left, in 760/120 seconds. */
  lemma PlanFromPaused()
    ensures Plan(-240.0, 1000.0) == Segment(-240.0, -1000.0, 19.0 / 3.0)
  {
    assert -240.0 / 1000.0 == -0.24;
    assert (0.24).Floor == 0;
    assert Trunc(-240.0 / 1000.0) == 0;
    assert JsRem(-240.0, 1000.0) == -240.0;
  }

  /** A strip with a 1000-pixel period, started at mount and left to run for two seconds. */
  method RunForTwoSeconds() returns (s: Slider)
    ensures fresh(s) && s.Valid() && s.hasHandle && s.width == 1000.0
    ensures s.offset == -240.0
  {
    PlanFromOrigin();
    PositionIsLinear(0.0, 1000.0, 2.0);
    s := new Slider();
    s.Start(true, 2000.0);
    assert s.segment == Segment(0.0, -1000.0, 25.0 / 3.0) && s.elapsed == 0.0;
    assert s.width == 1000.0 && s.running;
    s.Tick(2.0);
    assert s.offset == Wrap(Position(Segment(0.0, -1000.0, 25.0 / 3.0), 0.0 + 2.0), 1000.0);
    assert Wrap(-240.0, 1000.0) == -240.0;
  }

  /**
   * Pause and resume at the source's speed and a 1000-pixel period: two seconds
   * of travel from 0 reach -240; five seconds of hovering leave it there; one
   * second after the mouse leaves, the strip is at -360.
   */
  method PauseResumeScenario() returns (moved: real, hovered: real, resumed: real)
    ensures moved == -240.0 && hovered == -240.0 && resumed == -360.0
  {
    var s := RunForTwoSeconds();
    moved := s.offset;
    s.Pause();
    s.Tick(5.0);
    hovered := s.offset;
    PlanFromPaused();
    PositionIsLinear(-240.0, 1000.0, 1.0);
    s.Start(true, 2000.0);
    assert s.segment == Segment(-240.0, -1000.0, 19.0 / 3.0) && s.elapsed == 0.0;
    s.Tick(1.0);
    assert s.offset == Wrap(Position(Segment(-240.0, -1000.0, 19.0 / 3.0), 0.0 + 1.0), 1000.0);
    assert Wrap(-360.0, 1000.0) == -360.0;
    resumed := s.offset;
  }

  /**
   * Uninterrupted running at the source's speed and a 1000-pixel period: each
   * 1000/120 seconds completes one segment, and the hook brings the offset back
   * to 0, so 25 seconds are exactly three wraps.
   */
  method FullLoopScenario() returns (first: real, second: real, third: real)
    ensures first == 0.0 && second == 0.0 && third == 0.0
  {
    PlanFromOrigin();
    var s := new Slider();
    s.Start(true, 2000.0);
    s.Tick(25.0 / 3.0);
    first := s.offset;
    s.Tick(25.0 / 3.0);
    second := s.offset;
    s.Tick(25.0 / 3.0);
    third := s.offset;
  }
}
