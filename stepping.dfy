/**
 * The line geometry of the major and minor grids. From the grid centre a
 * cursor steps outward by a fixed spacing in four directions; each step emits
 * one full-height vertical or full-width horizontal line. The stepping is
 * specified by the recursive functions SteppedDown and SteppedUp, whose closed
 * forms (positions, counts, coverage of the viewport) are proved as lemmas.
 */
module Stepping {
  import opened Geometry

  /** Number of steps left when stepping down from pos by sp while pos >= 0. */
  function DownMeasure(pos: real, sp: real): nat
    requires sp > 0.0
  {
    if pos < 0.0 then 0 else (pos / sp).Floor + 1
  }

  /** Number of steps left when stepping up from pos by sp while pos < bound. */
  function UpMeasure(pos: real, sp: real, bound: real): nat
    requires sp > 0.0
  {
    if pos >= bound then 0 else -((pos - bound) / sp).Floor
  }

  lemma ZeroFactor(x: real, y: real)
    requires y > 0.0 && x * y == 0.0
    ensures x == 0.0
  {
  }

  lemma StepDivides(a: real, sp: real)
    requires sp > 0.0
    ensures ((a - sp) / sp).Floor == (a / sp).Floor - 1
    ensures ((a + sp) / sp).Floor == (a / sp).Floor + 1
  {
    var q := a / sp;
    var lo, hi := (a - sp) / sp, (a + sp) / sp;
    assert q * sp == a && lo * sp == a - sp && hi * sp == a + sp;
    assert (lo - (q - 1.0)) * sp == 0.0;
    assert (hi - (q + 1.0)) * sp == 0.0;
    ZeroFactor(lo - (q - 1.0), sp);
    ZeroFactor(hi - (q + 1.0), sp);
    assert lo == q - 1.0 && hi == q + 1.0;
    assert (q - 1.0).Floor == q.Floor - 1 && (q + 1.0).Floor == q.Floor + 1;
  }

  /** The positions pos, pos - sp, pos - 2sp, ... for as long as they are >= 0. */
  function SteppedDown(pos: real, sp: real): seq<real>
    requires sp > 0.0
    decreases DownMeasure(pos, sp)
  {
    if pos < 0.0 then []
    else
      StepDivides(pos, sp);
      [pos] + SteppedDown(pos - sp, sp)
  }

  /** The positions pos, pos + sp, pos + 2sp, ... for as long as they are < bound. */
  function SteppedUp(pos: real, sp: real, bound: real): seq<real>
    requires sp > 0.0
    decreases UpMeasure(pos, sp, bound)
  {
    if pos >= bound then []
    else
      StepDivides(pos - bound, sp);
      [pos] + SteppedUp(pos + sp, sp, bound)
  }

  /** The k-th position stepping down from s is s - k*sp, and it is >= 0. */
  lemma {:induction false} SteppedDownAt(s: real, sp: real, k: nat)
    requires sp > 0.0 && k < |SteppedDown(s, sp)|
    ensures SteppedDown(s, sp)[k] == s - k as real * sp
    ensures SteppedDown(s, sp)[k] >= 0.0
    decreases k
  {
    if k > 0 {
      SteppedDownAt(s - sp, sp, k - 1);
      assert (s - sp) - (k - 1) as real * sp == s - k as real * sp;
    }
  }

  /** Stepping down stops at the first negative position: s - n*sp < 0 for
      the number n of positions emitted. */
  lemma {:induction false} SteppedDownStops(s: real, sp: real)
    requires sp > 0.0
    ensures s - |SteppedDown(s, sp)| as real * sp < 0.0
    decreases |SteppedDown(s, sp)|
  {
    if s >= 0.0 {
      var n := |SteppedDown(s - sp, sp)|;
      SteppedDownStops(s - sp, sp);
      assert (s - sp) - n as real * sp == s - (n + 1) as real * sp;
    }
  }

  /** Stepping down from s >= 0 emits floor(s/sp) + 1 positions, none from s < 0. */
  lemma {:induction false} SteppedDownCount(s: real, sp: real)
    requires sp > 0.0
    ensures |SteppedDown(s, sp)| == if s < 0.0 then 0 else (s / sp).Floor + 1
    decreases |SteppedDown(s, sp)|
  {
    if s >= 0.0 {
      StepDivides(s, sp);
      SteppedDownCount(s - sp, sp);
      if s < sp {
        assert 0.0 <= s / sp < 1.0;
      }
    }
  }

  /** The k-th position stepping up from s is s + k*sp, and it is < bound. */
  lemma {:induction false} SteppedUpAt(s: real, sp: real, bound: real, k: nat)
    requires sp > 0.0 && k < |SteppedUp(s, sp, bound)|
    ensures SteppedUp(s, sp, bound)[k] == s + k as real * sp
    ensures SteppedUp(s, sp, bound)[k] < bound
    decreases k
  {
    if k > 0 {
      SteppedUpAt(s + sp, sp, bound, k - 1);
      assert (s + sp) + (k - 1) as real * sp == s + k as real * sp;
    }
  }

  /** Stepping up stops at the first position >= bound: s + n*sp >= bound for
      the number n of positions emitted. */
  lemma {:induction false} SteppedUpStops(s: real, sp: real, bound: real)
    requires sp > 0.0
    ensures s + |SteppedUp(s, sp, bound)| as real * sp >= bound
    decreases |SteppedUp(s, sp, bound)|
  {
    if s < bound {
      var n := |SteppedUp(s + sp, sp, bound)|;
      SteppedUpStops(s + sp, sp, bound);
      assert (s + sp) + n as real * sp == s + (n + 1) as real * sp;
    }
  }

  /** Stepping up from s < bound emits ceil((bound - s)/sp) positions, which is
      -floor((s - bound)/sp); none from s >= bound. */
  lemma {:induction false} SteppedUpCount(s: real, sp: real, bound: real)
    requires sp > 0.0
    ensures |SteppedUp(s, sp, bound)| == if s >= bound then 0 else -((s - bound) / sp).Floor
    decreases |SteppedUp(s, sp, bound)|
  {
    if s < bound {
      StepDivides(s - bound, sp);
      SteppedUpCount(s + sp, sp, bound);
      assert (s + sp) - bound == (s - bound) + sp;
      if s + sp >= bound {
        assert -1.0 <= (s - bound) / sp < 0.0;
      }
    }
  }

  /** Stepping down from c reaches every c - k*sp that is still >= 0. */
  lemma {:induction false} SteppedDownReaches(c: real, sp: real, k: nat)
    requires sp > 0.0 && c - k as real * sp >= 0.0
    ensures k < |SteppedDown(c, sp)| && SteppedDown(c, sp)[k] == c - k as real * sp
    decreases k
  {
    assert c >= 0.0 by {
      assert k as real * sp >= 0.0;
    }
    var rest := SteppedDown(c - sp, sp);
    assert SteppedDown(c, sp) == [c] + rest;
    if k > 0 {
      assert (c - sp) - (k - 1) as real * sp == c - k as real * sp;
      SteppedDownReaches(c - sp, sp, k - 1);
      assert SteppedDown(c, sp)[k] == rest[k - 1];
    }
  }

  /** Stepping up from s reaches every s + k*sp that is still < bound. */
  lemma {:induction false} SteppedUpReaches(s: real, sp: real, bound: real, k: nat)
    requires sp > 0.0 && s + k as real * sp < bound
    ensures k < |SteppedUp(s, sp, bound)| && SteppedUp(s, sp, bound)[k] == s + k as real * sp
    decreases k
  {
    assert s < bound by {
      assert k as real * sp >= 0.0;
    }
    var rest := SteppedUp(s + sp, sp, bound);
    assert SteppedUp(s, sp, bound) == [s] + rest;
    if k > 0 {
      assert (s + sp) + (k - 1) as real * sp == s + k as real * sp;
      SteppedUpReaches(s + sp, sp, bound, k - 1);
      assert SteppedUp(s, sp, bound)[k] == rest[k - 1];
    }
  }

  /** Every lattice position c + k*sp (k any integer) inside [0, bound) is
      emitted: k <= 0 by stepping down from c, k >= 1 by stepping up from c + sp. */
  lemma LatticeCovered(c: real, sp: real, bound: real, k: int)
    requires sp > 0.0 && 0.0 <= c + k as real * sp < bound
    ensures k <= 0 ==> -k < |SteppedDown(c, sp)| && SteppedDown(c, sp)[-k] == c + k as real * sp
    ensures k >= 1 ==> k - 1 < |SteppedUp(c + sp, sp, bound)| &&
                       SteppedUp(c + sp, sp, bound)[k - 1] == c + k as real * sp
  {
    if k <= 0 {
      var j: nat := -k;
      assert j as real * sp == -(k as real * sp) by {
        assert j as real == -(k as real);
      }
      SteppedDownReaches(c, sp, j);
    } else {
      var j: nat := k - 1;
      assert (c + sp) + j as real * sp == c + k as real * sp by {
        assert j as real == k as real - 1.0;
      }
      SteppedUpReaches(c + sp, sp, bound, j);
    }
  }

  /** The minor grid, stepped by sp/5, passes through every major line left of
      the centre: the k-th major position down from c is the 5k-th minor one. */
  lemma MinorRefinesMajorDown(c: real, sp: real, k: nat)
    requires sp > 0.0 && k < |SteppedDown(c, sp)|
    ensures 5 * k < |SteppedDown(c, sp / 5.0)|
    ensures SteppedDown(c, sp / 5.0)[5 * k] == SteppedDown(c, sp)[k]
  {
    var minor := sp / 5.0;
    SteppedDownAt(c, sp, k);
    assert (5 * k) as real * minor == k as real * sp;
    SteppedDownReaches(c, minor, 5 * k);
  }

  /** The minor grid passes through every major line right of the centre: the
      k-th major position up from c + sp is the (5k+4)-th minor one up from
      c + sp/5. */
  lemma MinorRefinesMajorUp(c: real, sp: real, bound: real, k: nat)
    requires sp > 0.0 && k < |SteppedUp(c + sp, sp, bound)|
    ensures 5 * k + 4 < |SteppedUp(c + sp / 5.0, sp / 5.0, bound)|
    ensures SteppedUp(c + sp / 5.0, sp / 5.0, bound)[5 * k + 4] == SteppedUp(c + sp, sp, bound)[k]
  {
    var minor := sp / 5.0;
    SteppedUpAt(c + sp, sp, bound, k);
    var j := 5 * k + 4;
    assert (c + minor) + j as real * minor == (c + sp) + k as real * sp by {
      assert j as real == 5.0 * (k as real + 1.0) - 1.0;
      assert 5.0 * minor == sp;
    }
    SteppedUpReaches(c + minor, minor, bound, j);
  }

  /** With the centre at 400 in an 800-wide viewport and spacing 40, eleven
      vertical lines are emitted at or left of the centre and nine right of it. */
  lemma CentredLineCounts()
    ensures |SteppedDown(400.0, 40.0)| == 11
    ensures |SteppedUp(440.0, 40.0, 800.0)| == 9
  {
    SteppedDownCount(400.0, 40.0);
    SteppedUpCount(440.0, 40.0, 800.0);
  }

  /** Which way a grid line runs. */
  datatype Axis = Vertical | Horizontal

  /** The line at pos: a vertical line x = pos from y = 0 to the viewport's
      height, or a horizontal line y = pos from x = 0 to its width. */
  function Line(axis: Axis, pos: real, size: Size): Segment
  {
    match axis
    case Vertical => Segment(Point(pos, 0.0), Point(pos, size.height))
    case Horizontal => Segment(Point(0.0, pos), Point(size.width, pos))
  }

  /** One line per position, in order. */
  function Lines(axis: Axis, ps: seq<real>, size: Size): seq<Segment>
  {
    if ps == [] then [] else [Line(axis, ps[0], size)] + Lines(axis, ps[1..], size)
  }

  /** The i-th emitted line is the line at the i-th position. */
  lemma {:induction false} LinesAt(axis: Axis, ps: seq<real>, size: Size, i: nat)
    requires i < |ps|
    ensures |Lines(axis, ps, size)| == |ps|
    ensures Lines(axis, ps, size)[i] == Line(axis, ps[i], size)
  {
    if i > 0 {
      LinesAt(axis, ps[1..], size, i - 1);
    } else if |ps| > 1 {
      LinesAt(axis, ps[1..], size, 0);
    }
  }

  /** All lines of a grid with the given centre and spacing in a viewport of
      the given size, in emission order: vertical lines stepping left from the
      centre, then right, then horizontal lines stepping towards y = 0, then
      towards the viewport's height. */
  function GridLines(size: Size, center: Point, sp: real): seq<Segment>
    requires sp > 0.0
  {
    Lines(Vertical, SteppedDown(center.x, sp), size) +
    Lines(Vertical, SteppedUp(center.x + sp, sp, size.width), size) +
    Lines(Horizontal, SteppedDown(center.y, sp), size) +
    Lines(Horizontal, SteppedUp(center.y + sp, sp, size.height), size)
  }

  /** On one axis, the lines stepped down from c and up from c + sp include
      the line at c + k*sp for every integer k that puts it in [0, bound). */
  lemma AxisShowsLattice(axis: Axis, c: real, sp: real, bound: real, size: Size, k: int)
    requires sp > 0.0 && 0.0 <= c + k as real * sp < bound
    ensures Line(axis, c + k as real * sp, size) in
              Lines(axis, SteppedDown(c, sp), size) + Lines(axis, SteppedUp(c + sp, sp, bound), size)
  {
    var down := Lines(axis, SteppedDown(c, sp), size);
    var up := Lines(axis, SteppedUp(c + sp, sp, bound), size);
    LatticeCovered(c, sp, bound, k);
    if k <= 0 {
      LinesAt(axis, SteppedDown(c, sp), size, -k);
      assert (down + up)[-k] == down[-k];
    } else {
      LinesAt(axis, SteppedUp(c + sp, sp, bound), size, k - 1);
      assert (down + up)[|down| + k - 1] == up[k - 1];
    }
  }

  /** Every line of the lattice through the centre that falls inside the
      viewport is drawn: the vertical line at center.x + k*sp whenever that
      lies in [0, width), the horizontal one at center.y + k*sp whenever that
      lies in [0, height), for every integer k. */
  lemma GridShowsLattice(size: Size, center: Point, sp: real, k: int)
    requires sp > 0.0
    ensures 0.0 <= center.x + k as real * sp < size.width ==>
              Line(Vertical, center.x + k as real * sp, size) in GridLines(size, center, sp)
    ensures 0.0 <= center.y + k as real * sp < size.height ==>
              Line(Horizontal, center.y + k as real * sp, size) in GridLines(size, center, sp)
  {
    var vertical := Lines(Vertical, SteppedDown(center.x, sp), size) +
                    Lines(Vertical, SteppedUp(center.x + sp, sp, size.width), size);
    var horizontal := Lines(Horizontal, SteppedDown(center.y, sp), size) +
                      Lines(Horizontal, SteppedUp(center.y + sp, sp, size.height), size);
    assert GridLines(size, center, sp) == vertical + horizontal;
    if 0.0 <= center.x + k as real * sp < size.width {
      AxisShowsLattice(Vertical, center.x, sp, size.width, size, k);
    }
    if 0.0 <= center.y + k as real * sp < size.height {
      AxisShowsLattice(Horizontal, center.y, sp, size.height, size, k);
    }
  }

  /** One iteration of a loop stepping down: emitting the line at pos and
      moving to pos - sp keeps what is emitted plus what remains the same. */
  lemma EmitDown(lines: seq<Segment>, total: seq<Segment>, axis: Axis, pos: real, sp: real, size: Size)
    requires sp > 0.0 && pos >= 0.0
    requires lines + Lines(axis, SteppedDown(pos, sp), size) == total
    ensures (lines + [Line(axis, pos, size)]) + Lines(axis, SteppedDown(pos - sp, sp), size) == total
    ensures |SteppedDown(pos - sp, sp)| < |SteppedDown(pos, sp)|
  {
    var rest := SteppedDown(pos - sp, sp);
    assert SteppedDown(pos, sp) == [pos] + rest;
    assert ([pos] + rest)[1..] == rest;
  }

  /** One iteration of a loop stepping up towards bound. */
  lemma EmitUp(lines: seq<Segment>, total: seq<Segment>, axis: Axis, pos: real, sp: real, bound: real, size: Size)
    requires sp > 0.0 && pos < bound
    requires lines + Lines(axis, SteppedUp(pos, sp, bound), size) == total
    ensures (lines + [Line(axis, pos, size)]) + Lines(axis, SteppedUp(pos + sp, sp, bound), size) == total
    ensures |SteppedUp(pos + sp, sp, bound)| < |SteppedUp(pos, sp, bound)|
  {
    var rest := SteppedUp(pos + sp, sp, bound);
    assert SteppedUp(pos, sp, bound) == [pos] + rest;
    assert ([pos] + rest)[1..] == rest;
  }

  /** The four loops shared by the major and the minor grid: a cursor steps
      from the centre outward, emitting one line per step. */
  method DrawLines(size: Size, center: Point, sp: real) returns (lines: seq<Segment>)
    requires sp > 0.0
    ensures lines == GridLines(size, center, sp)
  {
    lines := [];
    ghost var total := Lines(Vertical, SteppedDown(center.x, sp), size);
    var pos := center.x;
    while pos >= 0.0
      invariant lines + Lines(Vertical, SteppedDown(pos, sp), size) == total
      decreases |SteppedDown(pos, sp)|
    {
      EmitDown(lines, total, Vertical, pos, sp, size);
      lines := lines + [Line(Vertical, pos, size)];
      pos := pos - sp;
    }
    assert lines == Lines(Vertical, SteppedDown(center.x, sp), size);
    total := lines + Lines(Vertical, SteppedUp(center.x + sp, sp, size.width), size);
    pos := center.x + sp;
    while pos < size.width
      invariant lines + Lines(Vertical, SteppedUp(pos, sp, size.width), size) == total
      decreases |SteppedUp(pos, sp, size.width)|
    {
      EmitUp(lines, total, Vertical, pos, sp, size.width, size);
      lines := lines + [Line(Vertical, pos, size)];
      pos := pos + sp;
    }
    assert lines == Lines(Vertical, SteppedDown(center.x, sp), size) +
                    Lines(Vertical, SteppedUp(center.x + sp, sp, size.width), size);
    total := lines + Lines(Horizontal, SteppedDown(center.y, sp), size);
    pos := center.y;
    while pos >= 0.0
      invariant lines + Lines(Horizontal, SteppedDown(pos, sp), size) == total
      decreases |SteppedDown(pos, sp)|
    {
      EmitDown(lines, total, Horizontal, pos, sp, size);
      lines := lines + [Line(Horizontal, pos, size)];
      pos := pos - sp;
    }
    assert lines == Lines(Vertical, SteppedDown(center.x, sp), size) +
                    Lines(Vertical, SteppedUp(center.x + sp, sp, size.width), size) +
                    Lines(Horizontal, SteppedDown(center.y, sp), size);
    total := lines + Lines(Horizontal, SteppedUp(center.y + sp, sp, size.height), size);
    pos := center.y + sp;
    while pos < size.height
      invariant lines + Lines(Horizontal, SteppedUp(pos, sp, size.height), size) == total
      decreases |SteppedUp(pos, sp, size.height)|
    {
      EmitUp(lines, total, Horizontal, pos, sp, size.height, size);
      lines := lines + [Line(Horizontal, pos, size)];
      pos := pos + sp;
    }
  }
}
