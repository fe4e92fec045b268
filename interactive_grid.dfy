/**
 * InteractiveGrid: a lattice of dots covering the canvas. Dots near the
 * mouse grow and brighten. Each frame moves every dot's radius and alpha
 * a fixed fraction towards a target given by a smoothstep of its distance
 * to the mouse.
 */
module InteractiveGrid {
  import opened Anim

  /** The component's default props. */
  const DEFAULT_GAP: real := 34.0
  const DEFAULT_DOT_RADIUS: real := 2.0
  const DEFAULT_MAX_SCALE: real := 5.0
  const DEFAULT_INFLUENCE: real := 130.0

  /** Every dot rests at this alpha. */
  const BASE_ALPHA: real := 0.20
  /** The alpha of a dot right under the mouse. */
  const PEAK_ALPHA: real := 0.88
  const EASE_SPEED: real := 0.11

  datatype Dot = Dot(x: real, y: real, baseR: real, r: real, baseAlpha: real, alpha: real)

  /** Mouse position relative to the canvas. */
  datatype Point = Point(x: real, y: real)

  // ─── buildGrid ──────────────────────────────────────────────────────────────

  /** Math.ceil. */
  function Ceil(x: real): (n: int)
    ensures x <= n as real < x + 1.0
  {
    -((-x).Floor)
  }

  /** `Math.ceil(len / gap) + 1`: the number of columns (or rows) of the lattice. */
  function Count(len: real, gap: real): (n: nat)
    requires 0.0 <= len && 0.0 < gap
    ensures 1 <= n
  {
    Ceil(len / gap) + 1
  }

  /** `(len - (count - 1) * gap) / 2`: where the first column (or row) sits. */
  function Offset(len: real, gap: real): real
    requires 0.0 <= len && 0.0 < gap
  {
    (len - (Count(len, gap) - 1) as real * gap) / 2.0
  }

  /** The k-th dot buildGrid pushes, in row-major order, at rest. */
  function LatticeDot(w: real, h: real, gap: real, radius: real, k: nat): Dot
    requires 0.0 <= w && 0.0 <= h && 0.0 < gap
  {
    var cols := Count(w, gap);
    Dot(Offset(w, gap) + (k % cols) as real * gap, Offset(h, gap) + (k / cols) as real * gap,
        radius, radius, BASE_ALPHA, BASE_ALPHA)
  }

  lemma LatticeAt(w: real, h: real, gap: real, radius: real, row: nat, col: nat)
    requires 0.0 <= w && 0.0 <= h && 0.0 < gap && col < Count(w, gap)
    ensures LatticeDot(w, h, gap, radius, row * Count(w, gap) + col) ==
            Dot(Offset(w, gap) + col as real * gap, Offset(h, gap) + row as real * gap,
                radius, radius, BASE_ALPHA, BASE_ALPHA)
  {
    var cols := Count(w, gap);
    var k := row * cols + col;
    assert k / cols == row && k % cols == col by {
      LemmaDivModUnique(k, cols, row, col);
    }
  }

  lemma LemmaDivModUnique(k: int, n: int, q: int, r: int)
    requires 0 < n && 0 <= r < n && k == q * n + r
    ensures k / n == q && k % n == r
  {
    var q0, r0 := k / n, k % n;
    assert (q - q0) * n == r0 - r;
    if q > q0 {
      MulAtLeast(q - q0, n);
    } else if q < q0 {
      MulAtLeast(q0 - q, n);
    }
  }

  lemma MulAtLeast(a: int, n: int)
    requires 1 <= a && 0 < n
    ensures n <= a * n
  {
    assert a * n - n == (a - 1) * n;
  }

  /** buildGrid(w, h): ceil(w / gap) + 1 columns by ceil(h / gap) + 1 rows of resting dots, row by row. */
  method BuildGrid(w: real, h: real, gap: real, radius: real) returns (dots: seq<Dot>)
    requires 0.0 <= w && 0.0 <= h && 0.0 < gap
    ensures |dots| == Count(w, gap) * Count(h, gap)
    ensures forall k :: 0 <= k < |dots| ==> dots[k] == LatticeDot(w, h, gap, radius, k)
  {
    var cols := Count(w, gap);
    var rows := Count(h, gap);
    var offsetX := (w - (cols - 1) as real * gap) / 2.0;
    var offsetY := (h - (rows - 1) as real * gap) / 2.0;
    dots := [];
    var row := 0;
    while row < rows
      invariant 0 <= row <= rows
      invariant |dots| == row * cols
      invariant forall k :: 0 <= k < |dots| ==> dots[k] == LatticeDot(w, h, gap, radius, k)
    {
      dots := PushRow(dots, w, h, gap, radius, offsetX, offsetY, row);
      row := row + 1;
    }
  }

  /** The inner loop of buildGrid: one row of dots pushed after the rows above it. */
  method PushRow(dots: seq<Dot>, w: real, h: real, gap: real, radius: real, offsetX: real, offsetY: real, row: nat)
    returns (r: seq<Dot>)
    requires 0.0 <= w && 0.0 <= h && 0.0 < gap
    requires offsetX == Offset(w, gap) && offsetY == Offset(h, gap)
    requires |dots| == row * Count(w, gap)
    requires forall k :: 0 <= k < |dots| ==> dots[k] == LatticeDot(w, h, gap, radius, k)
    ensures |r| == (row + 1) * Count(w, gap)
    ensures forall k :: 0 <= k < |r| ==> r[k] == LatticeDot(w, h, gap, radius, k)
  {
    var cols := Count(w, gap);
    r := dots;
    var col := 0;
    while col < cols
      invariant 0 <= col <= cols
      invariant |r| == row * cols + col
      invariant forall k :: 0 <= k < |r| ==> r[k] == LatticeDot(w, h, gap, radius, k)
    {
      LatticeAt(w, h, gap, radius, row, col);
      r := r + [Dot(offsetX + col as real * gap, offsetY + row as real * gap, radius, radius, BASE_ALPHA, BASE_ALPHA)];
      col := col + 1;
    }
  }

  /**
   * The lattice is centred and covers the span: the first and the last
   * column are equally far from the two edges, the first sits at or before
   * 0 and the last at or beyond len, each by less than half a gap.
   */
  lemma Centred(len: real, gap: real)
    requires 0.0 <= len && 0.0 < gap
    ensures Offset(len, gap) + (Count(len, gap) - 1) as real * gap == len - Offset(len, gap)
    ensures -gap / 2.0 < Offset(len, gap) <= 0.0
  {
    var m := (Count(len, gap) - 1) as real;
    var q := len / gap;
    assert q * gap == len;
    CeilScaled(len, gap, q, m);
  }

  /** A whole number of gaps m with q <= m < q + 1, where q gaps span len, spans at least len and less than len + gap. */
  lemma CeilScaled(len: real, gap: real, q: real, m: real)
    requires 0.0 < gap && q * gap == len && q <= m < q + 1.0
    ensures len <= m * gap < len + gap
  {
    var e := m - q;
    var p := e * gap;
    NonNegProduct(e, gap, p);
    StrictScale(gap, e, p);
    assert m * gap == len + p;
  }

  lemma StrictScale(d: real, t: real, p: real)
    requires 0.0 < d && 0.0 <= t < 1.0 && p == t * d
    ensures p < d
  {
    assert d - p == (1.0 - t) * d;
  }

  lemma MulMono(a: real, b: real, c: real)
    requires a <= b && 0.0 <= c
    ensures a * c <= b * c
  {
    assert b * c - a * c == (b - a) * c;
  }


  /**
   * Neighbouring dots in a row are gap apart horizontally and share y;
   * neighbouring dots in a column are gap apart vertically and share x.
   * Every dot of a fresh lattice has r = baseR = the radius prop and
   * alpha = baseAlpha = 0.20.
   */
  lemma {:induction false} LatticeSpacing(w: real, h: real, gap: real, radius: real, k: nat)
    requires 0.0 <= w && 0.0 <= h && 0.0 < gap
    ensures var d := LatticeDot(w, h, gap, radius, k);
            d.r == d.baseR == radius && d.alpha == d.baseAlpha == BASE_ALPHA
    ensures k % Count(w, gap) < Count(w, gap) - 1 ==>
              LatticeDot(w, h, gap, radius, k + 1).x == LatticeDot(w, h, gap, radius, k).x + gap &&
              LatticeDot(w, h, gap, radius, k + 1).y == LatticeDot(w, h, gap, radius, k).y
    ensures LatticeDot(w, h, gap, radius, k + Count(w, gap)).x == LatticeDot(w, h, gap, radius, k).x
    ensures LatticeDot(w, h, gap, radius, k + Count(w, gap)).y == LatticeDot(w, h, gap, radius, k).y + gap
  {
    DivModStep(k, Count(w, gap));
  }

  lemma DivModStep(k: nat, n: nat)
    requires 0 < n
    ensures k % n < n - 1 ==> (k + 1) / n == k / n && (k + 1) % n == k % n + 1
    ensures (k + n) / n == k / n + 1 && (k + n) % n == k % n
  {
    var q, r := k / n, k % n;
    assert k == q * n + r;
    if r < n - 1 {
      LemmaDivModUnique(k + 1, n, q, r + 1);
    }
    assert k + n == (q + 1) * n + r;
    LemmaDivModUnique(k + n, n, q + 1, r);
  }

  // ─── The proximity target ───────────────────────────────────────────────────

  /** `t * t * (3 - 2 * t)` */
  function Smoothstep(t: real): (s: real)
    ensures t == 0.0 ==> s == 0.0
    ensures t == 1.0 ==> s == 1.0
    ensures 0.0 <= t <= 1.0 ==> 0.0 <= s <= 1.0
  {
    if 0.0 <= t <= 1.0 then
      SmoothstepBound(t);
      t * t * (3.0 - 2.0 * t)
    else
      t * t * (3.0 - 2.0 * t)
  }

  lemma SmoothstepBound(t: real)
    requires 0.0 <= t <= 1.0
    ensures 0.0 <= t * t * (3.0 - 2.0 * t) <= 1.0
  {
    var tt := t * t;
    ScaleBound(t, t, tt);
    var s := tt * (3.0 - 2.0 * t);
    NonNegProduct(tt, 3.0 - 2.0 * t, s);
    var u := (1.0 - t) * (1.0 - t);
    NonNegProduct(1.0 - t, 1.0 - t, u);
    NonNegProduct(u, 1.0 + 2.0 * t, 1.0 - s);
  }

  lemma SmoothstepPositive(t: real)
    requires 0.0 < t <= 1.0
    ensures 0.0 < Smoothstep(t)
  {
    var tt := t * t;
    PosProduct(t, t, tt);
    PosProduct(tt, 3.0 - 2.0 * t, tt * (3.0 - 2.0 * t));
  }

  /** The target radius and alpha of a dot. */
  datatype Goal = Goal(r: real, alpha: real)

  /**
   * The smoothstep of the proximity when the mouse is over the canvas,
   * motion is not reduced and the dot lies closer than influence; None
   * otherwise.
   */
  function Eased(d: Dot, mouse: Option<Point>, reduced: bool, influence: real, sqrt: SquareRoot): (e: Option<real>)
    ensures mouse == None || reduced ==> e == None
    ensures mouse.Some? && Distance(d, mouse.value, sqrt) >= influence ==> e == None
    ensures mouse.Some? && !reduced && Distance(d, mouse.value, sqrt) < influence ==> e.Some?
    ensures e.Some? ==> 0.0 < e.value <= 1.0
  {
    if mouse.Some? && !reduced && Distance(d, mouse.value, sqrt) < influence then
      var t := Proximity(Distance(d, mouse.value, sqrt), influence);
      SmoothstepPositive(t);
      Some(Smoothstep(t))
    else
      None
  }

  /** `1 - dist / influence`: 1 at the mouse, falling to 0 at distance influence. */
  function Proximity(dist: real, influence: real): (t: real)
    requires 0.0 <= dist < influence
    ensures 0.0 < t <= 1.0
    ensures dist == 0.0 ==> t == 1.0
  {
    DivUnit(dist, influence);
    1.0 - dist / influence
  }

  /** The grown target for an eased proximity: `baseR + baseR * (maxScale - 1) * eased` and `lerp(baseAlpha, 0.88, eased)`. */
  function Grown(d: Dot, maxScale: real, eased: real): (g: Goal)
    requires 0.0 <= eased <= 1.0
    ensures 0.0 <= d.baseR && 1.0 <= maxScale ==> d.baseR <= g.r <= d.baseR * maxScale
    ensures Between(g.alpha, d.baseAlpha, PEAK_ALPHA)
    ensures eased == 0.0 ==> g == Goal(d.baseR, d.baseAlpha)
    ensures eased == 1.0 ==> g.alpha == PEAK_ALPHA
  {
    var r := d.baseR + d.baseR * (maxScale - 1.0) * eased;
    GrowthBound(d.baseR, maxScale, eased, r);
    Goal(r, Lerp(d.baseAlpha, PEAK_ALPHA, eased))
  }

  /**
   * The target of one dot: its resting radius and alpha unless it is near
   * the mouse; then radius and alpha grow with the eased proximity, up to
   * baseR * maxScale and 0.88.
   */
  function DotGoal(d: Dot, eased: Option<real>, maxScale: real): (g: Goal)
    requires eased.Some? ==> 0.0 <= eased.value <= 1.0
    ensures eased == None ==> g == Goal(d.baseR, d.baseAlpha)
    ensures 0.0 <= d.baseR && 1.0 <= maxScale ==> d.baseR <= g.r <= d.baseR * maxScale
    ensures Between(g.alpha, d.baseAlpha, PEAK_ALPHA)
  {
    match eased
    case None =>
      ScaleUp(d.baseR, maxScale);
      Goal(d.baseR, d.baseAlpha)
    case Some(e) => Grown(d, maxScale, e)
  }

  /** The resting radius is within the range. */
  lemma ScaleUp(baseR: real, maxScale: real)
    ensures 0.0 <= baseR && 1.0 <= maxScale ==> baseR <= baseR * maxScale
  {
    if 0.0 <= baseR && 1.0 <= maxScale {
      MulMono(1.0, maxScale, baseR);
    }
  }

  /** `Math.sqrt(dx * dx + dy * dy)` */
  function Distance(d: Dot, m: Point, sqrt: SquareRoot): (r: real)
    ensures 0.0 <= r
  {
    var dx, dy := d.x - m.x, d.y - m.y;
    SumOfSquares(dx, dy);
    sqrt(dx * dx + dy * dy)
  }

  lemma SumOfSquares(a: real, b: real)
    ensures 0.0 <= a * a + b * b
  {
    if a < 0.0 { NonNegProduct(-a, -a, a * a); } else { NonNegProduct(a, a, a * a); }
    if b < 0.0 { NonNegProduct(-b, -b, b * b); } else { NonNegProduct(b, b, b * b); }
  }

  lemma DivUnit(a: real, b: real)
    requires 0.0 <= a < b
    ensures 0.0 <= a / b <= 1.0
  {
  }

  lemma GrowthBound(baseR: real, maxScale: real, eased: real, r: real)
    requires 0.0 <= eased <= 1.0
    requires r == baseR + baseR * (maxScale - 1.0) * eased
    ensures 0.0 <= baseR && 1.0 <= maxScale ==> baseR <= r <= baseR * maxScale
  {
    if 0.0 <= baseR && 1.0 <= maxScale {
      var span := baseR * (maxScale - 1.0);
      NonNegProduct(baseR, maxScale - 1.0, span);
      ScaleBound(span, eased, span * eased);
      assert baseR + span == baseR * maxScale;
    }
  }

  // ─── The per-frame step ─────────────────────────────────────────────────────

  /** `prefersReduced ? 1 : 0.11` */
  function Speed(reduced: bool): real {
    if reduced then 1.0 else EASE_SPEED
  }

  /** `dot.r = lerp(dot.r, targetR, speed); dot.alpha = lerp(dot.alpha, targetAlpha, speed)`: nothing else changes. */
  function StepToward(d: Dot, g: Goal, speed: real): (r: Dot)
    ensures r == d.(r := r.r, alpha := r.alpha)
    ensures speed == 1.0 ==> r.r == g.r && r.alpha == g.alpha
    ensures speed == 0.0 ==> r == d
    ensures 0.0 <= speed <= 1.0 ==> Between(r.r, d.r, g.r) && Between(r.alpha, d.alpha, g.alpha)
  {
    d.(r := Lerp(d.r, g.r, speed), alpha := Lerp(d.alpha, g.alpha, speed))
  }

  /** The target of a dot this frame, from the mouse position. */
  function Target(d: Dot, mouse: Option<Point>, reduced: bool, maxScale: real, influence: real,
                  sqrt: SquareRoot): Goal
  {
    DotGoal(d, Eased(d, mouse, reduced, influence, sqrt), maxScale)
  }

  /** One frame for one dot: radius and alpha each take a step towards the dot's target. */
  function StepDot(d: Dot, mouse: Option<Point>, reduced: bool, maxScale: real, influence: real,
                   sqrt: SquareRoot): Dot
  {
    StepToward(d, Target(d, mouse, reduced, maxScale, influence, sqrt), Speed(reduced))
  }

  /** Under reduced motion the speed is 1 and the target the resting values: a dot is at rest after one frame. */
  lemma ReducedRests(d: Dot, mouse: Option<Point>, maxScale: real, influence: real, sqrt: SquareRoot)
    ensures StepDot(d, mouse, true, maxScale, influence, sqrt) == d.(r := d.baseR, alpha := d.baseAlpha)
  {
    assert Eased(d, mouse, true, influence, sqrt) == None;
  }

  /** With the mouse away, a dot moves by 11% of its distance to its resting radius and alpha. */
  lemma NoMouseRelaxes(d: Dot, maxScale: real, influence: real, sqrt: SquareRoot)
    ensures var r := StepDot(d, None, false, maxScale, influence, sqrt);
            r.r - d.baseR == (1.0 - EASE_SPEED) * (d.r - d.baseR) &&
            r.alpha - d.baseAlpha == (1.0 - EASE_SPEED) * (d.alpha - d.baseAlpha)
  {
    assert Eased(d, None, false, influence, sqrt) == None;
  }

  /** A dot's radius lies in [baseR, baseR * maxScale] and its alpha in [baseAlpha, 0.88]. */
  predicate InRange(d: Dot, maxScale: real) {
    d.baseR <= d.r <= d.baseR * maxScale && d.baseAlpha <= d.alpha <= PEAK_ALPHA
  }

  /** A step towards a target in range lands in range. */
  lemma StepTowardInRange(d: Dot, g: Goal, speed: real, maxScale: real)
    requires InRange(d, maxScale) && 0.0 <= speed <= 1.0
    requires d.baseR <= g.r <= d.baseR * maxScale && Between(g.alpha, d.baseAlpha, PEAK_ALPHA)
    ensures InRange(StepToward(d, g, speed), maxScale)
  {
    var r := StepToward(d, g, speed);
    BetweenConvex(r.r, d.r, g.r, d.baseR, d.baseR * maxScale);
    BetweenConvex(r.alpha, d.alpha, g.alpha, d.baseAlpha, PEAK_ALPHA);
    assert r.baseR == d.baseR && r.baseAlpha == d.baseAlpha;
  }

  lemma TargetRadius(d: Dot, mouse: Option<Point>, reduced: bool, maxScale: real, influence: real,
                     sqrt: SquareRoot, g: Goal)
    requires 0.0 <= d.baseR && 1.0 <= maxScale
    requires g == Target(d, mouse, reduced, maxScale, influence, sqrt)
    ensures d.baseR <= g.r <= d.baseR * maxScale
  {
    var e := Eased(d, mouse, reduced, influence, sqrt);
    GoalRadius(d, e, maxScale, g);
  }

  lemma GoalRadius(d: Dot, e: Option<real>, maxScale: real, g: Goal)
    requires 0.0 <= d.baseR && 1.0 <= maxScale
    requires e.Some? ==> 0.0 <= e.value <= 1.0
    requires g == DotGoal(d, e, maxScale)
    ensures d.baseR <= g.r <= d.baseR * maxScale
  {
  }

  lemma TargetAlpha(d: Dot, mouse: Option<Point>, reduced: bool, maxScale: real, influence: real,
                    sqrt: SquareRoot, g: Goal)
    requires g == Target(d, mouse, reduced, maxScale, influence, sqrt)
    ensures Between(g.alpha, d.baseAlpha, PEAK_ALPHA)
  {
  }

  /** A frame keeps a dot in range, since its target is in range and a step lands between dot and target. */
  lemma StepInRange(d: Dot, mouse: Option<Point>, reduced: bool, maxScale: real, influence: real,
                    sqrt: SquareRoot)
    requires 0.0 <= d.baseR && 1.0 <= maxScale && InRange(d, maxScale)
    ensures InRange(StepDot(d, mouse, reduced, maxScale, influence, sqrt), maxScale)
  {
    var g := Target(d, mouse, reduced, maxScale, influence, sqrt);
    TargetRadius(d, mouse, reduced, maxScale, influence, sqrt, g);
    TargetAlpha(d, mouse, reduced, maxScale, influence, sqrt, g);
    StepTowardInRange(d, g, Speed(reduced), maxScale);
  }

  /**
   * `Math.max(0, (r - baseR) / (baseR * (maxScale - 1)))`, the colour
   * factor. None stands for a NaN or an infinite result of a division by
   * zero (baseR = 0 or maxScale = 1); a negative numerator over zero gives
   * -Infinity, which Math.max turns into 0.
   */
  function ColourFactor(d: Dot, maxScale: real): (t: Option<real>)
    ensures t.Some? ==> 0.0 <= t.value
    ensures d.baseR * (maxScale - 1.0) != 0.0 ==> t.Some?
  {
    var den := d.baseR * (maxScale - 1.0);
    if den == 0.0 then
      if d.r - d.baseR < 0.0 then Some(0.0) else None
    else
      Some(Max(0.0, (d.r - d.baseR) / den))
  }

  /** For a positive radius and maxScale > 1 a dot in range has a colour factor in [0, 1]. */
  lemma ColourFactorInUnit(d: Dot, maxScale: real)
    requires 0.0 < d.baseR && 1.0 < maxScale && InRange(d, maxScale)
    ensures ColourFactor(d, maxScale).Some? && ColourFactor(d, maxScale).value <= 1.0
  {
    var den := d.baseR * (maxScale - 1.0);
    assert 0.0 < den by { PosProduct(d.baseR, maxScale - 1.0, den); }
    var a := d.r - d.baseR;
    assert 0.0 <= a <= den;
    DivAtMostOne(a, den);
    assert den != 0.0;
    assert ColourFactor(d, maxScale).Some?;
    assert ColourFactor(d, maxScale).value == Max(0.0, a / den);
  }

  lemma DivAtMostOne(a: real, b: real)
    requires 0.0 <= a <= b && 0.0 < b
    ensures a / b <= 1.0
  {
  }

  // ─── The component ──────────────────────────────────────────────────────────

  /**
   * One call of draw on a dot list: every dot takes one step. Only radius
   * and alpha move; a dot's position and resting values stay.
   */
  function StepAllDots(ds: seq<Dot>, mouse: Option<Point>, reduced: bool, maxScale: real, influence: real,
                       sqrt: SquareRoot): (r: seq<Dot>)
    ensures |r| == |ds|
    ensures forall i :: 0 <= i < |ds| ==> r[i] == StepDot(ds[i], mouse, reduced, maxScale, influence, sqrt)
    ensures forall i :: 0 <= i < |ds| ==> r[i] == ds[i].(r := r[i].r, alpha := r[i].alpha)
  {
    seq(|ds|, i requires 0 <= i < |ds| => StepDot(ds[i], mouse, reduced, maxScale, influence, sqrt))
  }

  /**
   * The dots keep the positions and resting values of the layout they were
   * built as; when inRange holds, each also has a non-negative resting
   * radius and is in range.
   */
  predicate DotsOk(ds: seq<Dot>, layout: seq<Dot>, maxScale: real, inRange: bool) {
    && |ds| == |layout|
    && (forall i :: 0 <= i < |ds| ==> ds[i] == layout[i].(r := ds[i].r, alpha := ds[i].alpha))
    && (inRange ==> forall i :: 0 <= i < |ds| ==> 0.0 <= ds[i].baseR && InRange(ds[i], maxScale))
  }

  /** A frame keeps DotsOk: it changes only r and alpha, and keeps every dot in range. */
  lemma {:induction false} FrameKeepsDotsOk(ds: seq<Dot>, layout: seq<Dot>, mouse: Option<Point>, reduced: bool,
                                            maxScale: real, influence: real, sqrt: SquareRoot, inRange: bool)
    requires DotsOk(ds, layout, maxScale, inRange) && (inRange ==> 1.0 <= maxScale)
    ensures DotsOk(StepAllDots(ds, mouse, reduced, maxScale, influence, sqrt), layout, maxScale, inRange)
  {
    var post := StepAllDots(ds, mouse, reduced, maxScale, influence, sqrt);
    forall i | 0 <= i < |ds|
      ensures post[i] == layout[i].(r := post[i].r, alpha := post[i].alpha)
      ensures inRange ==> 0.0 <= post[i].baseR && InRange(post[i], maxScale)
    {
      if inRange {
        StepInRange(ds[i], mouse, reduced, maxScale, influence, sqrt);
      }
    }
  }

  /** The refs of the component: the dot array, the mouse position, and the props. */
  class Grid {
    var dots: array<Dot>
    var mouse: Option<Point>
    /** The bounding-rectangle size buildGrid was given at the last resize. */
    var width: real
    var height: real
    const gap: real
    const dotRadius: real
    const maxScale: real
    const influence: real
    const reduced: bool
    /** The dots as buildGrid made them at the last resize. */
    ghost var layout: seq<Dot>

    /** The props under which every dot stays in [baseR, baseR * maxScale]. */
    predicate Sane() {
      0.0 <= dotRadius && 1.0 <= maxScale
    }

    ghost predicate Valid()
      reads this, dots
    {
      && 0.0 < gap
      && DotsOk(dots[..], layout, maxScale, Sane())
    }

    /** The layout is buildGrid(width, height). */
    ghost predicate Built()
      reads this
    {
      && 0.0 <= width && 0.0 <= height && 0.0 < gap
      && |layout| == Count(width, gap) * Count(height, gap)
      && forall i :: 0 <= i < |layout| ==> layout[i] == LatticeDot(width, height, gap, dotRadius, i)
    }

    /** Mounting: the props, no mouse, and the first resize. */
    constructor (w: real, h: real, gap: real, dotRadius: real, maxScale: real, influence: real, reduced: bool)
      requires 0.0 <= w && 0.0 <= h && 0.0 < gap
      ensures Valid() && Built() && fresh(dots) && mouse == None && width == w && height == h
      ensures this.gap == gap && this.dotRadius == dotRadius && this.maxScale == maxScale
      ensures this.influence == influence && this.reduced == reduced
      ensures dots[..] == layout
    {
      this.gap, this.dotRadius, this.maxScale, this.influence, this.reduced := gap, dotRadius, maxScale, influence, reduced;
      mouse := None;
      var a, ds := NewLattice(w, h, gap, dotRadius, maxScale);
      dots, layout, width, height := a, ds, w, h;
    }

    /** resize: a fresh lattice for the new size. */
    method Resize(w: real, h: real)
      requires Valid() && 0.0 <= w && 0.0 <= h
      modifies this`dots, this`layout, this`width, this`height
      ensures Valid() && Built() && fresh(dots) && width == w && height == h
      ensures dots[..] == layout
    {
      var a, ds := NewLattice(w, h, gap, dotRadius, maxScale);
      dots, layout, width, height := a, ds, w, h;
    }

    /** mousemove on the container. */
    method MouseMove(x: real, y: real)
      modifies this`mouse
      ensures mouse == Some(Point(x, y))
    {
      mouse := Some(Point(x, y));
    }

    /** mouseleave on the container. */
    method MouseLeave()
      modifies this`mouse
      ensures mouse == None
    {
      mouse := None;
    }

    /** One call of draw: every dot takes one step; only r and alpha change. */
    method Frame(sqrt: SquareRoot)
      requires Valid()
      modifies dots
      ensures Valid()
      ensures dots[..] == StepAllDots(old(dots[..]), mouse, reduced, maxScale, influence, sqrt)
    {
      FrameKeepsDotsOk(dots[..], layout, mouse, reduced, maxScale, influence, sqrt, Sane());
      StepDots(dots, mouse, reduced, maxScale, influence, sqrt);
    }
  }

  /** The loop of draw, `for (const dot of dots) { ... }`: every dot takes one step. */
  method StepDots(a: array<Dot>, mouse: Option<Point>, reduced: bool, maxScale: real, influence: real, sqrt: SquareRoot)
    modifies a
    ensures a[..] == StepAllDots(old(a[..]), mouse, reduced, maxScale, influence, sqrt)
  {
    ghost var target := StepAllDots(a[..], mouse, reduced, maxScale, influence, sqrt);
    var i := 0;
    while i < a.Length
      invariant 0 <= i <= a.Length
      invariant forall j :: 0 <= j < i ==> a[j] == target[j]
      invariant forall j :: i <= j < a.Length ==> a[j] == old(a[j])
    {
      a[i] := StepDot(a[i], mouse, reduced, maxScale, influence, sqrt);
      i := i + 1;
    }
    assert a[..] == target;
  }

  /** buildGrid's lattice as a fresh array; every dot starts at rest and so in range. */
  method NewLattice(w: real, h: real, gap: real, radius: real, maxScale: real) returns (a: array<Dot>, ghost layout: seq<Dot>)
    requires 0.0 <= w && 0.0 <= h && 0.0 < gap
    ensures fresh(a) && a[..] == layout
    ensures |layout| == Count(w, gap) * Count(h, gap)
    ensures forall i :: 0 <= i < |layout| ==> layout[i] == LatticeDot(w, h, gap, radius, i)
    ensures DotsOk(a[..], layout, maxScale, 0.0 <= radius && 1.0 <= maxScale)
  {
    var ds := BuildGrid(w, h, gap, radius);
    layout := ds;
    a := new Dot[|ds|](i requires 0 <= i < |ds| => ds[i]);
    assert a[..] == ds;
    if 0.0 <= radius && 1.0 <= maxScale {
      ScaleUp(radius, maxScale);
    }
  }
}
