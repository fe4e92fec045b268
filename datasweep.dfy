/**
 * DataSweep: eighteen blocks loop through four timed phases.
 * In chaos they are scattered. In sweep they align left to right as a kite
 * passes. In hold they form an ordered grid. In reset they dissolve back to chaos.
 * Each frame moves every block's current pose a fixed fraction towards
 * a phase-dependent target.
 */
module DataSweep {
  import opened Anim
  import Lcg

  const COLS: nat := 6
  const ROWS: nat := 3
  const BLOCK_W: real := 64.0
  const BLOCK_H: real := 36.0
  const GRID_GAP_X: real := 20.0
  const GRID_GAP_Y: real := 16.0

  const CHAOS_HOLD: real := 1.8
  const SWEEP_DUR: real := 2.6
  const HOLD_DUR: real := 1.6
  const RESET_DUR: real := 1.0

  /** The seed buildBlocks passes to seededRand. */
  const SEED: int := 42
  /** Every block consumes this many generator values. */
  const DRAWS_PER_BLOCK: nat := 8
  const ORDER_ALPHA: real := 0.92
  /** The kite's y coordinate above the canvas, where it enters and exits. */
  const KITE_OFF_Y: real := -80.0

  const GRID_W: real := COLS as real * BLOCK_W + (COLS - 1) as real * GRID_GAP_X
  const GRID_H: real := ROWS as real * BLOCK_H + (ROWS - 1) as real * GRID_GAP_Y

  // ─── Helpers ────────────────────────────────────────────────────────────────

  /** `Math.max(lo, Math.min(hi, v))` */
  function Clamp(v: real, lo: real, hi: real): (r: real)
    ensures lo <= hi ==> lo <= r <= hi
    ensures lo <= v <= hi ==> r == v
    ensures v <= lo ==> r == lo
    ensures lo <= hi <= v ==> r == hi
  {
    Max(lo, Min(hi, v))
  }

  /** Ease-in-out quadratic. */
  function Ease(t: real): (r: real)
    ensures t == 0.0 ==> r == 0.0
    ensures t == 1.0 ==> r == 1.0
    ensures 0.0 <= t <= 1.0 ==> 0.0 <= r <= 1.0
  {
    if t < 0.5 then
      EaseLowerHalf(t);
      2.0 * t * t
    else
      EaseUpperHalf(t);
      -1.0 + (4.0 - 2.0 * t) * t
  }

  lemma EaseLowerHalf(t: real)
    ensures 0.0 <= t < 0.5 ==> 0.0 <= 2.0 * t * t <= 1.0
  {
    if 0.0 <= t < 0.5 {
      ScaleBound(t, t, t * t);
      assert 2.0 * t * t == 2.0 * (t * t);
    }
  }

  lemma EaseUpperHalf(t: real)
    ensures 0.5 <= t <= 1.0 ==> 0.0 <= -1.0 + (4.0 - 2.0 * t) * t <= 1.0
    ensures t == 1.0 ==> -1.0 + (4.0 - 2.0 * t) * t == 1.0
  {
    if 0.5 <= t <= 1.0 {
      var u := 1.0 - t;
      assert -1.0 + (4.0 - 2.0 * t) * t == 1.0 - 2.0 * (u * u);
      ScaleBound(u, u, u * u);
    }
  }

  // ─── Blocks ─────────────────────────────────────────────────────────────────

  datatype Pose = Pose(x: real, y: real, w: real, h: real, rot: real, alpha: real)

  /** A block: its chaos pose (cx..cAlpha), order pose (ox..oAlpha), current pose (x..alpha) and alignment threshold. */
  datatype Block = Block(chaos: Pose, order: Pose, cur: Pose, alignAt: real)

  function GridLeft(W: real): real { (W - GRID_W) / 2.0 }
  function GridTop(H: real): real { (H - GRID_H) / 2.0 + 30.0 }

  /** The centre of grid cell (row, col), with size BLOCK_W x BLOCK_H, rotation 0 and alpha 0.92. */
  function OrderPose(W: real, H: real, row: nat, col: nat): Pose {
    Pose(GridLeft(W) + col as real * (BLOCK_W + GRID_GAP_X) + BLOCK_W / 2.0,
         GridTop(H) + row as real * (BLOCK_H + GRID_GAP_Y) + BLOCK_H / 2.0,
         BLOCK_W, BLOCK_H, 0.0, ORDER_ALPHA)
  }

  /**
   * The block at (row, col), built from the eight generator values it
   * consumes, in the order the source evaluates them: cx, cy, crot, cw, ch,
   * alignAt, cAlpha and the initial alpha.
   */
  function NewBlock(W: real, H: real, row: nat, col: nat,
                    d0: real, d1: real, d2: real, d3: real,
                    d4: real, d5: real, d6: real, d7: real): Block
  {
    var cx := W * 0.08 + d0 * W * 0.84;
    var cy := H * 0.08 + d1 * H * 0.82;
    var crot := (d2 - 0.5) * 60.0;
    var cw := BLOCK_W * (0.6 + d3 * 0.9);
    var ch := BLOCK_H * (0.6 + d4 * 0.9);
    var alignAt := (col as real / (COLS - 1) as real) * 0.7 + d5 * 0.15;
    Block(Pose(cx, cy, cw, ch, crot, 0.35 + d6 * 0.45),
          OrderPose(W, H, row, col),
          Pose(cx, cy, cw, ch, crot, 0.35 + d7 * 0.45),
          alignAt)
  }

  /** The k-th block of buildBlocks(W, H) in row-major order; it uses generator values 8k .. 8k+7. */
  function SpecBlock(W: real, H: real, k: nat): Block {
    var n := DRAWS_PER_BLOCK * k;
    NewBlock(W, H, k / COLS, k % COLS,
             Lcg.Draw(SEED, n), Lcg.Draw(SEED, n + 1), Lcg.Draw(SEED, n + 2), Lcg.Draw(SEED, n + 3),
             Lcg.Draw(SEED, n + 4), Lcg.Draw(SEED, n + 5), Lcg.Draw(SEED, n + 6), Lcg.Draw(SEED, n + 7))
  }

  /** The block built at (row, col) from the next eight values of the generator is the spec's block number row * COLS + col. */
  lemma SpecBlockAt(W: real, H: real, row: nat, col: nat, d: seq<real>)
    requires col < COLS && |d| == DRAWS_PER_BLOCK
    requires forall j :: 0 <= j < DRAWS_PER_BLOCK ==> d[j] == Lcg.Draw(SEED, DRAWS_PER_BLOCK * (row * COLS + col) + j)
    ensures NewBlock(W, H, row, col, d[0], d[1], d[2], d[3], d[4], d[5], d[6], d[7]) == SpecBlock(W, H, row * COLS + col)
  {
    var k := row * COLS + col;
    assert k / COLS == row && k % COLS == col;
  }

  /** The body of the inner loop of buildBlocks: eight draws, in the order the block literal lists them. */
  method DrawBlock(rand: Lcg.SeededRand, W: real, H: real, row: nat, col: nat) returns (b: Block)
    requires rand.Valid() && rand.origin == SEED && rand.count == DRAWS_PER_BLOCK * (row * COLS + col)
    requires col < COLS
    modifies rand
    ensures rand.Valid() && rand.count == old(rand.count) + DRAWS_PER_BLOCK
    ensures b == SpecBlock(W, H, row * COLS + col)
  {
    var cx := rand.Next();
    var cy := rand.Next();
    var crot := rand.Next();
    var cw := rand.Next();
    var ch := rand.Next();
    var alignAt := rand.Next();
    var cAlpha := rand.Next();
    var alpha := rand.Next();
    b := NewBlock(W, H, row, col, cx, cy, crot, cw, ch, alignAt, cAlpha, alpha);
    SpecBlockAt(W, H, row, col, [cx, cy, crot, cw, ch, alignAt, cAlpha, alpha]);
  }

  /** buildBlocks: 18 blocks in row-major order, each drawing eight values of one generator seeded with 42. */
  method BuildBlocks(W: real, H: real) returns (blocks: seq<Block>)
    ensures |blocks| == ROWS * COLS
    ensures forall k :: 0 <= k < |blocks| ==> blocks[k] == SpecBlock(W, H, k)
  {
    var rand := new Lcg.SeededRand(SEED);
    blocks := [];
    var row := 0;
    while row < ROWS
      invariant 0 <= row <= ROWS
      invariant |blocks| == row * COLS
      invariant rand.Valid() && rand.origin == SEED && rand.count == DRAWS_PER_BLOCK * |blocks|
      invariant forall k :: 0 <= k < |blocks| ==> blocks[k] == SpecBlock(W, H, k)
    {
      var col := 0;
      while col < COLS
        invariant 0 <= col <= COLS
        invariant |blocks| == row * COLS + col
        invariant rand.Valid() && rand.origin == SEED && rand.count == DRAWS_PER_BLOCK * |blocks|
        invariant forall k :: 0 <= k < |blocks| ==> blocks[k] == SpecBlock(W, H, k)
      {
        var b := DrawBlock(rand, W, H, row, col);
        blocks := blocks + [b];
        col := col + 1;
      }
      row := row + 1;
    }
  }

  /** The order pose of the k-th block in row-major order. */
  function OrderAt(W: real, H: real, k: nat): Pose {
    OrderPose(W, H, k / COLS, k % COLS)
  }

  lemma SpecBlockOrder(W: real, H: real, k: nat)
    ensures SpecBlock(W, H, k).order == OrderAt(W, H, k)
  {
  }

  /**
   * The order poses form a regular grid: neighbours in a row are
   * BLOCK_W + GRID_GAP_X apart, neighbours in a column BLOCK_H + GRID_GAP_Y,
   * the grid is centred horizontally and sits 30 below the vertical centre,
   * and every order pose has size BLOCK_W x BLOCK_H, rotation 0 and alpha 0.92.
   */
  lemma {:induction false} OrderGrid(W: real, H: real, k: nat)
    requires k < ROWS * COLS
    ensures OrderAt(W, H, k).w == BLOCK_W && OrderAt(W, H, k).h == BLOCK_H
    ensures OrderAt(W, H, k).rot == 0.0 && OrderAt(W, H, k).alpha == ORDER_ALPHA
    ensures k % COLS < COLS - 1 ==>
      OrderAt(W, H, k + 1).x == OrderAt(W, H, k).x + BLOCK_W + GRID_GAP_X &&
      OrderAt(W, H, k + 1).y == OrderAt(W, H, k).y
    ensures k + COLS < ROWS * COLS ==>
      OrderAt(W, H, k + COLS).y == OrderAt(W, H, k).y + BLOCK_H + GRID_GAP_Y &&
      OrderAt(W, H, k + COLS).x == OrderAt(W, H, k).x
    ensures OrderAt(W, H, 0).x == GridLeft(W) + BLOCK_W / 2.0
    ensures OrderAt(W, H, 0).y == GridTop(H) + BLOCK_H / 2.0
    ensures OrderAt(W, H, 0).x + OrderAt(W, H, COLS - 1).x == W
    ensures OrderAt(W, H, 0).y + OrderAt(W, H, (ROWS - 1) * COLS).y == H + 60.0
  {
    if k % COLS < COLS - 1 {
      assert (k + 1) / COLS == k / COLS && (k + 1) % COLS == k % COLS + 1;
    }
    if k + COLS < ROWS * COLS {
      assert (k + COLS) / COLS == k / COLS + 1 && (k + COLS) % COLS == k % COLS;
    }
  }

  /** A block whose threshold lies in [0, 0.85], so the local-progress denominator is at least 0.16. */
  predicate WellFormed(b: Block) {
    0.0 <= b.alignAt <= 0.85
  }

  /** The bounds of every random field of a block in column col, and the left-to-right stagger of alignAt. */
  predicate ChaosBounds(b: Block, W: real, H: real, col: nat) {
    && WellFormed(b)
    && 1.0 - b.alignAt + 0.01 >= 0.16
    && col as real * 0.14 <= b.alignAt <= col as real * 0.14 + 0.15
    && W * 0.08 <= b.chaos.x <= W * 0.92
    && H * 0.08 <= b.chaos.y <= H * 0.90
    && -30.0 <= b.chaos.rot <= 30.0
    && 0.6 * BLOCK_W <= b.chaos.w <= 1.5 * BLOCK_W
    && 0.6 * BLOCK_H <= b.chaos.h <= 1.5 * BLOCK_H
    && 0.35 <= b.chaos.alpha <= 0.80
    && 0.35 <= b.cur.alpha <= 0.80
  }

  lemma NewBlockInRange(W: real, H: real, row: nat, col: nat, d: seq<real>)
    requires 0.0 <= W && 0.0 <= H && col < COLS
    requires |d| == DRAWS_PER_BLOCK && forall j :: 0 <= j < |d| ==> 0.0 <= d[j] <= 1.0
    ensures ChaosBounds(NewBlock(W, H, row, col, d[0], d[1], d[2], d[3], d[4], d[5], d[6], d[7]), W, H, col)
  {
    ScaleBound(W, d[0], d[0] * W);
    assert d[0] * W * 0.84 == (d[0] * W) * 0.84;
    ScaleBound(H, d[1], d[1] * H);
    assert d[1] * H * 0.82 == (d[1] * H) * 0.82;
    assert (col as real / (COLS - 1) as real) * 0.7 == col as real * 0.14;
  }

  /** Every block buildBlocks makes satisfies the chaos bounds of its column; in particular alignAt is in [0, 0.85]. */
  lemma {:induction false} ChaosInRange(W: real, H: real, k: nat)
    requires 0.0 <= W && 0.0 <= H
    ensures ChaosBounds(SpecBlock(W, H, k), W, H, k % COLS)
  {
    var n := DRAWS_PER_BLOCK * k;
    var d := [Lcg.Draw(SEED, n), Lcg.Draw(SEED, n + 1), Lcg.Draw(SEED, n + 2), Lcg.Draw(SEED, n + 3),
              Lcg.Draw(SEED, n + 4), Lcg.Draw(SEED, n + 5), Lcg.Draw(SEED, n + 6), Lcg.Draw(SEED, n + 7)];
    assert k == (k / COLS) * COLS + k % COLS;
    SpecBlockAt(W, H, k / COLS, k % COLS, d);
    NewBlockInRange(W, H, k / COLS, k % COLS, d);
  }

  // ─── Phase machine ──────────────────────────────────────────────────────────

  datatype Phase = Chaos | Sweep | Hold | Reset

  /** The phase and the seconds spent in it (phaseT). */
  datatype Clock = Clock(phase: Phase, t: real)

  function Duration(p: Phase): (d: real)
    ensures d > 0.0
  {
    match p
    case Chaos => CHAOS_HOLD
    case Sweep => SWEEP_DUR
    case Hold => HOLD_DUR
    case Reset => RESET_DUR
  }

  function Next(p: Phase): Phase {
    match p
    case Chaos => Sweep
    case Sweep => Hold
    case Hold => Reset
    case Reset => Chaos
  }

  /** Four steps of the cycle return to the starting phase; a full cycle lasts 7 seconds. */
  lemma PhaseCycle(p: Phase)
    ensures Next(Next(Next(Next(p)))) == p
    ensures p != Next(p) && p != Next(Next(p)) && p != Next(Next(Next(p)))
    ensures Duration(Chaos) + Duration(Sweep) + Duration(Hold) + Duration(Reset) == 7.0
  {
  }

  /** One of the four transition checks of tick. */
  function Fire(c: Clock, from: Phase): Clock {
    if c.phase == from && c.t >= Duration(from) then Clock(Next(from), 0.0) else c
  }

  /**
   * The four transition checks in the source's order. At most one fires: a
   * phase whose time has run out moves to the next phase with phaseT = 0,
   * otherwise nothing changes; afterwards phaseT is below the duration of
   * the phase.
   */
  function Advance(c: Clock): (r: Clock)
    ensures r == if c.t >= Duration(c.phase) then Clock(Next(c.phase), 0.0) else c
    ensures r.t < Duration(r.phase)
    ensures 0.0 <= c.t ==> 0.0 <= r.t
    ensures r.phase != c.phase ==> r.t == 0.0
  {
    Fire(Fire(Fire(Fire(c, Chaos), Sweep), Hold), Reset)
  }

  /** A clock as tick leaves it: phaseT within [0, duration of the phase). */
  predicate Running(c: Clock) {
    0.0 <= c.t < Duration(c.phase)
  }

  // ─── Targets and the per-frame step ─────────────────────────────────────────

  /** Sweep progress, phaseT / SWEEP_DUR clamped to [0, 1]. */
  function SweepProgress(t: real): (p: real)
    ensures 0.0 <= p <= 1.0
    ensures 0.0 <= t <= SWEEP_DUR ==> p * SWEEP_DUR == t
  {
    Clamp(t / SWEEP_DUR, 0.0, 1.0)
  }

  /** How far past its threshold a block is during the sweep, normalised to [0, 1]. */
  function LocalProgress(sweepP: real, b: Block): (p: real)
    requires WellFormed(b)
    ensures 0.0 <= p <= 1.0
    ensures sweepP <= b.alignAt ==> p == 0.0
  {
    Clamp((sweepP - b.alignAt) / (1.0 - b.alignAt + 0.01), 0.0, 1.0)
  }

  /** The ordered pose used as target: the order fields with rotation 0. */
  function Aligned(b: Block): Pose {
    b.order.(rot := 0.0)
  }

  /** Each field of r lies between the corresponding fields of p and q. */
  predicate PoseBetween(r: Pose, p: Pose, q: Pose) {
    Between(r.x, p.x, q.x) && Between(r.y, p.y, q.y) && Between(r.w, p.w, q.w) &&
    Between(r.h, p.h, q.h) && Between(r.rot, p.rot, q.rot) && Between(r.alpha, p.alpha, q.alpha)
  }

  /** A pose inside the box spanned by the block's chaos pose and its ordered pose. */
  predicate InBox(r: Pose, b: Block) {
    PoseBetween(r, b.chaos, Aligned(b))
  }

  /** Field-wise lerp from p towards q by f. */
  function LerpPose(p: Pose, q: Pose, f: real): (r: Pose)
    ensures f == 0.0 ==> r == p
    ensures f == 1.0 ==> r == q
    ensures 0.0 <= f <= 1.0 ==> PoseBetween(r, p, q)
  {
    Pose(Lerp(p.x, q.x, f), Lerp(p.y, q.y, f), Lerp(p.w, q.w, f),
         Lerp(p.h, q.h, f), Lerp(p.rot, q.rot, f), Lerp(p.alpha, q.alpha, f))
  }

  /**
   * The target pose of a block in the given phase. In chaos and early in
   * the sweep it is the chaos pose. Past alignAt it eases towards the ordered
   * pose. In hold it is the ordered pose. In reset it eases back to the chaos
   * pose. It always lies in the box between the two.
   */
  function Target(b: Block, c: Clock): (r: Pose)
    requires WellFormed(b)
    ensures c.phase == Chaos ==> r == b.chaos
    ensures c.phase == Sweep && SweepProgress(c.t) <= b.alignAt ==> r == b.chaos
    ensures c.phase == Hold ==> r == Aligned(b)
    ensures c.phase == Reset && c.t == 0.0 ==> r == Aligned(b)
    ensures c.phase == Reset && c.t == RESET_DUR ==> r == b.chaos
    ensures (c.phase == Reset ==> 0.0 <= c.t <= RESET_DUR) ==> InBox(r, b)
  {
    match c.phase
    case Chaos => b.chaos
    case Sweep =>
      var sweepP := SweepProgress(c.t);
      if sweepP > b.alignAt then LerpPose(b.chaos, Aligned(b), Ease(LocalProgress(sweepP, b)))
      else b.chaos
    case Hold => Aligned(b)
    case Reset => LerpPose(Aligned(b), b.chaos, Ease(c.t / RESET_DUR))
  }

  /** The colour blend factor passed to drawBlock: 0 in chaos, 1 in hold. */
  function OrderedFactor(b: Block, c: Clock): (r: real)
    requires WellFormed(b)
    ensures c.phase == Chaos ==> r == 0.0
    ensures c.phase == Hold ==> r == 1.0
    ensures c.phase == Sweep && SweepProgress(c.t) <= b.alignAt ==> r == 0.0
    ensures (c.phase == Reset ==> 0.0 <= c.t <= RESET_DUR) ==> 0.0 <= r <= 1.0
  {
    match c.phase
    case Chaos => 0.0
    case Sweep =>
      var sweepP := SweepProgress(c.t);
      if sweepP > b.alignAt then Ease(LocalProgress(sweepP, b)) else 0.0
    case Hold => 1.0
    case Reset => 1.0 - Ease(c.t / RESET_DUR)
  }

  /** 1 under reduced motion, 0.18 otherwise. */
  function Speed(reduced: bool): real {
    if reduced then 1.0 else 0.18
  }

  /** One frame's lerp of the current pose towards the target. */
  function StepPose(cur: Pose, target: Pose, speed: real): (r: Pose)
    ensures speed == 1.0 ==> r == target
    ensures 0.0 <= speed <= 1.0 ==> PoseBetween(r, cur, target)
  {
    LerpPose(cur, target, speed)
  }

  function StepBlock(b: Block, c: Clock, speed: real): Block
    requires WellFormed(b)
  {
    b.(cur := StepPose(b.cur, Target(b, c), speed))
  }

  /** The snap to chaos of resize and of the reset-to-chaos transition. */
  function Snap(b: Block): (r: Block)
    ensures WellFormed(r) <==> WellFormed(b)
    ensures InBox(r.cur, r)
  {
    b.(cur := b.chaos)
  }

  /**
   * The box between chaos and ordered pose is closed under a frame: a block
   * whose current pose is in the box stays in it after one step with speed
   * in [0, 1].
   */
  lemma {:induction false} StepStaysInBox(b: Block, c: Clock, speed: real)
    requires WellFormed(b) && InBox(b.cur, b)
    requires c.phase == Reset ==> 0.0 <= c.t <= RESET_DUR
    requires 0.0 <= speed <= 1.0
    ensures InBox(StepBlock(b, c, speed).cur, b)
  {
    var t := Target(b, c);
    var r := StepPose(b.cur, t, speed);
    var lo, hi := b.chaos, Aligned(b);
    BetweenConvex(r.x, b.cur.x, t.x, lo.x, hi.x);
    BetweenConvex(r.y, b.cur.y, t.y, lo.y, hi.y);
    BetweenConvex(r.w, b.cur.w, t.w, lo.w, hi.w);
    BetweenConvex(r.h, b.cur.h, t.h, lo.h, hi.h);
    BetweenConvex(r.rot, b.cur.rot, t.rot, lo.rot, hi.rot);
    BetweenConvex(r.alpha, b.cur.alpha, t.alpha, lo.alpha, hi.alpha);
  }

  // ─── Kite ───────────────────────────────────────────────────────────────────

  datatype Kite = Kite(x: real, y: real, alpha: real)

  /**
   * The kite update of tick, given the phase before the transitions and the
   * clock after them. On entering sweep the kite restarts at (W/2, -80) and
   * is invisible. In sweep and hold it descends to 0.22·H and fades in. In
   * hold it bobs by at most 0.4 and is fully visible. In reset it exits upwards
   * and fades out. In chaos it is untouched.
   */
  function KiteStep(k: Kite, from: Phase, c: Clock, W: real, H: real, sin: Sine): (r: Kite)
    ensures c.phase == Chaos ==> r == k
    ensures from == Chaos && c.phase == Sweep ==> r.x == W / 2.0
    ensures from != Chaos || c.phase != Sweep ==> r.x == k.x
    ensures c.phase == Sweep ==> Between(r.y, KITE_OFF_Y, H * 0.22)
    ensures c.phase == Hold ==> r.alpha == 1.0
    ensures c.phase == Hold ==> KITE_OFF_Y - 0.4 <= r.y <= H * 0.22 + 0.4 || H * 0.22 - 0.4 <= r.y <= KITE_OFF_Y + 0.4
    ensures c.phase == Reset && 0.0 <= c.t <= RESET_DUR ==> Between(r.y, KITE_OFF_Y, H * 0.22)
    ensures 0.0 <= k.alpha <= 1.0 && (c.phase == Reset ==> 0.0 <= c.t <= RESET_DUR) ==> 0.0 <= r.alpha <= 1.0
  {
    var k1 := if from == Chaos && c.phase == Sweep then Kite(W / 2.0, KITE_OFF_Y, 0.0) else k;
    var k2 :=
      if c.phase == Sweep || c.phase == Hold then
        var eased := Ease(Clamp(c.t / (SWEEP_DUR * 0.55), 0.0, 1.0));
        k1.(y := Lerp(KITE_OFF_Y, H * 0.22, eased), alpha := Clamp(c.t / 0.4, 0.0, 1.0))
      else k1;
    var k3 :=
      if c.phase == Hold then
        var s := sin(c.t * 2.2);
        assert -0.4 <= s * 0.4 <= 0.4;
        k2.(y := k2.y + s * 0.4, alpha := 1.0)
      else k2;
    if c.phase == Reset then
      var exitP := Ease(c.t / RESET_DUR);
      k3.(y := Lerp(H * 0.22, KITE_OFF_Y, exitP), alpha := 1.0 - exitP)
    else k3
  }

  // ─── The scene ──────────────────────────────────────────────────────────────

  /**
   * The block invariant of the scene: every block is well formed, its
   * current pose lies in its box, and its chaos pose, order pose and
   * threshold are those of the layout it was built with.
   */
  predicate BlocksOk(bs: seq<Block>, layout: seq<Block>) {
    |bs| == |layout| &&
    forall i :: 0 <= i < |bs| ==>
      WellFormed(bs[i]) && InBox(bs[i].cur, bs[i]) && Snap(bs[i]) == Snap(layout[i])
  }

  lemma {:induction false} SnapKeepsBlocksOk(pre: seq<Block>, post: seq<Block>, layout: seq<Block>)
    requires BlocksOk(pre, layout) && |post| == |pre|
    requires forall i :: 0 <= i < |pre| ==> post[i] == Snap(pre[i])
    ensures BlocksOk(post, layout)
  {
  }

  lemma {:induction false} StepKeepsBlocksOk(pre: seq<Block>, post: seq<Block>, layout: seq<Block>, c: Clock, speed: real)
    requires BlocksOk(pre, layout) && |post| == |pre|
    requires c.phase == Reset ==> 0.0 <= c.t <= RESET_DUR
    requires 0.0 <= speed <= 1.0
    requires forall i :: 0 <= i < |pre| ==> post[i] == StepBlock(pre[i], c, speed)
    ensures BlocksOk(post, layout)
  {
    forall i | 0 <= i < |pre|
      ensures WellFormed(post[i]) && InBox(post[i].cur, post[i]) && Snap(post[i]) == Snap(layout[i])
    {
      StepStaysInBox(pre[i], c, speed);
    }
  }

  /** The largest value the canvas width and height attributes hold. */
  const MAX_CANVAS: int := 0x7fff_ffff

  /** The canvas's default width and height, stored when a set value is out of range. */
  const DEFAULT_CANVAS_W: int := 300
  const DEFAULT_CANVAS_H: int := 150

  /**
   * The backing-store size resize gives the canvas for a CSS size. The
   * width and height setters take an `unsigned long`, so the product with
   * the device pixel ratio is truncated, then wrapped modulo 2^32. The
   * attribute then keeps that value when it is at most 2^31 - 1, and
   * otherwise falls back to its default dflt (300 wide, 150 high).
   */
  function CanvasSize(css: real, dpr: real, dflt: int): (n: int)
    requires 0.0 <= css && 0.0 < dpr && 0 <= dflt <= MAX_CANVAS
    ensures 0 <= n <= MAX_CANVAS
    ensures css * dpr < (MAX_CANVAS + 1) as real ==> n as real <= css * dpr < n as real + 1.0
    ensures (MAX_CANVAS + 1) as real <= css * dpr < 0x1_0000_0000 as real ==> n == dflt
  {
    NonNegProduct(css, dpr, css * dpr);
    var wrapped := (css * dpr).Floor % 0x1_0000_0000;
    if wrapped <= MAX_CANVAS then wrapped else dflt
  }

  /**
   * tick reads its size back as canvas.width / dpr: below 2^31 device
   * pixels, the CSS size resize saw, rounded down to a whole number of
   * device pixels, so less than one device pixel short of it.
   */
  lemma LogicalSizeNear(css: real, dpr: real, dflt: int)
    requires 0.0 <= css && 0.0 < dpr && 0 <= dflt <= MAX_CANVAS && css * dpr < (MAX_CANVAS + 1) as real
    ensures css - 1.0 / dpr < CanvasSize(css, dpr, dflt) as real / dpr <= css
  {
    var n := CanvasSize(css, dpr, dflt) as real;
    assert n <= css * dpr < n + 1.0;
    assert n / dpr <= css by {
      assert n / dpr * dpr == n;
    }
    assert css < (n + 1.0) / dpr by {
      assert (n + 1.0) / dpr * dpr == n + 1.0;
    }
    assert (n + 1.0) / dpr == n / dpr + 1.0 / dpr;
  }

  /** The state closed over by the component's effect: blocks, phase, frame clock and kite. */
  class Scene {
    var blocks: array<Block>
    var phase: Phase
    var phaseT: real
    var lastTs: real
    var kiteX: real
    var kiteY: real
    var kiteAlpha: real
    /** The canvas backing store: canvas.width and canvas.height, whole device pixels. */
    var canvasW: int
    var canvasH: int
    const dpr: real
    const reduced: bool
    /** The bounding-rectangle size seen by the last resize. */
    ghost var rectW: real
    ghost var rectH: real
    /** The blocks as buildBlocks returned them at the last resize. */
    ghost var layout: seq<Block>

    ghost predicate Valid()
      reads this, blocks
    {
      && blocks.Length == ROWS * COLS
      && 0.0 < dpr
      && Running(Clock(phase, phaseT))
      && 0.0 <= kiteAlpha <= 1.0
      && BlocksOk(blocks[..], layout)
    }

    /** The layout is buildBlocks(rect.width, rect.height). */
    ghost predicate Built()
      reads this
    {
      |layout| == ROWS * COLS && forall i :: 0 <= i < |layout| ==> layout[i] == SpecBlock(rectW, rectH, i)
    }

    /** tick's W and H: the backing-store size over the device pixel ratio. */
    function Width(): real
      reads this
      requires 0.0 < dpr
    {
      canvasW as real / dpr
    }

    function Height(): real
      reads this
      requires 0.0 < dpr
    {
      canvasH as real / dpr
    }

    /** Mounting: the initial state, then the first resize. */
    constructor (W: real, H: real, dpr: real, reduced: bool)
      requires 0.0 <= W && 0.0 <= H && 0.0 < dpr
      ensures Valid() && Built() && fresh(blocks) && this.reduced == reduced && this.dpr == dpr
      ensures phase == Chaos && phaseT == 0.0 && lastTs == -1.0 && kiteAlpha == 0.0
      ensures kiteX == W / 2.0 && kiteY == KITE_OFF_Y && rectW == W && rectH == H
      ensures canvasW == CanvasSize(W, dpr, DEFAULT_CANVAS_W) && canvasH == CanvasSize(H, dpr, DEFAULT_CANVAS_H)
      ensures forall i :: 0 <= i < blocks.Length ==> blocks[i] == Snap(SpecBlock(W, H, i))
    {
      this.reduced, this.dpr := reduced, dpr;
      phase, phaseT, lastTs := Chaos, 0.0, -1.0;
      kiteAlpha := 0.0;
      canvasW, canvasH := CanvasSize(W, dpr, DEFAULT_CANVAS_W), CanvasSize(H, dpr, DEFAULT_CANVAS_H);
      var a, bs := BuiltAndSnapped(W, H);
      blocks, layout := a, bs;
      kiteX, kiteY := W / 2.0, KITE_OFF_Y;
      rectW, rectH := W, H;
    }

    /** resize: rebuild the blocks for the new size, snap them to chaos, park the kite. */
    method Resize(W: real, H: real)
      requires Valid()
      requires 0.0 <= W && 0.0 <= H
      modifies this
      ensures Valid() && Built() && fresh(blocks)
      ensures forall i :: 0 <= i < blocks.Length ==> blocks[i] == Snap(SpecBlock(W, H, i))
      ensures kiteX == W / 2.0 && kiteY == KITE_OFF_Y && rectW == W && rectH == H
      ensures canvasW == CanvasSize(W, dpr, DEFAULT_CANVAS_W) && canvasH == CanvasSize(H, dpr, DEFAULT_CANVAS_H)
      ensures phase == old(phase) && phaseT == old(phaseT) && lastTs == old(lastTs)
      ensures kiteAlpha == old(kiteAlpha)
    {
      canvasW, canvasH := CanvasSize(W, dpr, DEFAULT_CANVAS_W), CanvasSize(H, dpr, DEFAULT_CANVAS_H);
      var a, bs := BuiltAndSnapped(W, H);
      blocks, layout := a, bs;
      kiteX, kiteY := W / 2.0, KITE_OFF_Y;
      rectW, rectH := W, H;
    }

    /**
     * One animation frame at timestamp ts: the frame clock, at most one
     * phase transition (with the snap to chaos on reset -> chaos), the
     * kite update, and every block's step towards its target.
     */
    method Tick(ts: real, sin: Sine)
      requires Valid()
      requires lastTs < 0.0 || lastTs <= ts
      modifies this, blocks
      ensures Valid()
      ensures blocks == old(blocks) && layout == old(layout)
      ensures canvasW == old(canvasW) && canvasH == old(canvasH) && rectW == old(rectW) && rectH == old(rectH)
      ensures lastTs == ts
      ensures Clock(phase, phaseT) == Advance(Clock(old(phase), old(phaseT) + FrameDelta(old(lastTs), ts)))
      ensures Kite(kiteX, kiteY, kiteAlpha) ==
              KiteStep(old(Kite(kiteX, kiteY, kiteAlpha)), old(phase), Clock(phase, phaseT), Width(), Height(), sin)
      ensures blocks[..] == StepBlocks(old(blocks[..]), old(phase) == Reset && phase == Chaos, Clock(phase, phaseT), Speed(reduced))
    {
      var from := phase;
      var c := AdvanceScalars(ts, sin);
      MoveBlocks(blocks, from == Reset && c.phase == Chaos, c, Speed(reduced), layout);
    }

    /** The clock and kite part of tick. */
    method AdvanceScalars(ts: real, sin: Sine) returns (c: Clock)
      requires Running(Clock(phase, phaseT)) && 0.0 <= kiteAlpha <= 1.0 && 0.0 < dpr
      requires lastTs < 0.0 || lastTs <= ts
      modifies this`phase, this`phaseT, this`lastTs, this`kiteX, this`kiteY, this`kiteAlpha
      ensures Running(c) && c == Clock(phase, phaseT) && lastTs == ts && 0.0 <= kiteAlpha <= 1.0
      ensures c == Advance(Clock(old(phase), old(phaseT) + FrameDelta(old(lastTs), ts)))
      ensures Kite(kiteX, kiteY, kiteAlpha) == KiteStep(old(Kite(kiteX, kiteY, kiteAlpha)), old(phase), c, Width(), Height(), sin)
    {
      var from := phase;
      c := AdvanceClock(ts);
      MoveKite(from, sin);
    }

    /** The frame clock and the phase transitions of tick. */
    method AdvanceClock(ts: real) returns (c: Clock)
      requires Running(Clock(phase, phaseT))
      requires lastTs < 0.0 || lastTs <= ts
      modifies this`phase, this`phaseT, this`lastTs
      ensures Running(c) && c == Clock(phase, phaseT) && lastTs == ts
      ensures c == Advance(Clock(old(phase), old(phaseT) + FrameDelta(old(lastTs), ts)))
    {
      var delta := FrameDelta(lastTs, ts);
      lastTs := ts;
      c := Advance(Clock(phase, phaseT + delta));
      phase, phaseT := c.phase, c.t;
    }

    /** The kite part of tick, after the phase transitions. */
    method MoveKite(from: Phase, sin: Sine)
      requires Running(Clock(phase, phaseT)) && 0.0 <= kiteAlpha <= 1.0 && 0.0 < dpr
      modifies this`kiteX, this`kiteY, this`kiteAlpha
      ensures 0.0 <= kiteAlpha <= 1.0
      ensures Kite(kiteX, kiteY, kiteAlpha) ==
              KiteStep(old(Kite(kiteX, kiteY, kiteAlpha)), from, Clock(phase, phaseT), Width(), Height(), sin)
    {
      var k := KiteStep(Kite(kiteX, kiteY, kiteAlpha), from, Clock(phase, phaseT), Width(), Height(), sin);
      kiteX, kiteY, kiteAlpha := k.x, k.y, k.alpha;
    }
  }

  /** buildBlocks followed by the snap of every block to its chaos pose, as an array; layout is what buildBlocks returned. */
  method BuiltAndSnapped(W: real, H: real) returns (a: array<Block>, ghost layout: seq<Block>)
    requires 0.0 <= W && 0.0 <= H
    ensures fresh(a) && a.Length == ROWS * COLS && |layout| == ROWS * COLS
    ensures forall i :: 0 <= i < |layout| ==> layout[i] == SpecBlock(W, H, i)
    ensures forall i :: 0 <= i < a.Length ==> a[i] == Snap(SpecBlock(W, H, i))
    ensures BlocksOk(a[..], layout)
  {
    var bs := BuildBlocks(W, H);
    layout := bs;
    a := new Block[|bs|](i requires 0 <= i < |bs| => bs[i]);
    SnapAll(a);
    forall i | 0 <= i < a.Length
      ensures WellFormed(a[i]) && InBox(a[i].cur, a[i]) && Snap(a[i]) == Snap(layout[i])
    {
      ChaosInRange(W, H, i);
    }
  }

  /**
   * Every block after one frame: snapped to chaos first when snap holds,
   * then stepped towards its target. A frame moves only current poses, and
   * with speed in [0, 1] it keeps each of them in its block's box.
   */
  function StepBlocks(bs: seq<Block>, snap: bool, c: Clock, speed: real): (r: seq<Block>)
    requires forall i :: 0 <= i < |bs| ==> WellFormed(bs[i])
    ensures |r| == |bs|
    ensures forall i :: 0 <= i < |bs| ==> r[i] == StepBlock(if snap then Snap(bs[i]) else bs[i], c, speed)
    ensures forall i :: 0 <= i < |bs| ==> WellFormed(r[i]) && Snap(r[i]) == Snap(bs[i])
    ensures && (forall i :: 0 <= i < |bs| ==> InBox(bs[i].cur, bs[i]))
            && 0.0 <= speed <= 1.0 && (c.phase == Reset ==> 0.0 <= c.t <= RESET_DUR)
            ==> forall i :: 0 <= i < |r| ==> InBox(r[i].cur, r[i])
  {
    var r := seq(|bs|, i requires 0 <= i < |bs| => StepBlock(if snap then Snap(bs[i]) else bs[i], c, speed));
    StepsStayInBox(bs, r, snap, c, speed);
    r
  }

  lemma {:induction false} StepsStayInBox(bs: seq<Block>, r: seq<Block>, snap: bool, c: Clock, speed: real)
    requires forall i :: 0 <= i < |bs| ==> WellFormed(bs[i])
    requires |r| == |bs|
    requires forall i :: 0 <= i < |bs| ==> r[i] == StepBlock(if snap then Snap(bs[i]) else bs[i], c, speed)
    ensures && (forall i :: 0 <= i < |bs| ==> InBox(bs[i].cur, bs[i]))
            && 0.0 <= speed <= 1.0 && (c.phase == Reset ==> 0.0 <= c.t <= RESET_DUR)
            ==> forall i :: 0 <= i < |r| ==> InBox(r[i].cur, r[i])
  {
    if && (forall i :: 0 <= i < |bs| ==> InBox(bs[i].cur, bs[i]))
       && 0.0 <= speed <= 1.0 && (c.phase == Reset ==> 0.0 <= c.t <= RESET_DUR)
    {
      forall i | 0 <= i < |r|
        ensures InBox(r[i].cur, r[i])
      {
        StepStaysInBox(if snap then Snap(bs[i]) else bs[i], c, speed);
      }
    }
  }

  /** The block part of tick: the snap to chaos when reset has just ended, then one step of every block. */
  method MoveBlocks(a: array<Block>, snap: bool, c: Clock, speed: real, ghost layout: seq<Block>)
    requires BlocksOk(a[..], layout)
    requires Running(c) && 0.0 <= speed <= 1.0
    modifies a
    ensures BlocksOk(a[..], layout)
    ensures a[..] == StepBlocks(old(a[..]), snap, c, speed)
  {
    if snap {
      ghost var before := a[..];
      SnapAll(a);
      SnapKeepsBlocksOk(before, a[..], layout);
    }
    ghost var mid := a[..];
    StepAll(a, c, speed);
    StepKeepsBlocksOk(mid, a[..], layout, c, speed);
  }

  /** `for (const b of blocks) { b.x = b.cx; ... b.alpha = b.cAlpha; }` */
  method SnapAll(a: array<Block>)
    modifies a
    ensures forall i :: 0 <= i < a.Length ==> a[i] == Snap(old(a[i]))
  {
    var i := 0;
    while i < a.Length
      invariant 0 <= i <= a.Length
      invariant forall j :: 0 <= j < i ==> a[j] == Snap(old(a[j]))
      invariant forall j :: i <= j < a.Length ==> a[j] == old(a[j])
    {
      a[i] := Snap(a[i]);
      i := i + 1;
    }
  }

  /** The block loop of tick: every block's current pose takes one step towards its target. */
  method StepAll(a: array<Block>, c: Clock, speed: real)
    requires forall i :: 0 <= i < a.Length ==> WellFormed(a[i])
    modifies a
    ensures forall i :: 0 <= i < a.Length ==> a[i] == StepBlock(old(a[i]), c, speed)
  {
    var i := 0;
    while i < a.Length
      invariant 0 <= i <= a.Length
      invariant forall j :: 0 <= j < i ==> a[j] == StepBlock(old(a[j]), c, speed)
      invariant forall j :: i <= j < a.Length ==> a[j] == old(a[j])
    {
      a[i] := StepBlock(a[i], c, speed);
      i := i + 1;
    }
  }
}
