/**
 * NodeGraph: a fixed automation graph drawn on a canvas. Ten nodes float
 * around resting points with independent sine phases; twelve edges are
 * quadratic Bezier curves bent sideways; one packet per edge travels along
 * its curve and wraps round at the end.
 */
module NodeGraph {
  import opened Anim

  datatype Pt = Pt(x: real, y: real)

  // ─── Bezier helpers ─────────────────────────────────────────────────────────

  /**
   * ctrlPoint: the midpoint of a and b moved by bend along the left normal
   * of b - a. The length `Math.sqrt(dx * dx + dy * dy) || 1` falls back to 1
   * when the square root is 0.
   */
  function CtrlPoint(a: Pt, b: Pt, bend: real, sqrt: SquareRoot): (c: Pt)
    ensures (c.x - (a.x + b.x) / 2.0) * (b.x - a.x) + (c.y - (a.y + b.y) / 2.0) * (b.y - a.y) == 0.0
    ensures a == b ==> c == a
  {
    var mx, my := (a.x + b.x) / 2.0, (a.y + b.y) / 2.0;
    var dx, dy := b.x - a.x, b.y - a.y;
    var s := sqrt(dx * dx + dy * dy);
    var len := if s == 0.0 then 1.0 else s;
    var c := Pt(mx + (-dy / len) * bend, my + (dx / len) * bend);
    Perpendicular(dx, dy, len, bend);
    c
  }

  lemma Perpendicular(dx: real, dy: real, len: real, bend: real)
    requires len != 0.0
    ensures ((-dy / len) * bend) * dx + ((dx / len) * bend) * dy == 0.0
  {
    var p, q := -dy / len, dx / len;
    assert p * len == -dy && q * len == dx;
    assert (p * bend) * dx + (q * bend) * dy == bend * (p * dx + q * dy);
    assert p * dx == p * (q * len) && q * dy == q * (-(p * len));
  }

  /** One coordinate of bezierPoint: `(1 - t)^2 a + 2 (1 - t) t c + t^2 b`. */
  function Quad(a: real, c: real, b: real, t: real): (r: real)
    ensures t == 0.0 ==> r == a
    ensures t == 1.0 ==> r == b
  {
    (1.0 - t) * (1.0 - t) * a + 2.0 * (1.0 - t) * t * c + t * t * b
  }

  /** bezierPoint: the point at t on the quadratic Bezier curve from a to b with control point c. */
  function BezierPoint(a: Pt, c: Pt, b: Pt, t: real): (p: Pt)
    ensures t == 0.0 ==> p == a
    ensures t == 1.0 ==> p == b
  {
    Pt(Quad(a.x, c.x, b.x, t), Quad(a.y, c.y, b.y, t))
  }

  /** The curve read backwards is the curve from b to a. */
  lemma {:induction false} BezierReversed(a: Pt, c: Pt, b: Pt, t: real)
    ensures BezierPoint(a, c, b, t) == BezierPoint(b, c, a, 1.0 - t)
  {
    QuadReversed(a.x, c.x, b.x, t);
    QuadReversed(a.y, c.y, b.y, t);
  }

  lemma QuadReversed(a: real, c: real, b: real, t: real)
    ensures Quad(a, c, b, t) == Quad(b, c, a, 1.0 - t)
  {
    var u := 1.0 - t;
    assert 1.0 - u == t;
    assert 2.0 * u * t * c == 2.0 * t * u * c;
  }

  /** For t in [0, 1] a coordinate of the curve lies between the least and the greatest of a, c and b. */
  lemma {:induction false} QuadInHull(a: real, c: real, b: real, t: real)
    requires 0.0 <= t <= 1.0
    ensures Min(a, Min(c, b)) <= Quad(a, c, b, t) <= Max(a, Max(c, b))
  {
    var lo, hi := Min(a, Min(c, b)), Max(a, Max(c, b));
    QuadAbove(a - lo, c - lo, b - lo, t);
    assert Quad(a, c, b, t) - lo == Quad(a - lo, c - lo, b - lo, t);
    QuadAbove(hi - a, hi - c, hi - b, t);
    assert hi - Quad(a, c, b, t) == Quad(hi - a, hi - c, hi - b, t);
  }

  /** The weights (1 - t)^2, 2 (1 - t) t and t^2 are non-negative, so non-negative coordinates give a non-negative point. */
  lemma QuadAbove(a: real, c: real, b: real, t: real)
    requires 0.0 <= t <= 1.0 && 0.0 <= a && 0.0 <= c && 0.0 <= b
    ensures 0.0 <= Quad(a, c, b, t)
  {
    var u := 1.0 - t;
    var w0, w1, w2 := u * u, 2.0 * u * t, t * t;
    NonNegProduct(u, u, w0);
    NonNegProduct(2.0 * u, t, w1);
    NonNegProduct(t, t, w2);
    NonNegProduct(w0, a, w0 * a);
    NonNegProduct(w1, c, w1 * c);
    NonNegProduct(w2, b, w2 * b);
  }

  /** A point of the curve for t in [0, 1] lies in the bounding box of a, c and b. */
  lemma BezierInBox(a: Pt, c: Pt, b: Pt, t: real)
    requires 0.0 <= t <= 1.0
    ensures Min(a.x, Min(c.x, b.x)) <= BezierPoint(a, c, b, t).x <= Max(a.x, Max(c.x, b.x))
    ensures Min(a.y, Min(c.y, b.y)) <= BezierPoint(a, c, b, t).y <= Max(a.y, Max(c.y, b.y))
  {
    QuadInHull(a.x, c.x, b.x, t);
    QuadInHull(a.y, c.y, b.y, t);
  }

  // ─── Topology ───────────────────────────────────────────────────────────────

  /** A node without its canvas position: resting point in card units, float parameters and look (caption is the label drawn under it). */
  datatype NodeDef = NodeDef(id: nat, nx: real, ny: real, r: real, alpha: real, accent: bool, caption: string,
                             ampX: real, ampY: real, phaseX: real, phaseY: real, freqX: real, freqY: real)

  /** A node and its current canvas position. */
  datatype Node = Node(def: NodeDef, x: real, y: real)

  /** An edge and the state of its packet. */
  datatype Edge = Edge(from: nat, to: nat, packetT: real, packetSpeed: real, packetPhase: real, alpha: real)

  /** The hub, the inner ring of five and the outer four. */
  const NODE_DEFS: seq<NodeDef> := [
    NodeDef(0, 0.50, 0.46, 10.0, 1.0, true, "Khyte", 3.0, 4.0, 0.0, 0.4, 0.42, 0.38),
    NodeDef(1, 0.22, 0.28, 6.0, 0.85, false, "CRM", 5.0, 6.0, 1.1, 0.7, 0.55, 0.48),
    NodeDef(2, 0.78, 0.28, 6.0, 0.85, false, "Allabolag", 4.0, 5.0, 2.3, 1.5, 0.50, 0.44),
    NodeDef(3, 0.82, 0.65, 6.0, 0.85, false, "Email", 5.0, 4.0, 0.8, 2.1, 0.46, 0.52),
    NodeDef(4, 0.50, 0.82, 6.0, 0.85, false, "Sheets", 6.0, 3.0, 3.1, 0.3, 0.53, 0.40),
    NodeDef(5, 0.18, 0.65, 6.0, 0.85, false, "Slack", 4.0, 6.0, 1.7, 1.0, 0.48, 0.56),
    NodeDef(6, 0.14, 0.44, 4.0, 0.60, true, "AI", 7.0, 5.0, 0.5, 2.8, 0.60, 0.44),
    NodeDef(7, 0.86, 0.44, 4.0, 0.60, true, "GPT", 6.0, 7.0, 2.0, 0.6, 0.58, 0.50),
    NodeDef(8, 0.32, 0.12, 4.0, 0.55, false, "Forms", 5.0, 4.0, 1.4, 1.9, 0.52, 0.46),
    NodeDef(9, 0.68, 0.12, 4.0, 0.55, false, "API", 4.0, 6.0, 0.9, 0.2, 0.56, 0.42)
  ]

  /** Hub spokes, inner cross-links and outer inter-connections, as (from, to) pairs. */
  const EDGE_DEFS: seq<(nat, nat)> := [
    (0, 1), (0, 2), (0, 3), (0, 4), (0, 5),
    (1, 6), (2, 7), (1, 8), (2, 9),
    (6, 5), (7, 3), (8, 9)
  ]

  /** Every node's id is its index, its float amplitudes are non-negative and its resting point lies in the card. */
  lemma NodeDefsWellFormed()
    ensures |NODE_DEFS| == 10
    ensures forall i :: 0 <= i < |NODE_DEFS| ==>
      NODE_DEFS[i].id == i && 0.0 <= NODE_DEFS[i].ampX && 0.0 <= NODE_DEFS[i].ampY &&
      0.0 <= NODE_DEFS[i].nx <= 1.0 && 0.0 <= NODE_DEFS[i].ny <= 1.0
  {
  }

  /** Both endpoints of every edge name an existing node, and no edge is a loop. */
  lemma EdgeDefsInRange()
    ensures |EDGE_DEFS| == 12
    ensures forall i :: 0 <= i < |EDGE_DEFS| ==>
      EDGE_DEFS[i].0 < |NODE_DEFS| && EDGE_DEFS[i].1 < |NODE_DEFS| && EDGE_DEFS[i].0 != EDGE_DEFS[i].1
  {
  }

  // ─── Edge bend ──────────────────────────────────────────────────────────────

  /** `bendAmt % 2 === 0` for a number: bendAmt is an even integer. */
  predicate EvenNumber(x: real) {
    (x / 2.0).Floor as real == x / 2.0
  }

  /** `18 + (from + to) * 3.7`, the bend's size. */
  function BendAmount(from: nat, to: nat): real {
    18.0 + (from + to) as real * 3.7
  }

  /** The bend passed to ctrlPoint: bendAmt when it is an even integer, -bendAmt otherwise. */
  function Bend(from: nat, to: nat): (r: real)
    ensures r == BendAmount(from, to) || r == -BendAmount(from, to)
  {
    var amt := BendAmount(from, to);
    if EvenNumber(amt) then amt else -amt
  }

  /** How many of the first n links get the positive bend. */
  function ForwardBends(links: seq<(nat, nat)>, n: nat): nat
    requires n <= |links|
  {
    if n == 0 then 0
    else (if EvenNumber(BendAmount(links[n - 1].0, links[n - 1].1)) then 1 else 0) + ForwardBends(links, n - 1)
  }

  lemma {:induction false} NoForwardBend(links: seq<(nat, nat)>, n: nat)
    requires n <= |links| && ForwardBends(links, n) == 0
    ensures forall i :: 0 <= i < n ==> Bend(links[i].0, links[i].1) == -BendAmount(links[i].0, links[i].1)
  {
    if n > 0 {
      NoForwardBend(links, n - 1);
    }
  }

  /**
   * The even test never holds for the topology's edges (18 + 3.7 s is an
   * even integer for no endpoint sum s from 1 to 17): every edge bends by
   * -bendAmt, the same way round.
   */
  lemma EveryEdgeBendsBack()
    ensures forall i :: 0 <= i < |EDGE_DEFS| ==>
      Bend(EDGE_DEFS[i].0, EDGE_DEFS[i].1) == -BendAmount(EDGE_DEFS[i].0, EDGE_DEFS[i].1) < 0.0
  {
    NoEdgeBendsForward();
    NoForwardBend(EDGE_DEFS, |EDGE_DEFS|);
  }

  lemma NoEdgeBendsForward()
    ensures ForwardBends(EDGE_DEFS, |EDGE_DEFS|) == 0
  {
    forall i | 0 <= i < |EDGE_DEFS|
      ensures !EvenNumber(BendAmount(EDGE_DEFS[i].0, EDGE_DEFS[i].1))
    {
      OddBend(EDGE_DEFS[i].0 + EDGE_DEFS[i].1);
    }
    NoneForward(EDGE_DEFS, |EDGE_DEFS|);
  }

  /** 18 + 3.7 s is not an even integer for an endpoint sum s from 1 to 17: half of it is 9 + 37 s / 20. */
  lemma OddBend(s: nat)
    requires 1 <= s <= 17
    ensures !EvenNumber(18.0 + s as real * 3.7)
  {
  }

  /** No link among the first n gets the positive bend, so none is counted. */
  lemma {:induction false} NoneForward(links: seq<(nat, nat)>, n: nat)
    requires n <= |links|
    requires forall i :: 0 <= i < n ==> !EvenNumber(BendAmount(links[i].0, links[i].1))
    ensures ForwardBends(links, n) == 0
  {
    if n > 0 {
      NoneForward(links, n - 1);
    }
  }

  // ─── Initial state ──────────────────────────────────────────────────────────

  /**
   * The edges as the effect creates them: packet i starts at i / 12 of the
   * way along, is staggered by 0.55 i and moves at 0.28 + random * 0.18.
   * `random` holds the Math.random() values, one per edge.
   */
  function InitEdges(random: seq<real>): (es: seq<Edge>)
    requires |random| == |EDGE_DEFS|
    ensures |es| == |EDGE_DEFS|
    ensures forall i :: 0 <= i < |es| ==>
      es[i] == Edge(EDGE_DEFS[i].0, EDGE_DEFS[i].1, i as real / |EDGE_DEFS| as real, 0.28 + random[i] * 0.18, i as real * 0.55, 1.0)
  {
    seq(|EDGE_DEFS|, i requires 0 <= i < |EDGE_DEFS| =>
      Edge(EDGE_DEFS[i].0, EDGE_DEFS[i].1, i as real / |EDGE_DEFS| as real, 0.28 + random[i] * 0.18, i as real * 0.55, 1.0))
  }

  /** A packet that can be on its edge: progress in [0, 1) and speed in [0.28, 0.46). */
  predicate PacketOk(e: Edge) {
    0.0 <= e.packetT < 1.0 && 0.28 <= e.packetSpeed < 0.46
  }

  /** With Math.random() values in [0, 1), every initial packet is on its edge. */
  lemma {:induction false} InitEdgesOk(random: seq<real>)
    requires |random| == |EDGE_DEFS|
    requires forall i :: 0 <= i < |random| ==> 0.0 <= random[i] < 1.0
    ensures forall i :: 0 <= i < |EDGE_DEFS| ==> PacketOk(InitEdges(random)[i])
  {
    var es := InitEdges(random);
    forall i | 0 <= i < |es|
      ensures PacketOk(es[i])
    {
      assert es[i].packetT == i as real / 12.0;
      var r := random[i];
      assert 0.0 <= r * 0.18 < 0.18 by { ScaleBelow(r, 0.18); }
    }
  }

  lemma ScaleBelow(r: real, k: real)
    requires 0.0 <= r < 1.0 && 0.0 < k
    ensures 0.0 <= r * k < k
  {
    NonNegProduct(r, k, r * k);
    PosProduct(1.0 - r, k, (1.0 - r) * k);
  }

  // ─── The frame ──────────────────────────────────────────────────────────────

  /** A node's canvas position at clock t: its resting point (nx W, ny H) plus a sine float on each axis. */
  function PlaceNode(d: NodeDef, t: real, W: real, H: real, sin: Sine): (n: Node)
    ensures n.def == d
    ensures 0.0 <= d.ampX ==> Between(n.x, d.nx * W - d.ampX, d.nx * W + d.ampX)
    ensures 0.0 <= d.ampY ==> Between(n.y, d.ny * H - d.ampY, d.ny * H + d.ampY)
  {
    var restX, restY := d.nx * W, d.ny * H;
    var fx, fy := sin(t * d.freqX + d.phaseX) * d.ampX, sin(t * d.freqY + d.phaseY) * d.ampY;
    Float(restX, sin(t * d.freqX + d.phaseX), d.ampX, fx);
    Float(restY, sin(t * d.freqY + d.phaseY), d.ampY, fy);
    Node(d, restX + fx, restY + fy)
  }

  /** A float `sin(..) * amp` keeps a coordinate within amp of its resting value. */
  lemma Float(base: real, s: real, amp: real, p: real)
    requires -1.0 <= s <= 1.0 && p == s * amp
    ensures 0.0 <= amp ==> Between(base + p, base - amp, base + amp)
  {
    if 0.0 <= amp {
      NonNegProduct(1.0 - s, amp, (1.0 - s) * amp);
      NonNegProduct(1.0 + s, amp, (1.0 + s) * amp);
    }
  }

  /**
   * The node loop of draw: every node moves to its position at clock t. It
   * keeps its definition and stays within its amplitudes of its resting
   * point (nx W, ny H).
   */
  function PlaceNodes(ns: seq<Node>, t: real, W: real, H: real, sin: Sine): (r: seq<Node>)
    ensures |r| == |ns|
    ensures forall i :: 0 <= i < |ns| ==> r[i] == PlaceNode(ns[i].def, t, W, H, sin)
    ensures forall i :: 0 <= i < |ns| ==> r[i].def == ns[i].def
    ensures forall i :: 0 <= i < |ns| && 0.0 <= ns[i].def.ampX ==>
              Between(r[i].x, ns[i].def.nx * W - ns[i].def.ampX, ns[i].def.nx * W + ns[i].def.ampX)
    ensures forall i :: 0 <= i < |ns| && 0.0 <= ns[i].def.ampY ==>
              Between(r[i].y, ns[i].def.ny * H - ns[i].def.ampY, ns[i].def.ny * H + ns[i].def.ampY)
  {
    seq(|ns|, i requires 0 <= i < |ns| => PlaceNode(ns[i].def, t, W, H, sin))
  }

  /** `e.packetT = (e.packetT + delta * e.packetSpeed) % 1` */
  function AdvancePacket(e: Edge, delta: real): (r: Edge)
    ensures r == e.(packetT := r.packetT)
  {
    e.(packetT := JsRem(e.packetT + delta * e.packetSpeed, 1.0))
  }

  /** A frame of at most 0.05 s moves a packet on its edge by delta * speed, wrapping once at the end. */
  lemma {:induction false} AdvancePacketOk(e: Edge, delta: real)
    requires PacketOk(e) && 0.0 <= delta <= 0.05
    ensures PacketOk(AdvancePacket(e, delta))
    ensures var x := e.packetT + delta * e.packetSpeed;
            AdvancePacket(e, delta).packetT == (if x < 1.0 then x else x - 1.0)
  {
    var step := delta * e.packetSpeed;
    ScaleBound(e.packetSpeed, delta / 0.05, step / 0.05);
    assert 0.0 <= step <= 0.46 * 0.05;
    var x := e.packetT + step;
    assert 0.0 <= x < 2.0;
    var r := JsRem(x, 1.0);
    assert r == (if x < 1.0 then x else x - 1.0);
  }

  /**
   * The packet updates of the edge loop: only packet progress moves, and
   * under reduced motion nothing does.
   */
  function AdvancePackets(es: seq<Edge>, delta: real, reduced: bool): (r: seq<Edge>)
    ensures |r| == |es|
    ensures forall i :: 0 <= i < |es| ==> r[i] == if reduced then es[i] else AdvancePacket(es[i], delta)
    ensures forall i :: 0 <= i < |es| ==> r[i] == es[i].(packetT := r[i].packetT)
    ensures reduced ==> r == es
  {
    seq(|es|, i requires 0 <= i < |es| => if reduced then es[i] else AdvancePacket(es[i], delta))
  }

  /** Where edge e's packet is drawn: on the curve from node e.from to node e.to at progress packetT. */
  function PacketPoint(ns: seq<Node>, e: Edge, sqrt: SquareRoot): Pt
    requires e.from < |ns| && e.to < |ns|
  {
    var a, b := Pt(ns[e.from].x, ns[e.from].y), Pt(ns[e.to].x, ns[e.to].y);
    BezierPoint(a, CtrlPoint(a, b, Bend(e.from, e.to), sqrt), b, e.packetT)
  }

  /** A packet at progress 0 is drawn on its from node. */
  lemma PacketAtStart(ns: seq<Node>, e: Edge, sqrt: SquareRoot)
    requires e.from < |ns| && e.to < |ns| && e.packetT == 0.0
    ensures PacketPoint(ns, e, sqrt) == Pt(ns[e.from].x, ns[e.from].y)
  {
  }

  /** The edges follow the links (from, to) in order and every packet is on its edge. */
  predicate EdgesOk(es: seq<Edge>, links: seq<(nat, nat)>) {
    |es| == |links| &&
    forall i :: 0 <= i < |es| ==> es[i].from == links[i].0 && es[i].to == links[i].1 && PacketOk(es[i])
  }

  /** The nodes follow the definitions in order. */
  predicate NodesOk(ns: seq<Node>, defs: seq<NodeDef>) {
    |ns| == |defs| && forall i :: 0 <= i < |ns| ==> ns[i].def == defs[i]
  }

  lemma {:induction false} AdvanceKeepsEdgesOk(es: seq<Edge>, links: seq<(nat, nat)>, delta: real, reduced: bool)
    requires EdgesOk(es, links) && 0.0 <= delta <= 0.05
    ensures EdgesOk(AdvancePackets(es, delta, reduced), links)
  {
    var r := AdvancePackets(es, delta, reduced);
    forall i | 0 <= i < |es|
      ensures r[i].from == links[i].0 && r[i].to == links[i].1 && PacketOk(r[i])
    {
      if !reduced {
        AdvancePacketOk(es[i], delta);
      }
    }
  }

  /** The canvas and its effect: the node and edge arrays, the clock t and the last timestamp. */
  class Graph {
    var nodes: array<Node>
    var edges: array<Edge>
    var W: real
    var H: real
    var t: real
    var last: real
    const reduced: bool
    /** NODE_DEFS and EDGE_DEFS, under names that keep their literals out of the frame proofs. */
    ghost const defs: seq<NodeDef>
    ghost const links: seq<(nat, nat)>

    ghost predicate Valid()
      reads this, nodes, edges
    {
      && NodesOk(nodes[..], defs)
      && EdgesOk(edges[..], links)
      && (forall i :: 0 <= i < |links| ==> links[i].0 < |defs| && links[i].1 < |defs|)
      && 0.0 <= t
    }

    /** The effect's set-up: nodes at the origin, edges from InitEdges, t = 0 and no frame seen yet. */
    constructor (W: real, H: real, reduced: bool, random: seq<real>)
      requires |random| == |EDGE_DEFS|
      requires forall i :: 0 <= i < |random| ==> 0.0 <= random[i] < 1.0
      ensures Valid() && fresh(nodes) && fresh(edges) && defs == NODE_DEFS && links == EDGE_DEFS
      ensures this.W == W && this.H == H && this.reduced == reduced && t == 0.0 && last == -1.0
      ensures forall i :: 0 <= i < nodes.Length ==> nodes[i] == Node(NODE_DEFS[i], 0.0, 0.0)
      ensures edges[..] == InitEdges(random)
    {
      this.W, this.H, this.reduced := W, H, reduced;
      t, last := 0.0, -1.0;
      defs, links := NODE_DEFS, EDGE_DEFS;
      nodes := new Node[|NODE_DEFS|](i requires 0 <= i < |NODE_DEFS| => Node(NODE_DEFS[i], 0.0, 0.0));
      edges := new Edge[|EDGE_DEFS|](i requires 0 <= i < |EDGE_DEFS| => InitEdges(random)[i]);
      new;
      InitEdgesOk(random);
      EdgeDefsInRange();
      assert edges[..] == InitEdges(random);
    }

    /** resize: the canvas takes its new logical size. */
    method Resize(w: real, h: real)
      modifies this`W, this`H
      ensures W == w && H == h
    {
      W, H := w, h;
    }

    /**
     * draw: advance the clock unless motion is reduced, float every node,
     * then move every packet along its edge. Each packet is then drawn at
     * PacketPoint(nodes[..], edges[i]).
     */
    method Draw(ts: real, sin: Sine)
      requires Valid()
      requires last < 0.0 || last <= ts
      modifies this`t, this`last, nodes, edges
      ensures Valid() && last == ts
      ensures t == old(t) + (if reduced then 0.0 else FrameDelta(old(last), ts))
      ensures nodes[..] == PlaceNodes(old(nodes[..]), t, W, H, sin)
      ensures edges[..] == AdvancePackets(old(edges[..]), FrameDelta(old(last), ts), reduced)
    {
      var delta := FrameDelta(last, ts);
      last := ts;
      if !reduced {
        t := t + delta;
      }
      MoveNodes(nodes, t, W, H, sin);
      AdvanceKeepsEdgesOk(edges[..], links, delta, reduced);
      MovePackets(edges, nodes.Length, delta, reduced);
    }
  }

  /** The node loop of draw. */
  method MoveNodes(a: array<Node>, t: real, W: real, H: real, sin: Sine)
    modifies a
    ensures a[..] == PlaceNodes(old(a[..]), t, W, H, sin)
  {
    ghost var target := PlaceNodes(a[..], t, W, H, sin);
    var i := 0;
    while i < a.Length
      invariant 0 <= i <= a.Length
      invariant forall j :: 0 <= j < i ==> a[j] == target[j]
      invariant forall j :: i <= j < a.Length ==> a[j] == old(a[j])
    {
      a[i] := PlaceNode(a[i].def, t, W, H, sin);
      i := i + 1;
    }
    assert a[..] == target;
  }

  /**
   * The edge loop of draw: an edge whose endpoints are among the n nodes
   * moves its packet, unless motion is reduced.
   */
  method MovePackets(a: array<Edge>, n: nat, delta: real, reduced: bool)
    requires forall i :: 0 <= i < a.Length ==> a[i].from < n && a[i].to < n
    modifies a
    ensures a[..] == AdvancePackets(old(a[..]), delta, reduced)
  {
    ghost var target := AdvancePackets(a[..], delta, reduced);
    var i := 0;
    while i < a.Length
      invariant 0 <= i <= a.Length
      invariant forall j :: 0 <= j < i ==> a[j] == target[j]
      invariant forall j :: i <= j < a.Length ==> a[j] == old(a[j])
    {
      var e := a[i];
      if e.from < n && e.to < n {
        if !reduced {
          a[i] := AdvancePacket(e, delta);
        }
      }
      i := i + 1;
    }
    assert a[..] == target;
  }
}
