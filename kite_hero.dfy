/**
 * KiteHero: a kite that floats and tilts, a four-segment tail whose wave
 * travels downwards, and five ember particles that rise from their base,
 * sway sideways, fade in, fade out and start again. One clock, advanced by
 * the animation frame callback, drives all of them.
 */
module KiteHero {
  import opened Anim

  /** Pixels a particle rises before it loops. */
  const RISE: real := 480.0
  /** Progress over which a particle fades in. */
  const FADE_IN: real := 80.0
  /** Progress at which a particle starts to fade out, and the length of the fade. */
  const FADE_OUT_AT: real := 360.0
  const FADE_OUT: real := 120.0

  const KITE_FLOAT: real := 13.0
  const KITE_TILT: real := 3.2
  /** Vertical amplitude and frequency of every tail segment, and the frequency of its sideways sway. */
  const TAIL_FLOAT: real := 13.0
  const TAIL_FREQ: real := 0.55
  const TAIL_SWAY_FREQ: real := 2.2

  // ─── Particles ──────────────────────────────────────────────────────────────

  /** The fixed part of a particle: where it starts, how fast it rises, how far it sways, its phase and peak opacity. */
  datatype Particle = Particle(baseX: real, baseY: real, speed: real, sway: real, phase: real, opBase: real)

  /** The motion values of a particle: its position and opacity. */
  datatype Ember = Ember(x: real, y: real, o: real)

  const PARTICLES: seq<Particle> := [
    Particle(170.0, 440.0, 18.0, 6.0, 0.0, 0.30),
    Particle(230.0, 470.0, 22.0, 8.0, 1.1, 0.20),
    Particle(155.0, 500.0, 15.0, 5.0, 2.3, 0.38),
    Particle(248.0, 510.0, 27.0, 9.0, 0.7, 0.15),
    Particle(200.0, 530.0, 20.0, 7.0, 1.8, 0.25)
  ]

  /** The motion values the particles are created with, before the first frame. */
  const INITIAL_EMBERS: seq<Ember> := [
    Ember(170.0, 440.0, 0.0),
    Ember(230.0, 470.0, 0.0),
    Ember(155.0, 500.0, 0.0),
    Ember(248.0, 510.0, 0.0),
    Ember(200.0, 530.0, 0.0)
  ]

  /** Speed, sway, phase and peak opacity are not negative. */
  predicate WellFormed(p: Particle) {
    0.0 <= p.speed && 0.0 <= p.sway && 0.0 <= p.phase && 0.0 <= p.opBase
  }

  /** A particle at rest: at its base point and invisible. */
  function Resting(p: Particle): Ember {
    Ember(p.baseX, p.baseY, 0.0)
  }

  /** Every configured particle is well formed and starts at rest. */
  lemma ParticlesStartAtRest()
    ensures |INITIAL_EMBERS| == |PARTICLES|
    ensures forall i :: 0 <= i < |PARTICLES| ==> WellFormed(PARTICLES[i]) && INITIAL_EMBERS[i] == Resting(PARTICLES[i])
  {
  }

  /** `T * speed + phase * 30`: how far the particle would have risen without looping. */
  function Climb(p: Particle, T: real): real {
    T * p.speed + p.phase * 30.0
  }

  /** `(T * speed + phase * 30) % RISE`: how far the particle has risen in its current loop. */
  function Progress(p: Particle, T: real): real {
    JsRem(Climb(p, T), RISE)
  }

  /** From a non-negative clock the progress lies in [0, RISE). */
  lemma ProgressInRange(p: Particle, T: real)
    requires WellFormed(p) && 0.0 <= T
    ensures 0.0 <= Progress(p, T) < RISE
  {
    NonNegProduct(T, p.speed, T * p.speed);
  }

  /** A particle that rises at all is back at the same height after RISE / speed seconds. */
  lemma ProgressLoops(p: Particle, T: real)
    requires WellFormed(p) && 0.0 < p.speed && 0.0 <= T
    ensures Progress(p, T + RISE / p.speed) == Progress(p, T)
  {
    var k := RISE / p.speed;
    var raw := Climb(p, T);
    assert Climb(p, T + k) == raw + RISE by {
      assert k * p.speed == RISE;
    }
    NonNegProduct(T, p.speed, T * p.speed);
    JsRemPeriodic(raw, RISE);
  }

  /** `Math.min(progress / 80, 1)` */
  function FadeIn(progress: real): (r: real)
    ensures 0.0 <= progress ==> 0.0 <= r <= 1.0
    ensures FADE_IN <= progress ==> r == 1.0
    ensures progress < FADE_IN ==> r < 1.0
  {
    Min(progress / FADE_IN, 1.0)
  }

  /** `1 - Math.max(0, (progress - 360) / 120)` */
  function FadeOut(progress: real): (r: real)
    ensures r <= 1.0
    ensures progress <= FADE_OUT_AT ==> r == 1.0
    ensures progress < FADE_OUT_AT + FADE_OUT ==> 0.0 < r
    ensures progress == FADE_OUT_AT + FADE_OUT ==> r == 0.0
  {
    1.0 - Max(0.0, (progress - FADE_OUT_AT) / FADE_OUT)
  }

  /** `opBase * fadeIn * fadeOut` */
  function Opacity(p: Particle, progress: real): real {
    p.opBase * FadeIn(progress) * FadeOut(progress)
  }

  /** Within a loop the opacity lies in [0, opBase], and it is opBase between the two fades. */
  lemma OpacityInRange(p: Particle, progress: real)
    requires WellFormed(p) && 0.0 <= progress < RISE
    ensures 0.0 <= Opacity(p, progress) <= p.opBase
    ensures FADE_IN <= progress <= FADE_OUT_AT ==> Opacity(p, progress) == p.opBase
  {
    var a := FadeIn(progress);
    var b := FadeOut(progress);
    ScaleBound(p.opBase, a, p.opBase * a);
    ScaleBound(p.opBase * a, b, p.opBase * a * b);
  }

  /** The particle's motion values at clock T. */
  function EmberAt(p: Particle, T: real, sin: Sine): Ember {
    var progress := Progress(p, T);
    Ember(p.baseX + sin(T * 0.9 + p.phase) * p.sway, p.baseY - progress, Opacity(p, progress))
  }

  /** Within sway of baseX, at or above baseY by less than RISE, opacity in [0, opBase]. */
  predicate EmberOk(p: Particle, e: Ember) {
    Between(e.x, p.baseX - p.sway, p.baseX + p.sway)
    && p.baseY - RISE < e.y <= p.baseY
    && 0.0 <= e.o <= p.opBase
  }

  /** A well-formed particle at rest satisfies EmberOk. */
  lemma RestingOk(p: Particle)
    requires WellFormed(p)
    ensures EmberOk(p, Resting(p))
  {
  }

  /** From a non-negative clock every particle is where EmberOk says. */
  lemma EmberInRange(p: Particle, T: real, sin: Sine)
    requires WellFormed(p) && 0.0 <= T
    ensures EmberOk(p, EmberAt(p, T, sin))
  {
    var progress := Progress(p, T);
    ProgressInRange(p, T);
    OpacityInRange(p, progress);
    SwayBound(sin(T * 0.9 + p.phase), p.sway, sin(T * 0.9 + p.phase) * p.sway);
  }

  /** A sine of [-1, 1] scaled by a non-negative amplitude stays within that amplitude. */
  lemma SwayBound(s: real, amp: real, p: real)
    requires -1.0 <= s <= 1.0 && 0.0 <= amp && p == s * amp
    ensures -amp <= p <= amp
  {
    NonNegProduct(1.0 - s, amp, (1.0 - s) * amp);
    NonNegProduct(1.0 + s, amp, (1.0 + s) * amp);
  }

  /** The particle loop: every particle at clock T, in order. */
  function EmbersAt(ps: seq<Particle>, T: real, sin: Sine): seq<Ember> {
    seq(|ps|, i requires 0 <= i < |ps| => EmberAt(ps[i], T, sin))
  }

  /** From a non-negative clock every well-formed particle of the loop satisfies EmberOk. */
  lemma EmbersInRange(ps: seq<Particle>, T: real, sin: Sine)
    requires 0.0 <= T && forall i :: 0 <= i < |ps| ==> WellFormed(ps[i])
    ensures |EmbersAt(ps, T, sin)| == |ps|
    ensures forall i :: 0 <= i < |ps| ==> EmberOk(ps[i], EmbersAt(ps, T, sin)[i])
  {
    forall i | 0 <= i < |ps| ensures EmberOk(ps[i], EmbersAt(ps, T, sin)[i]) {
      EmberInRange(ps[i], T, sin);
    }
  }

  // ─── Kite and tail ──────────────────────────────────────────────────────────

  /** A tail segment's phase offset and sideways amplitude. */
  datatype Wave = Wave(offset: real, sway: real)

  /** A tail segment's motion values. */
  datatype Offset = Offset(x: real, y: real)

  /** The kite's motion values: vertical float, tilt in degrees and the tail offsets. */
  datatype Kite = Kite(y: real, rot: real, tail: seq<Offset>)

  /** The segments from the belly down: the phase grows so the wave travels downwards, and so does the sway. */
  const TAIL: seq<Wave> := [Wave(0.30, 9.0), Wave(0.65, 14.0), Wave(1.05, 18.0), Wave(1.50, 21.0)]

  /** The motion values before the first frame. */
  const KITE_START: Kite := Kite(0.0, 0.0, [Offset(0.0, 0.0), Offset(0.0, 0.0), Offset(0.0, 0.0), Offset(0.0, 0.0)])

  /** The float, tilt and tail bounds the kite keeps. */
  predicate KiteOk(k: Kite) {
    -KITE_FLOAT <= k.y <= KITE_FLOAT && -KITE_TILT <= k.rot <= KITE_TILT
    && |k.tail| == |TAIL|
    && forall i :: 0 <= i < |TAIL| ==>
         -TAIL_FLOAT <= k.tail[i].y <= TAIL_FLOAT && -TAIL[i].sway <= k.tail[i].x <= TAIL[i].sway
  }

  /** One segment at clock T. */
  function TailAt(w: Wave, T: real, sin: Sine): Offset {
    Offset(sin(T * TAIL_SWAY_FREQ + w.offset) * w.sway, sin(T * TAIL_FREQ + w.offset) * TAIL_FLOAT)
  }

  /** The kite and its tail at clock T. */
  function KiteAt(T: real, sin: Sine): (k: Kite)
    ensures KiteOk(k)
  {
    Kite(sin(T * 0.55) * KITE_FLOAT, sin(T * 0.38) * KITE_TILT, seq(|TAIL|, i requires 0 <= i < |TAIL| => TailAt(TAIL[i], T, sin)))
  }

  // ─── The component ──────────────────────────────────────────────────────────

  /**
   * The state the frame callback works on. t is the clock in seconds; it only
   * runs while the component is in view and motion is not reduced. inView is
   * what the intersection observer last reported.
   */
  class Hero {
    var t: real
    var inView: bool
    const reduced: bool
    const particles: seq<Particle>
    var kite: Kite
    const embers: array<Ember>

    ghost predicate Valid()
      reads this, embers
    {
      embers.Length == |particles| && 0.0 <= t && KiteOk(kite)
      && forall i :: 0 <= i < |particles| ==> WellFormed(particles[i]) && EmberOk(particles[i], embers[i])
    }

    constructor (reduced: bool)
      ensures Valid() && fresh(embers)
      ensures this.reduced == reduced && inView && t == 0.0
      ensures particles == PARTICLES && kite == KITE_START && embers[..] == INITIAL_EMBERS
    {
      t := 0.0;
      inView := true;
      this.reduced := reduced;
      particles := PARTICLES;
      kite := KITE_START;
      embers := new Ember[5](i requires 0 <= i < 5 => INITIAL_EMBERS[i]);
      new;
      ParticlesStartAtRest();
      forall i | 0 <= i < |PARTICLES| ensures EmberOk(PARTICLES[i], embers[i]) {
        RestingOk(PARTICLES[i]);
      }
    }

    /** The intersection observer's callback. */
    method SetInView(visible: bool)
      modifies this`inView
      ensures inView == visible
    {
      inView := visible;
    }

    /**
     * One animation frame, delta milliseconds after the previous one. Under
     * reduced motion or out of view nothing changes; otherwise the clock
     * advances and the kite, tail and every particle move to their values at
     * the new clock.
     */
    method Frame(delta: real, sin: Sine)
      requires Valid() && 0.0 <= delta
      modifies this`t, this`kite, embers
      ensures Valid()
      ensures reduced || !inView ==> t == old(t) && kite == old(kite) && embers[..] == old(embers[..])
      ensures !reduced && inView ==> t == old(t) + delta / 1000.0 && kite == KiteAt(t, sin)
      ensures !reduced && inView ==> embers[..] == EmbersAt(particles, t, sin)
    {
      if reduced || !inView {
        return;
      }
      t := t + delta / 1000.0;
      kite := KiteAt(t, sin);
      EmbersInRange(particles, t, sin);
      MoveEmbers(embers, particles, t, sin);
    }
  }

  /** The particle loop of the frame callback. */
  method MoveEmbers(a: array<Ember>, ps: seq<Particle>, T: real, sin: Sine)
    requires a.Length == |ps|
    modifies a
    ensures a[..] == EmbersAt(ps, T, sin)
  {
    ghost var target := EmbersAt(ps, T, sin);
    for i := 0 to a.Length
      invariant forall j :: 0 <= j < i ==> a[j] == target[j]
    {
      a[i] := EmberAt(ps[i], T, sin);
    }
    assert a[..] == target;
  }
}
