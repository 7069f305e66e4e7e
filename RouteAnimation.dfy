/**
 * The per-frame state machine of the active route (`route.userData`): first
 * the dots are revealed a fifth of a point per frame, then the whole route
 * pulses once and settles.
 *
 * `currentPoint` is kept as the number of reveal frames `tick` (it equals
 * `DrawSpeed * tick`) and `glowOffset` as the number of glow frames
 * `glowTick` (it equals `GlowSpeed * glowTick`); both products are exact reals.
 */
module RouteAnimation {

  /** `drawSpeed`: points revealed per frame. */
  const DrawSpeed: real := 0.2
  /** The increment of `glowOffset` per frame. */
  const GlowSpeed: real := 0.05
  /** `Math.PI`, the double nearest to pi. */
  const MathPi: real := 3.141592653589793
  /** The material once the glow has ended. */
  const RestingOpacity: real := 0.9
  const RestingSize: real := 12.0

  /**
   * How the route's material looks: as created, pulsing (its opacity and size
   * follow `Math.sin(glowOffset)`, which the model does not compute), or at rest.
   */
  datatype Look = Drawn | Pulsing | Resting(opacity: real, size: real)

  /** `route.userData` together with the draw range and the material's look. */
  datatype Reveal = Reveal(
    total: nat,         // totalPoints
    tick: nat,          // reveal frames so far: currentPoint == DrawSpeed * tick
    drawCount: nat,     // the geometry's draw range count
    fullyDrawn: bool,   // isFullyDrawn
    glowTick: nat,      // glow frames so far: glowOffset == GlowSpeed * glowTick
    glowDone: bool,     // isGlowDone
    look: Look)

  function Min(a: int, b: int): int {
    if a <= b then a else b
  }

  /** The state `drawDynamicRoute` gives a new route of `total` points; the draw range is empty. */
  function Fresh(total: nat): (r: Reveal)
    ensures r.drawCount == 0 && !r.fullyDrawn && !r.glowDone && r.total == total
  {
    Reveal(total, 0, 0, false, 0, false, Drawn)
  }

  /** One frame of `animate` for the active route. */
  function Advance(r: Reveal): Reveal {
    if !r.fullyDrawn then
      var t := r.tick + 1;
      var currentPoint := DrawSpeed * t as real;
      r.(tick := t,
         drawCount := Min(currentPoint.Floor, r.total),
         fullyDrawn := currentPoint >= r.total as real)
    else if !r.glowDone then
      var g := r.glowTick + 1;
      var done := GlowSpeed * g as real >= MathPi;
      r.(glowTick := g,
         glowDone := done,
         look := if done then Resting(RestingOpacity, RestingSize) else Pulsing)
    else
      r
  }

  /** `n` frames of `animate`. */
  function Frames(r: Reveal, n: nat): Reveal {
    if n == 0 then r else Advance(Frames(r, n - 1))
  }

  /** `Math.floor(DrawSpeed * t)` is `t / 5`. */
  lemma FloorOfCurrentPoint(t: nat)
    ensures (DrawSpeed * t as real).Floor == t / 5
  {
    var q := t / 5;
    assert t == 5 * q + t % 5;
    assert q as real <= DrawSpeed * t as real < q as real + 1.0;
  }

  /** `currentPoint >= totalPoints` exactly when `tick >= 5 * totalPoints`. */
  lemma RevealedWhen(t: nat, total: nat)
    ensures DrawSpeed * t as real >= total as real <==> t >= 5 * total
  {
  }

  /** The number of glow frames: `GlowSpeed * k >= Math.PI` first holds at `k = 63`. */
  const GlowFrames: nat := 63

  lemma GlowEndsWhen(g: nat)
    ensures GlowSpeed * g as real >= MathPi <==> g >= GlowFrames
  {
  }

  /** The number of frames the reveal takes: five per point, and at least one. */
  function RevealFrames(total: nat): (n: nat)
    ensures n >= 1 && n >= 5 * total
  {
    if total == 0 then 1 else 5 * total
  }

  /** The look after `g` glow frames. */
  function LookAfter(g: nat): Look {
    if g == 0 then Drawn
    else if g >= GlowFrames then Resting(RestingOpacity, RestingSize)
    else Pulsing
  }

  /** The invariant every route's state keeps from creation on. */
  predicate Inv(r: Reveal) {
    && r.tick <= RevealFrames(r.total)
    && r.drawCount == Min(r.tick / 5, r.total)
    && (r.fullyDrawn <==> r.tick == RevealFrames(r.total))
    && (r.glowTick > 0 ==> r.fullyDrawn)
    && r.glowTick <= GlowFrames
    && (r.glowDone <==> r.glowTick == GlowFrames)
    && r.look == LookAfter(r.glowTick)
  }

  /**
   * A frame keeps the invariant; the draw count never decreases and never
   * exceeds `totalPoints`; glow frames only start once the route is fully
   * drawn; and a settled route is left as it is.
   */
  lemma AdvanceKeepsInv(r: Reveal)
    requires Inv(r)
    ensures Inv(Advance(r))
    ensures r.drawCount <= Advance(r).drawCount <= r.total
    ensures Advance(r).total == r.total
    ensures Advance(r).glowTick > r.glowTick ==> r.fullyDrawn
    ensures r.glowDone ==> Advance(r) == r
  {
    if !r.fullyDrawn {
      var t := r.tick + 1;
      FloorOfCurrentPoint(t);
      RevealedWhen(t, r.total);
      assert r.tick / 5 <= t / 5;
    } else if !r.glowDone {
      GlowEndsWhen(r.glowTick + 1);
    }
  }

  /** The state after `n` frames of a route of `total` points, in closed form. */
  function After(total: nat, n: nat): Reveal {
    var t := Min(n, RevealFrames(total));
    var g := Min(n - t, GlowFrames);
    Reveal(total, t, Min(t / 5, total), t == RevealFrames(total), g, g == GlowFrames, LookAfter(g))
  }

  /** A new route, animated frame by frame, follows the closed form. */
  lemma {:induction false} FramesAfter(total: nat, n: nat)
    ensures Frames(Fresh(total), n) == After(total, n)
    ensures Inv(After(total, n))
  {
    if n > 0 {
      FramesAfter(total, n - 1);
      AdvanceKeepsInv(After(total, n - 1));
      var prev := After(total, n - 1);
      if !prev.fullyDrawn {
        FloorOfCurrentPoint(prev.tick + 1);
        RevealedWhen(prev.tick + 1, total);
      } else if !prev.glowDone {
        GlowEndsWhen(prev.glowTick + 1);
      }
    }
  }

  /**
   * The reveal: after `n` frames exactly `min(floor(n / 5), totalPoints)` dots
   * are drawn, and `isFullyDrawn` holds exactly from frame `RevealFrames` on.
   */
  lemma RevealProgress(total: nat, n: nat)
    ensures Frames(Fresh(total), n).drawCount == Min(Min(n, RevealFrames(total)) / 5, total)
    ensures Frames(Fresh(total), n).fullyDrawn <==> n >= RevealFrames(total)
    ensures Frames(Fresh(total), n).glowTick > 0 ==> Frames(Fresh(total), n).fullyDrawn
  {
    FramesAfter(total, n);
  }

  /** The draw count of a route never decreases from one frame to a later one. */
  lemma DrawCountMonotone(total: nat, n: nat, m: nat)
    requires n <= m
    ensures Frames(Fresh(total), n).drawCount <= Frames(Fresh(total), m).drawCount <= total
  {
    FramesAfter(total, n);
    FramesAfter(total, m);
    var a, b := Min(n, RevealFrames(total)), Min(m, RevealFrames(total));
    assert a / 5 <= b / 5;
  }

  /**
   * The glow plays once: `GlowFrames` frames after the reveal ends the route is
   * settled at opacity 0.9 and size 12, and every later frame changes nothing.
   */
  lemma GlowSettles(total: nat, n: nat)
    requires n >= RevealFrames(total) + GlowFrames
    ensures Frames(Fresh(total), n).glowDone
    ensures Frames(Fresh(total), n).look == Resting(RestingOpacity, RestingSize)
    ensures Frames(Fresh(total), n).drawCount == total
    ensures Advance(Frames(Fresh(total), n)) == Frames(Fresh(total), n)
  {
    FramesAfter(total, n);
  }

  /** Before that frame the glow is still running. */
  lemma GlowNotEarlier(total: nat, n: nat)
    requires n < RevealFrames(total) + GlowFrames
    ensures !Frames(Fresh(total), n).glowDone
  {
    FramesAfter(total, n);
  }
}
