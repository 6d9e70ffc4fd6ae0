/**
  Laying the ring out on a circle (the sketch's `buildRing`), done at setup and on
  every window resize. The cosine, sine and the full-turn constant are the host's;
  they are parameters here, so only the centre and radius arithmetic is modelled.
*/
module RingGeometry {
  import opened Wrappers
  import opened P5Math
  import opened Ring

  /** Smallest radius the ring is ever given. */
  const MIN_RADIUS: real := 24.0
  /** Fraction of the smaller half-dimension the ring spans. */
  const RADIUS_SCALE: real := 0.98
  /** Canvas height used when neither the prop nor the host element gives one. */
  const DEFAULT_HEIGHT: real := 400.0

  /**
    The canvas height: the `height` prop when it is given (even 0, since `??` only
    skips a missing value), otherwise the host element's measured height when it
    exists and is non-zero, otherwise 400.
  */
  function HostHeight(prop: Option<real>, offset: Option<real>): (h: real)
    ensures prop.Some? ==> h == prop.value
    ensures prop.None? && offset.Some? && offset.value != 0.0 ==> h == offset.value
    ensures prop.None? && (offset.None? || offset.value == 0.0) ==> h == 400.0
    ensures (prop.Some? ==> prop.value >= 0.0) && (offset.Some? ==> offset.value >= 0.0) ==> h >= 0.0
  {
    prop.GetOr(if offset.Some? && offset.value != 0.0 then offset.value else DEFAULT_HEIGHT)
  }

  /** Radius of the ring for half-width `hw` and half-height `hh`. */
  function Radius(hw: real, hh: real): (radius: real)
    ensures radius >= 24.0
    ensures radius >= Min(hw, hh) * 0.98
    ensures radius == 24.0 || radius == Min(hw, hh) * 0.98
  {
    Max(MIN_RADIUS, Min(hw, hh) * RADIUS_SCALE)
  }

  /**
    Angle of particle `i`, a fraction i/SIZE of the full turn `tau`. Particle 0 is
    at angle 0 and the angles stay short of a full turn, so no two particles of
    the ring coincide at the seam.
  */
  function Angle(tau: real, i: nat): (angle: real)
    requires i < SIZE
    ensures i == 0 ==> angle == 0.0
    ensures 0.0 < tau ==> 0.0 <= angle < tau
  {
    tau * (i as real / SIZE as real)
  }

  /**
    Every particle `i` of the ring sits at the canvas centre offset by
    (cos, sin) of its angle, times the radius for that canvas.
  */
  predicate LaidOnCircle(ring: Ring, width: real, height: real,
                         cos: real -> real, sin: real -> real, tau: real)
    requires ring.Valid()
  {
    forall i :: 0 <= i < SIZE ==>
      && ring.px[i] - width / 2.0 == cos(Angle(tau, i)) * Radius(width / 2.0, height / 2.0)
      && ring.py[i] - height / 2.0 == sin(Angle(tau, i)) * Radius(width / 2.0, height / 2.0)
  }

  /**
    Re-lays the ring on the circle of radius `Radius(width/2, height/2)` centred on
    the canvas centre, particle `i` at angle `Angle(tau, i)`. Only the positions
    are rewritten: velocities and accelerations carry over unchanged.
  */
  function BuildRing(ring: Ring, width: real, height: real,
                     cos: real -> real, sin: real -> real, tau: real): (r: Ring)
    requires ring.Valid()
    ensures r.Valid()
    ensures r.vx == ring.vx && r.vy == ring.vy && r.ax == ring.ax && r.ay == ring.ay
    ensures LaidOnCircle(r, width, height, cos, sin, tau)
  {
    var hw := width / 2.0;
    var hh := height / 2.0;
    var radius := Radius(hw, hh);
    ring.(px := seq(SIZE, i requires 0 <= i < SIZE => hw + cos(Angle(tau, i)) * radius),
          py := seq(SIZE, i requires 0 <= i < SIZE => hh + sin(Angle(tau, i)) * radius))
  }

  /**
    Wherever cosine and sine satisfy the Pythagorean identity, the rebuilt ring lies
    exactly on the circle of radius `Radius(width/2, height/2)` around the centre.
  */
  lemma OnCircle(ring: Ring, width: real, height: real,
                 cos: real -> real, sin: real -> real, tau: real, i: nat)
    requires ring.Valid()
    requires i < SIZE
    requires cos(Angle(tau, i)) * cos(Angle(tau, i)) + sin(Angle(tau, i)) * sin(Angle(tau, i)) == 1.0
    ensures var r := BuildRing(ring, width, height, cos, sin, tau);
            var radius := Radius(width / 2.0, height / 2.0);
            (r.px[i] - width / 2.0) * (r.px[i] - width / 2.0)
              + (r.py[i] - height / 2.0) * (r.py[i] - height / 2.0) == radius * radius
  {
  }

  /** Consecutive particles are a 1/SIZE turn apart. */
  lemma AnglesEvenlySpaced(tau: real, i: nat)
    requires i + 1 < SIZE
    ensures Angle(tau, i + 1) - Angle(tau, i) == tau / 1024.0
  {
  }

  /**
    An 800 x 400 canvas: radius min(400, 200) * 0.98 = 196, centre (400, 200),
    particle 0 at (596, 200).
  */
  lemma Canvas800x400(ring: Ring, cos: real -> real, sin: real -> real, tau: real)
    requires ring.Valid()
    requires cos(0.0) == 1.0 && sin(0.0) == 0.0
    ensures Radius(400.0, 200.0) == 196.0
    ensures var r := BuildRing(ring, 800.0, 400.0, cos, sin, tau);
            r.px[0] == 596.0 && r.py[0] == 200.0
  {
  }
}
