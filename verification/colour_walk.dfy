/**
  The stroke colour of the hero background: a random walk in RGB space kept inside
  an orange box. Each channel carries a value and a velocity; the velocity decays,
  takes Gaussian noise, moves the value, is reflected when the value has left the
  box and is still heading away from it, and finally the value is clamped back in.
*/
module ColourWalk {
  import opened P5Math

  /** Per-frame decay factor of a channel's velocity. */
  const DECAY: real := 0.995
  /** Scale of the Gaussian noise added to a channel's velocity each frame. */
  const NOISE_SCALE: real := 0.04

  /** A closed interval [lo, hi] a channel must stay in. */
  datatype Bounds = Bounds(lo: real, hi: real)

  const RED: Bounds := Bounds(220.0, 255.0)
  const GREEN: Bounds := Bounds(90.0, 170.0)
  const BLUE: Bounds := Bounds(0.0, 60.0)

  datatype Channel = Channel(value: real, velocity: real)

  datatype Colour = Colour(r: Channel, g: Channel, b: Channel)

  /** The colour before the first frame: (240, 120, 20), at rest. */
  const INITIAL: Colour := Colour(Channel(240.0, 0.0), Channel(120.0, 0.0), Channel(20.0, 0.0))

  predicate Within(c: Channel, bounds: Bounds) {
    bounds.lo <= c.value <= bounds.hi
  }

  /** Every channel lies inside its box. */
  predicate InRange(c: Colour) {
    Within(c.r, RED) && Within(c.g, GREEN) && Within(c.b, BLUE)
  }

  /** A channel's velocity after decay and noise, before any reflection. */
  function DriftVelocity(c: Channel, noise: real): real {
    c.velocity * DECAY + noise * NOISE_SCALE
  }

  /** The channel has left its box and is still moving further out of it. */
  predicate Escaping(x: real, v: real, bounds: Bounds) {
    (x < bounds.lo && v < 0.0) || (x > bounds.hi && v > 0.0)
  }

  /**
    One frame of one channel. Whatever the starting value, the result lies in the
    box. The velocity is negated exactly when the moved value is outside the box
    and still heading outward; a value outside the box that is already heading
    back keeps its velocity, and a value inside the box is neither reflected nor
    clamped.
  */
  function StepChannel(c: Channel, bounds: Bounds, noise: real): (r: Channel)
    requires bounds.lo <= bounds.hi
    ensures bounds.lo <= r.value <= bounds.hi
    ensures var v := c.velocity * 0.995 + noise * 0.04;
            var x := c.value + v;
            && (r.velocity == v || r.velocity == -v)
            && (r.velocity != v <==> (x < bounds.lo && v < 0.0) || (x > bounds.hi && v > 0.0))
            && (x < bounds.lo ==> r.velocity >= 0.0 && r.value == bounds.lo)
            && (x > bounds.hi ==> r.velocity <= 0.0 && r.value == bounds.hi)
            && (bounds.lo <= x <= bounds.hi ==> r == Channel(x, v))
  {
    var v := DriftVelocity(c, noise);
    var x := c.value + v;
    var v' := if Escaping(x, v, bounds) then -v else v;
    Channel(Constrain(x, bounds.lo, bounds.hi), v')
  }

  /** One frame of the whole colour, consuming one Gaussian draw per channel in the order r, g, b. */
  function StepColour(c: Colour, noiseR: real, noiseG: real, noiseB: real): (r: Colour)
    ensures InRange(r)
    ensures 220.0 <= r.r.value <= 255.0 && 90.0 <= r.g.value <= 170.0 && 0.0 <= r.b.value <= 60.0
  {
    Colour(StepChannel(c.r, RED, noiseR), StepChannel(c.g, GREEN, noiseG), StepChannel(c.b, BLUE, noiseB))
  }
}
