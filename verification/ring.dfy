/**
  The particle ring of the hero background: 1024 particles joined in a cycle by springs.
  Each particle has a position, a velocity and an acceleration per axis. The ring is kept
  as six parallel sequences, one per array of the animation sketch. This module holds the
  particle half of one animation frame: spring accelerations, the random kick, and damped
  integration with clamping to the canvas.
*/
module Ring {
  import opened P5Math

  /** Number of particles in the ring. */
  const SIZE: nat := 1024
  /** Weight of the neighbours' positions in a particle's acceleration. */
  const TENSION: real := 0.5
  /** Weight of the neighbours' velocities ("sympathy") in a particle's acceleration. */
  const SYMPATHY: real := 0.25
  /** Factor applied to every velocity once per frame, after it has absorbed the acceleration. */
  const DAMPING: real := 0.999
  /** Strength of the kicked particle's pull toward the canvas centre. */
  const PULL: real := 0.001
  /** Scale of the Gaussian noise added to the kicked particle's acceleration. */
  const KICK_SCALE: real := 5.0

  datatype Ring = Ring(px: seq<real>, py: seq<real>,
                       vx: seq<real>, vy: seq<real>,
                       ax: seq<real>, ay: seq<real>)
  {
    /** Every state array holds exactly one entry per particle. */
    predicate Valid() {
      && |px| == SIZE && |py| == SIZE
      && |vx| == SIZE && |vy| == SIZE
      && |ax| == SIZE && |ay| == SIZE
    }
  }

  /** Index of the previous particle around the cycle. */
  function Prev(i: nat): (j: nat)
    requires i < SIZE
    ensures j < SIZE
    ensures (j + 1) % SIZE == i
  {
    (i + SIZE - 1) % SIZE
  }

  /** Index of the next particle around the cycle; `Prev` undoes it. */
  function Next(i: nat): (j: nat)
    requires i < SIZE
    ensures j < SIZE
    ensures Prev(j) == i
  {
    (i + 1) % SIZE
  }

  /**
    Spring plus sympathy acceleration of particle `i` along one axis, from its
    cyclic neighbours. Inside the ring the neighbours are i-1 and i+1; the first
    particle's previous neighbour is the last one, and the last particle's next
    neighbour is the first one.
  */
  function Spring(p: seq<real>, v: seq<real>, i: nat): (a: real)
    requires |p| == SIZE && |v| == SIZE && i < SIZE
    ensures 0 < i < 1023 ==>
              a == (p[i - 1] + p[i + 1] - 2.0 * p[i]) * 0.5 + (v[i - 1] + v[i + 1] - 2.0 * v[i]) * 0.25
    ensures i == 0 ==>
              a == (p[1023] + p[1] - 2.0 * p[0]) * 0.5 + (v[1023] + v[1] - 2.0 * v[0]) * 0.25
    ensures i == 1023 ==>
              a == (p[1022] + p[0] - 2.0 * p[1023]) * 0.5 + (v[1022] + v[0] - 2.0 * v[1023]) * 0.25
  {
    (p[Prev(i)] + p[Next(i)] - 2.0 * p[i]) * TENSION
      + (v[Prev(i)] + v[Next(i)] - 2.0 * v[i]) * SYMPATHY
  }

  /** The spring accelerations of the whole ring along one axis. */
  function Springs(p: seq<real>, v: seq<real>): (a: seq<real>)
    requires |p| == SIZE && |v| == SIZE
    ensures |a| == SIZE
    ensures forall i :: 0 <= i < SIZE ==> a[i] == Spring(p, v, i)
  {
    seq(SIZE, i requires 0 <= i < SIZE => Spring(p, v, i))
  }

  /**
    The acceleration pass as the sketch writes it: a loop over the interior
    indices 1 .. SIZE-2 with plain `i - 1` / `i + 1` neighbours, then index 0 and
    index SIZE-1 written out with their wrapped neighbours. Every entry agrees
    with the cyclic formula `Spring`.
  */
  method SpringPass(p: seq<real>, v: seq<real>) returns (a: seq<real>)
    requires |p| == SIZE && |v| == SIZE
    ensures |a| == SIZE
    ensures forall i :: 0 <= i < SIZE ==> a[i] == Spring(p, v, i)
  {
    var acc := new real[SIZE];
    var i := 1;
    while i < SIZE - 1
      invariant 1 <= i <= SIZE - 1
      invariant forall k :: 1 <= k < i ==> acc[k] == Spring(p, v, k)
    {
      acc[i] := (p[i - 1] + p[i + 1] - 2.0 * p[i]) * TENSION
                + (v[i - 1] + v[i + 1] - 2.0 * v[i]) * SYMPATHY;
      i := i + 1;
    }
    acc[0] := (p[SIZE - 1] + p[1] - 2.0 * p[0]) * TENSION
              + (v[SIZE - 1] + v[1] - 2.0 * v[0]) * SYMPATHY;
    acc[SIZE - 1] := (p[SIZE - 2] + p[0] - 2.0 * p[SIZE - 1]) * TENSION
                     + (v[SIZE - 2] + v[0] - 2.0 * v[SIZE - 1]) * SYMPATHY;
    a := acc[..];
  }

  /**
    The kicked particle's acceleration along one axis: a weak pull toward the
    centre plus noise. Without noise it points toward the centre and vanishes
    only at the centre.
  */
  function KickAccel(centre: real, pos: real, noise: real): (a: real)
    ensures noise == 0.0 ==> (a > 0.0 <==> pos < centre) && (a < 0.0 <==> pos > centre)
    ensures pos == centre ==> a == noise * 5.0
  {
    (centre - pos) * PULL + noise * KICK_SCALE
  }

  /**
    One axis's velocity after a frame: the acceleration is added, then the sum is
    damped. With no acceleration a moving particle keeps its direction and slows.
  */
  function DampedVelocity(v: real, a: real): (r: real)
    ensures a == 0.0 && v > 0.0 ==> 0.0 < r < v
    ensures a == 0.0 && v < 0.0 ==> v < r < 0.0
    ensures v + a == 0.0 ==> r == 0.0
  {
    (v + a) * DAMPING
  }

  /**
    One axis of the integration loop: each velocity absorbs its acceleration and is
    damped, then each position moves by the NEW velocity and is clamped to [0, bound].
  */
  function Integrate(p: seq<real>, v: seq<real>, a: seq<real>, bound: real): (r: (seq<real>, seq<real>))
    requires |p| == SIZE && |v| == SIZE && |a| == SIZE
    requires 0.0 <= bound
    ensures |r.0| == SIZE && |r.1| == SIZE
    ensures forall i :: 0 <= i < SIZE ==> r.1[i] == DampedVelocity(v[i], a[i])
    ensures forall i :: 0 <= i < SIZE ==> 0.0 <= r.0[i] <= bound
    ensures forall i :: 0 <= i < SIZE && 0.0 <= p[i] + r.1[i] <= bound ==> r.0[i] == p[i] + r.1[i]
    ensures forall i :: 0 <= i < SIZE && p[i] + r.1[i] < 0.0 ==> r.0[i] == 0.0
    ensures forall i :: 0 <= i < SIZE && p[i] + r.1[i] > bound ==> r.0[i] == bound
  {
    var v' := seq(SIZE, i requires 0 <= i < SIZE => DampedVelocity(v[i], a[i]));
    var p' := seq(SIZE, i requires 0 <= i < SIZE => Constrain(p[i] + v'[i], 0.0, bound));
    (p', v')
  }

  /**
    The particle part of one frame on a `width` x `height` canvas. `rn` is the
    particle chosen for the kick and `noiseX`, `noiseY` its two Gaussian draws.
  */
  function Step(ring: Ring, width: real, height: real, rn: nat, noiseX: real, noiseY: real): (r: Ring)
    requires ring.Valid()
    requires 0.0 <= width && 0.0 <= height
    requires rn < SIZE
    ensures r.Valid()
    // the kick replaces particle rn's acceleration on both axes
    ensures r.ax[rn] == (width / 2.0 - ring.px[rn]) * 0.001 + noiseX * 5.0
    ensures r.ay[rn] == (height / 2.0 - ring.py[rn]) * 0.001 + noiseY * 5.0
    // every other particle keeps its spring acceleration
    ensures forall i :: 0 <= i < SIZE && i != rn ==>
              r.ax[i] == Spring(ring.px, ring.vx, i) && r.ay[i] == Spring(ring.py, ring.vy, i)
    // velocities come from accumulation and damping alone: clamping never touches them
    ensures forall i :: 0 <= i < SIZE ==>
              r.vx[i] == (ring.vx[i] + r.ax[i]) * 0.999 && r.vy[i] == (ring.vy[i] + r.ay[i]) * 0.999
    // every position ends on the canvas
    ensures forall i :: 0 <= i < SIZE ==>
              0.0 <= r.px[i] <= width && 0.0 <= r.py[i] <= height
    // a particle whose free motion stays on the canvas is not moved by the clamp
    ensures forall i :: 0 <= i < SIZE && 0.0 <= ring.px[i] + r.vx[i] <= width ==>
              r.px[i] == ring.px[i] + r.vx[i]
    ensures forall i :: 0 <= i < SIZE && 0.0 <= ring.py[i] + r.vy[i] <= height ==>
              r.py[i] == ring.py[i] + r.vy[i]
    // an overshooting particle stops at the edge it crossed
    ensures forall i :: 0 <= i < SIZE ==>
              r.px[i] == Constrain(ring.px[i] + r.vx[i], 0.0, width)
              && r.py[i] == Constrain(ring.py[i] + r.vy[i], 0.0, height)
  {
    var ax := Springs(ring.px, ring.vx)[rn := KickAccel(width / 2.0, ring.px[rn], noiseX)];
    var ay := Springs(ring.py, ring.vy)[rn := KickAccel(height / 2.0, ring.py[rn], noiseY)];
    var (px, vx) := Integrate(ring.px, ring.vx, ax, width);
    var (py, vy) := Integrate(ring.py, ring.vy, ay, height);
    Ring(px, py, vx, vy, ax, ay)
  }

  /**
    The choice of kicked particle is local: two frames from the same ring with the
    same noise but different kick indices agree on every other particle.
  */
  lemma KickIsLocal(ring: Ring, width: real, height: real, rn1: nat, rn2: nat, noiseX: real, noiseY: real)
    requires ring.Valid()
    requires 0.0 <= width && 0.0 <= height
    requires rn1 < SIZE && rn2 < SIZE
    ensures var r1 := Step(ring, width, height, rn1, noiseX, noiseY);
            var r2 := Step(ring, width, height, rn2, noiseX, noiseY);
            forall i :: 0 <= i < SIZE && i != rn1 && i != rn2 ==>
              && r1.px[i] == r2.px[i] && r1.py[i] == r2.py[i]
              && r1.vx[i] == r2.vx[i] && r1.vy[i] == r2.vy[i]
              && r1.ax[i] == r2.ax[i] && r1.ay[i] == r2.ay[i]
  {
  }
}
