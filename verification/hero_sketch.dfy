/**
  The hero background sketch as a pure state machine: `setup` builds the canvas
  and the ring, `windowResized` resizes the canvas (which redraws one frame) and
  re-lays the ring, and each
  `draw` frame advances the particles and the stroke colour. The host's random
  numbers for a frame arrive as a `Draws` record, and the host's trigonometry as
  parameters.
*/
module HeroSketch {
  import opened Wrappers
  import opened Ring
  import opened ColourWalk
  import opened RingGeometry

  /**
    Everything the sketch keeps between frames. `width` and `height` are the
    canvas dimensions; the ring is laid out with the same height.
  */
  datatype Sketch = Sketch(width: real, height: real, ring: Ring, colour: Colour)
  {
    predicate Valid() {
      0.0 <= width && 0.0 <= height && ring.Valid()
    }
  }

  /**
    The host's random numbers for one frame, in the order the frame asks for them:
    `pick` from `random(SIZE)`, then Gaussian draws for the kick (x, y) and for the
    colour channels (r, g, b).
  */
  datatype Draws = Draws(pick: real, kickX: real, kickY: real,
                         noiseR: real, noiseG: real, noiseB: real)
  {
    /** `random(SIZE)` returns a value in [0, SIZE). */
    predicate Valid() {
      0.0 <= pick < SIZE as real
    }
  }

  /** The host's circle functions: cosine, sine and the full turn. */
  datatype Trig = Trig(cos: real -> real, sin: real -> real, tau: real)

  /**
    A host event reaching the sketch. Both carry the random numbers of one frame:
    p5's `resizeCanvas` redraws, so a resize also runs a frame.
  */
  datatype Event =
    | Frame(draws: Draws)
    | WindowResized(windowWidth: real, offset: Option<real>, draws: Draws)

  /** The kicked particle: `floor(random(SIZE))`, always a valid ring index. */
  function KickIndex(pick: real): (rn: nat)
    requires 0.0 <= pick < SIZE as real
    ensures rn < SIZE
    ensures rn as real <= pick < rn as real + 1.0
  {
    pick.Floor
  }

  /**
    The six state arrays before setup: SIZE entries each, velocities and
    accelerations zero-filled. Positions are laid out by `BuildRing` straight after.
  */
  function EmptyRing(): (r: Ring)
    ensures r.Valid()
    ensures forall i :: 0 <= i < SIZE ==> r.vx[i] == 0.0 && r.vy[i] == 0.0 && r.ax[i] == 0.0 && r.ay[i] == 0.0
  {
    var zeros := seq(SIZE, _ => 0.0);
    Ring(zeros, zeros, zeros, zeros, zeros, zeros)
  }

  /**
    `setup`: a canvas of the window's width and the host height, the initial
    colour, zero velocities and accelerations, and the ring laid on its circle.
  */
  function Setup(windowWidth: real, heightProp: Option<real>, offset: Option<real>, trig: Trig): (s: Sketch)
    requires 0.0 <= windowWidth
    requires heightProp.Some? ==> heightProp.value >= 0.0
    requires offset.Some? ==> offset.value >= 0.0
    ensures s.Valid()
    ensures s.width == windowWidth && s.height == HostHeight(heightProp, offset)
    ensures s.colour == Colour(Channel(240.0, 0.0), Channel(120.0, 0.0), Channel(20.0, 0.0))
    ensures InRange(s.colour)
    ensures forall i :: 0 <= i < SIZE ==>
              s.ring.vx[i] == 0.0 && s.ring.vy[i] == 0.0 && s.ring.ax[i] == 0.0 && s.ring.ay[i] == 0.0
    // every particle sits on the circle around the canvas centre
    ensures LaidOnCircle(s.ring, s.width, s.height, trig.cos, trig.sin, trig.tau)
  {
    var h := HostHeight(heightProp, offset);
    Sketch(windowWidth, h, BuildRing(EmptyRing(), windowWidth, h, trig.cos, trig.sin, trig.tau), INITIAL)
  }

  /**
    `windowResized`: `resizeCanvas` gives the canvas its new dimensions and, since
    setup is done, immediately redraws: one `draw` frame runs on the new canvas.
    Then `buildRing` re-lays the positions on the new circle. The velocities,
    accelerations and colour are those the redraw frame left; `buildRing` itself
    carries them over untouched.
  */
  function Resize(s: Sketch, windowWidth: real, heightProp: Option<real>, offset: Option<real>,
                  d: Draws, trig: Trig): (r: Sketch)
    requires s.Valid() && d.Valid()
    requires 0.0 <= windowWidth
    requires heightProp.Some? ==> heightProp.value >= 0.0
    requires offset.Some? ==> offset.value >= 0.0
    ensures r.Valid()
    ensures r.width == windowWidth && r.height == HostHeight(heightProp, offset)
    // motion state and colour come from one frame on the resized canvas
    ensures var frame := Step(s.ring, r.width, r.height, KickIndex(d.pick), d.kickX, d.kickY);
            && r.ring.vx == frame.vx && r.ring.vy == frame.vy
            && r.ring.ax == frame.ax && r.ring.ay == frame.ay
    ensures r.colour == StepColour(s.colour, d.noiseR, d.noiseG, d.noiseB)
    ensures InRange(r.colour)
    // every particle sits on the new circle around the new canvas centre
    ensures LaidOnCircle(r.ring, r.width, r.height, trig.cos, trig.sin, trig.tau)
  {
    var h := HostHeight(heightProp, offset);
    var frame := Step(s.ring, windowWidth, h, KickIndex(d.pick), d.kickX, d.kickY);
    var ring := BuildRing(frame, windowWidth, h, trig.cos, trig.sin, trig.tau);
    Sketch(windowWidth, h, ring, StepColour(s.colour, d.noiseR, d.noiseG, d.noiseB))
  }

  /** A resize is exactly a `draw` frame on the resized canvas followed by `buildRing`. */
  lemma ResizeIsRedrawThenRebuild(s: Sketch, windowWidth: real, heightProp: Option<real>, offset: Option<real>,
                                  d: Draws, trig: Trig)
    requires s.Valid() && d.Valid()
    requires 0.0 <= windowWidth
    requires heightProp.Some? ==> heightProp.value >= 0.0
    requires offset.Some? ==> offset.value >= 0.0
    ensures var h := HostHeight(heightProp, offset);
            var redrawn := Draw(Sketch(windowWidth, h, s.ring, s.colour), d);
            Resize(s, windowWidth, heightProp, offset, d, trig)
              == redrawn.(ring := BuildRing(redrawn.ring, windowWidth, h, trig.cos, trig.sin, trig.tau))
  {
  }

  /**
    `draw`: one animation frame. The canvas is untouched, every position ends on
    the canvas and every colour channel ends in its box.
  */
  function Draw(s: Sketch, d: Draws): (r: Sketch)
    requires s.Valid() && d.Valid()
    ensures r.Valid()
    ensures r.width == s.width && r.height == s.height
    ensures forall i :: 0 <= i < SIZE ==>
              0.0 <= r.ring.px[i] <= s.width && 0.0 <= r.ring.py[i] <= s.height
    ensures InRange(r.colour)
    ensures var rn := KickIndex(d.pick);
            && r.ring.ax[rn] == (s.width / 2.0 - s.ring.px[rn]) * 0.001 + d.kickX * 5.0
            && r.ring.ay[rn] == (s.height / 2.0 - s.ring.py[rn]) * 0.001 + d.kickY * 5.0
  {
    var rn := KickIndex(d.pick);
    Sketch(s.width, s.height,
           Step(s.ring, s.width, s.height, rn, d.kickX, d.kickY),
           StepColour(s.colour, d.noiseR, d.noiseG, d.noiseB))
  }

  /** Every event the host can deliver: random picks in range, non-negative dimensions. */
  predicate WellFormed(events: seq<Event>, heightProp: Option<real>) {
    && (heightProp.Some? ==> heightProp.value >= 0.0)
    && forall k :: 0 <= k < |events| ==>
         && events[k].draws.Valid()
         && (events[k].WindowResized? ==>
               0.0 <= events[k].windowWidth && (events[k].offset.Some? ==> events[k].offset.value >= 0.0))
  }

  /**
    Feeds the events to the sketch in order. The sketch stays valid throughout: the
    canvas is never negative and each of the six state arrays keeps SIZE entries.
  */
  function Run(s: Sketch, events: seq<Event>, heightProp: Option<real>, trig: Trig): (r: Sketch)
    requires s.Valid()
    requires WellFormed(events, heightProp)
    ensures r.Valid()
    decreases |events|
  {
    if |events| == 0 then s
    else
      WellFormedTail(events, heightProp);
      Run(Apply(s, events[0], heightProp, trig), events[1..], heightProp, trig)
  }

  /** One host event: `draw` for a frame, `windowResized` for a resize. */
  function Apply(s: Sketch, e: Event, heightProp: Option<real>, trig: Trig): (r: Sketch)
    requires s.Valid()
    requires heightProp.Some? ==> heightProp.value >= 0.0
    requires e.draws.Valid()
    requires e.WindowResized? ==> 0.0 <= e.windowWidth && (e.offset.Some? ==> e.offset.value >= 0.0)
    ensures r.Valid()
    ensures InRange(s.colour) ==> InRange(r.colour)
    ensures e.Frame? ==> forall i :: 0 <= i < SIZE ==>
              0.0 <= r.ring.px[i] <= r.width && 0.0 <= r.ring.py[i] <= r.height
  {
    match e
    case Frame(d) => Draw(s, d)
    case WindowResized(w, offset, d) => Resize(s, w, heightProp, offset, d, trig)
  }

  lemma WellFormedTail(events: seq<Event>, heightProp: Option<real>)
    requires |events| > 0 && WellFormed(events, heightProp)
    ensures WellFormed(events[1..], heightProp)
    ensures events[0].draws.Valid()
    ensures events[0].WindowResized? ==>
              0.0 <= events[0].windowWidth && (events[0].offset.Some? ==> events[0].offset.value >= 0.0)
  {
  }

  lemma WellFormedPrefix(events: seq<Event>, e: Event, heightProp: Option<real>)
    requires WellFormed(events + [e], heightProp)
    ensures WellFormed(events, heightProp)
    ensures WellFormed([e], heightProp)
  {
    assert forall k :: 0 <= k < |events| ==> (events + [e])[k] == events[k];
    assert (events + [e])[|events|] == e;
  }

  /** Over any sequence of frames and resizes, the colour never leaves its box. */
  lemma {:induction false} RunKeepsColourInRange(s: Sketch, events: seq<Event>, heightProp: Option<real>, trig: Trig)
    requires s.Valid() && InRange(s.colour)
    requires WellFormed(events, heightProp)
    ensures InRange(Run(s, events, heightProp, trig).colour)
    decreases |events|
  {
    if |events| > 0 {
      WellFormedTail(events, heightProp);
      RunKeepsColourInRange(Apply(s, events[0], heightProp, trig), events[1..], heightProp, trig);
    }
  }

  /** Running a sequence and then one more event is running the extended sequence. */
  lemma {:induction false} RunAppend(s: Sketch, events: seq<Event>, e: Event, heightProp: Option<real>, trig: Trig)
    requires s.Valid()
    requires WellFormed(events + [e], heightProp)
    ensures WellFormed(events, heightProp) && WellFormed([e], heightProp)
    ensures Run(s, events + [e], heightProp, trig) == Run(Run(s, events, heightProp, trig), [e], heightProp, trig)
    decreases |events|
  {
    WellFormedPrefix(events, e, heightProp);
    if |events| > 0 {
      WellFormedTail(events, heightProp);
      assert (events + [e])[0] == events[0];
      assert (events + [e])[1..] == events[1..] + [e];
      RunAppend(Apply(s, events[0], heightProp, trig), events[1..], e, heightProp, trig);
    } else {
      assert events + [e] == [e];
    }
  }

  /**
    A run that ends with a frame leaves every particle on the canvas, whatever
    resizes came before it.
  */
  lemma RunEndingInFrameIsOnCanvas(s: Sketch, events: seq<Event>, d: Draws, heightProp: Option<real>, trig: Trig)
    requires s.Valid()
    requires WellFormed(events + [Frame(d)], heightProp)
    ensures var r := Run(s, events + [Frame(d)], heightProp, trig);
            forall i :: 0 <= i < SIZE ==>
              0.0 <= r.ring.px[i] <= r.width && 0.0 <= r.ring.py[i] <= r.height
  {
    RunAppend(s, events, Frame(d), heightProp, trig);
    var before := Run(s, events, heightProp, trig);
    assert Run(before, [Frame(d)], heightProp, trig) == Draw(before, d) by {
      assert [Frame(d)][1..] == [];
    }
  }
}
