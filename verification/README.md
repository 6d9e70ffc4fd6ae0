# Hero background ring and page metadata, in Dafny

This project models the two pieces of logic in a Next.js / Sanity portfolio site that are more
than declarative rendering.

- **The hero background animation** (`components/P5HeroBg.tsx`). A p5 sketch keeps a closed ring
  of 1024 particles joined by springs. Every frame it does four things:
  - It computes each particle's spring-and-sympathy acceleration from its two cyclic neighbours.
  - It replaces the acceleration of one randomly picked particle with a weak pull toward the canvas
    centre plus Gaussian noise (the "kick").
  - It integrates with damping and clamps every position to the canvas.
  - It moves the stroke colour one step of a random walk. The walk is kept inside an orange RGB box
    by elastic reflection and clamping.

  On setup and on every window resize, `buildRing` lays the positions out on a circle again.
- **`generatePageMetadata`** (`sanity/lib/metadata.ts`). This builds the SEO record of a CMS page:
  - the title and description;
  - one OpenGraph image, with its URL and its size defaults;
  - the robots directive, which has a noindex switch;
  - the absolute canonical URL. The slug `index` gets the site root.

Everything is pure. Numbers are exact `real`s, not IEEE doubles. The host's random numbers for a
frame arrive as a `Draws` record: the uniform pick, then five Gaussian draws in the order the
sketch asks for them. The host's cosine, sine and `TAU` are parameters. The CMS image-URL builder
`urlFor(image).quality(100).url()` is also a parameter, and so is the site URL (`SiteUrl` models
how it is chosen).

Modules, one per concern:

| file | module | models |
|---|---|---|
| `wrappers.dfy` | `Wrappers` | `Option`, standing for JavaScript's missing values |
| `p5_math.dfy` | `P5Math` | p5's `constrain` and JavaScript's `Math.min`/`Math.max` |
| `ring.dfy` | `Ring` | ring state, cyclic neighbours, spring pass, kick, damped integration and clamping |
| `colour_walk.dfy` | `ColourWalk` | the bounded RGB walk with reflection |
| `ring_geometry.dfy` | `RingGeometry` | `buildRing`: host height, radius and circle layout |
| `hero_sketch.dfy` | `HeroSketch` | `setup`, `windowResized` (with the frame its canvas resize redraws) and `draw` as state transformers, and runs of host events |
| `page_metadata.dfy` | `PageMetadata` | `generatePageMetadata` |

## Model

| member | source | states |
|---|---|---|
| `P5Math.Constrain` | components/P5HeroBg.tsx:137-138 | A clamped value lies in [low, high]. It equals the input when the input is already inside, and the nearer bound otherwise. |
| `P5Math.Min` | components/P5HeroBg.tsx:57 | `Math.min` returns one of its two arguments, and it is no larger than either. |
| `P5Math.Max` | components/P5HeroBg.tsx:57 | `Math.max` returns one of its two arguments, and it is no smaller than either. |
| `Ring.Spring` | components/P5HeroBg.tsx:102-120 | The cyclic spring formula matches the source's three forms. An interior index uses i-1 and i+1. Index 0 uses 1023 and 1. Index 1023 uses 1022 and 0. TENSION is 0.5 and SYMPATHY is 0.25. |
| `Ring.Prev` | components/P5HeroBg.tsx:109-120 | The previous index around the ring is a valid index, and stepping forward from it returns to i, so 0's predecessor is 1023. |
| `Ring.KickAccel` | components/P5HeroBg.tsx:126-127 | Without noise, the kick acceleration points toward the canvas centre: positive exactly below it, negative exactly above it. At the centre, only the noise times 5 remains. |
| `Ring.DampedVelocity` | components/P5HeroBg.tsx:131-134 | With no acceleration, a moving particle keeps its direction and strictly slows. A velocity that the acceleration cancels stays 0. |
| `Ring.Next` | components/P5HeroBg.tsx:109-120 | The next index around the ring is a valid index, and `Prev` undoes it, so 1023's successor is 0 and 0's predecessor is 1023. |
| `Ring.SpringPass` | components/P5HeroBg.tsx:101-120 | The acceleration pass as written (an interior loop over 1..1022, then index 0 and index 1023 spelled out) gives every index the cyclic formula with neighbours (i-1) mod 1024 and (i+1) mod 1024. So it equals `Ring.Springs`, the cyclic definition that a frame uses. The result has exactly 1024 entries. |
| `Ring.Integrate` | components/P5HeroBg.tsx:130-139 | Each velocity becomes (v + a) * 0.999, with no dependence on the clamp. Each position moves by the new velocity and ends in [0, bound]. A position whose free motion stays inside is not altered; one that overshoots stops at the bound it crossed. |
| `Ring.Step` | components/P5HeroBg.tsx:100-139 | After the particle part of a frame, all six arrays keep 1024 entries. Particle rn's acceleration on both axes is (centre - p) * 0.001 + noise * 5, and every other particle keeps its spring acceleration. Velocities are accumulation plus damping only. Every position lies in [0, width] x [0, height]. Each position is its free motion clamped to the canvas, so an overshooting particle stops at the edge it crossed. |
| `Ring.KickIsLocal` | components/P5HeroBg.tsx:122-139 | Two frames from the same ring with the same noise, kicking different particles, agree on the positions, velocities and accelerations of every particle that neither frame kicked. |
| `ColourWalk.StepChannel` | components/P5HeroBg.tsx:142-156 | A channel ends inside its bounds from any start. Its velocity is negated exactly when the moved value lies outside the bounds and is still moving outward. So: below the minimum, the velocity ends >= 0; above the maximum, it ends <= 0; inside, value and velocity are untouched. |
| `ColourWalk.StepColour` | components/P5HeroBg.tsx:36-38 | After a frame, r lies in [220, 255], g in [90, 170] and b in [0, 60]. |
| `RingGeometry.HostHeight` | components/P5HeroBg.tsx:52-55 | The `height` prop wins whenever it is given, 0 included. Otherwise a non-zero measured host height is used, and otherwise 400. The result is non-negative when the inputs are. |
| `RingGeometry.Radius` | components/P5HeroBg.tsx:57 | The ring radius is at least 24 and at least 0.98 * min(hw, hh). It is one of the two. |
| `RingGeometry.Angle` | components/P5HeroBg.tsx:59 | Particle 0 is at angle 0. For a positive full turn TAU, every angle lies in [0, TAU), so the last particle stops short of the first. |
| `RingGeometry.AnglesEvenlySpaced` | components/P5HeroBg.tsx:58-59 | Consecutive particles are exactly TAU / 1024 apart. |
| `RingGeometry.BuildRing` | components/P5HeroBg.tsx:50-63 | Rebuilding writes only positions: `buildRing` carries velocities and accelerations over unchanged. Particle i sits at the centre offset by (cos, sin)(TAU * i / 1024) times the radius, and all lengths stay 1024. |
| `RingGeometry.OnCircle` | components/P5HeroBg.tsx:57-62 | Wherever cos^2 + sin^2 = 1, the rebuilt particle lies exactly on the circle of that radius around (width/2, height/2). |
| `RingGeometry.Canvas800x400` | components/P5HeroBg.tsx:57-61 | On an 800 x 400 canvas the radius is 196 and particle 0 is at (596, 200). |
| `HeroSketch.KickIndex` | components/P5HeroBg.tsx:123 | floor(random(1024)) is an index in [0, 1024). It is the integer part of the pick. |
| `HeroSketch.EmptyRing` | components/P5HeroBg.tsx:43-48 | The state arrays before setup hold 1024 entries each, and velocities and accelerations are zero-filled. |
| `HeroSketch.Setup` | components/P5HeroBg.tsx:65-84 | After setup the canvas is the window width by the host height. The colour is (240, 120, 20) at rest, which is in range. Every velocity and acceleration is 0, and every array has 1024 entries. Every particle sits on the circle of radius `Radius(width/2, height/2)` around the canvas centre, at angle TAU * i / 1024. |
| `HeroSketch.Resize` | components/P5HeroBg.tsx:86-94 | A resize takes the new canvas size. `resizeCanvas` then redraws one frame, so the velocities, accelerations and colour are those of one frame on the resized canvas, and the colour stays in range. `buildRing` then puts every particle on the new circle around the new centre. All lengths stay 1024. |
| `HeroSketch.ResizeIsRedrawThenRebuild` | components/P5HeroBg.tsx:92-93 | A resize equals a `draw` frame on the resized canvas followed by `buildRing` on the new dimensions. |
| `HeroSketch.Draw` | components/P5HeroBg.tsx:96-157 | A frame leaves the canvas size alone. It puts every particle on the canvas and every colour channel in its box, and it applies the kick to particle floor(pick). |
| `HeroSketch.Run` | components/P5HeroBg.tsx:43-48 | Any sequence of frames and resizes leaves a valid sketch. The canvas is non-negative, and each of px, py, vx, vy, ax and ay keeps exactly 1024 entries. |
| `HeroSketch.Apply` | components/P5HeroBg.tsx:86-166 | One host event: a frame runs `draw`, a resize runs `windowResized`. Either way the sketch stays valid and a colour in range stays in range. After a frame, every particle lies on the canvas. |
| `HeroSketch.RunKeepsColourInRange` | components/P5HeroBg.tsx:36-40 | Starting from a colour in its box, any sequence of frames and resizes leaves every channel in its box. |
| `HeroSketch.RunAppend` | components/P5HeroBg.tsx:96-166 | The model's event fold `Run` splits at its last event: running a sequence and then one more event gives the same sketch as running the extended sequence. It is the step behind `RunEndingInFrameIsOnCanvas`, not a property the source states. |
| `HeroSketch.RunEndingInFrameIsOnCanvas` | components/P5HeroBg.tsx:130-139 | If a run's last event is a frame, every particle lies on the current canvas, whatever resizes came before. |
| `PageMetadata.SiteUrl` | sanity/lib/metadata.ts:5-6 | The site URL is the environment value when that is set and non-empty, and the built-in address otherwise. It is never empty. |
| `PageMetadata.NumberOr` | sanity/lib/metadata.ts:19-20 | The or-default form gives x when x is present and non-zero. A missing value or 0 gives the default, so with a non-zero default the result is never 0. |
| `PageMetadata.Noindexed` | sanity/lib/metadata.ts:22 | `Boolean(page?.noindex)` is false for a missing page and for a missing or false flag. It is true only for an explicit `true`. |
| `PageMetadata.RobotsFor` | sanity/lib/metadata.ts:33-45 | noindex gives exactly {index: false, follow: false} with no Googlebot entry. Otherwise index and follow are true, and Googlebot's index and follow are true too. index and follow always equal the negated flag. |
| `PageMetadata.Canonical` | sanity/lib/metadata.ts:48 | The canonical URL always starts with siteUrl + "/". It is exactly that for the slug "index", and siteUrl + "/" + slug otherwise. |
| `PageMetadata.GeneratePageMetadata` | sanity/lib/metadata.ts:8-51 | Title and description are copied from the page, or absent with it. There is always exactly one OpenGraph image, with locale fr_FR and type website. The image URL is the builder's result for the page's image, or siteUrl + "/images/og-image.jpg". Width and height are the stored non-zero dimensions, else 1200 and 630. Indexing is blocked exactly when a present page has noindex true. The canonical URL follows the slug rule. |
| `PageMetadata.MissingNoindexIsIndexable` | sanity/lib/metadata.ts:22-45 | A missing page, or a missing or false noindex, gives the indexable directive: index, follow and Googlebot index/follow all true. |
| `PageMetadata.RobotsConsistent` | sanity/lib/metadata.ts:33-45 | index and follow always agree. The Googlebot entry is present exactly when indexing is allowed, and then it agrees with the general directive. |
| `PageMetadata.CanonicalRecoversSlug` | sanity/lib/metadata.ts:48 | For every slug except "index", the slug is the canonical URL with the siteUrl + "/" prefix removed. |
| `PageMetadata.CanonicalInjective` | sanity/lib/metadata.ts:48 | Two different slugs, neither of them "index", never share a canonical URL. |
| `PageMetadata.IndexSharesRootWithEmptySlug` | sanity/lib/metadata.ts:48 | The slug "index" and the empty slug both get the root canonical URL. |
| `PageMetadata.ZeroDimensionFallsBack` | sanity/lib/metadata.ts:19-20 | A stored width and height of 0 give the 1200 x 630 defaults. |

Notes on the model:

- Two heights are computed separately in the sketch: the canvas height (lines 66-71) and the height
  `buildRing` uses (lines 52-55). The same expression, evaluated in the same handler, gives both, so
  the model computes one `HostHeight` value and uses it for both.
- In the source, `px` and `py` start as unfilled arrays and `setup` fills them before any frame.
  The model starts them at 0 and lets `BuildRing` overwrite them.
- p5's `resizeCanvas` redraws the sketch as soon as setup is done, unless it is passed a third
  argument, and the sketch passes none. So `windowResized` runs a full `draw` frame on the new
  canvas before `buildRing`. That frame uses its own random numbers. This is why a
  `WindowResized` event carries a `Draws` record, and why a resize changes velocities,
  accelerations and colour even though `buildRing` itself leaves them alone.
- Positions are on the canvas after every frame, but not necessarily after a resize. The radius
  never drops below 24, so on a canvas under 48 pixels in either dimension the freshly laid-out
  ring extends past the edges until the next frame clamps it. `RunEndingInFrameIsOnCanvas` states
  the guarantee that does hold.

## Left out

- Drawing calls: `createCanvas`, `noFill`, `strokeWeight`, `pixelDensity`, `background`, `stroke`
  with alpha 180, and `beginShape`/`vertex`/`endShape`. They are rendering side effects; the model
  only keeps the canvas size that `createCanvas` establishes. `resizeCanvas` is modelled for its
  state effects: the new size and the frame it redraws.
- The frame-rate choice (24 with reduced motion, otherwise 60): a host media query feeding a
  two-way constant selection, with no state involved.
- The asynchronous `import("p5")`, the `cancelled` flag and the `remove()` teardown (lines 18-24 and
  169-179). These are React effect lifecycle and library loading.
- A change of the `height` prop: the effect depends on it and builds a fresh sketch. A run
  therefore uses one fixed prop value.
- `Math.cos`, `Math.sin`, `s.TAU`: these are opaque parameters. The circle property is stated under
  the Pythagorean identity as an explicit hypothesis.
- `s.random` and `s.randomGaussian` are explicit inputs, not a modelled generator. Since every
  operation is a pure function, equal inputs give equal results, so replaying the same draws
  reproduces the same ring.
- IEEE-754 rounding, NaN and infinities: numbers are exact reals. In `|| 1200` only a missing value
  or 0 count as falsy; NaN is not modelled.
- `HeroSketch.KickIndex`: requires the pick in [0, 1024). p5's `random(SIZE)` computes a uniform
  value in [0, 1) times 1024. Multiplying by a power of two is exact in binary floating point, so
  the product always stays below 1024 and the requirement holds for every pick the host produces.
- `urlFor(...).quality(100).url()` is an external image-URL builder. It is a function parameter.
- `process.env.NEXT_PUBLIC_SITE_URL` is an input to `SiteUrl`. `GeneratePageMetadata` takes the
  chosen site URL as a parameter.
- The Googlebot fields `max-snippet`, `max-image-preview` and `max-video-preview` are carried in the
  record (-1, "large", -1). No property is stated about them beyond their presence.
- `components/blocks/grid/grid-card.tsx`, `components/blocks/split/split-cards-item.tsx`,
  `app/layout.tsx` and `app/not-found.tsx`: these are JSX rendering and static metadata objects with
  no logic beyond `??` defaults.
