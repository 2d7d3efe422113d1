# infinity-grid in Dafny

infinity-grid is a browser demo that shows an endless plane of white cards.
It builds one rectangular tile of cards, a template sized from the window
with four spare columns and rows. It then places copies of that tile on a
lattice whose steps are the tile's width plus one gap and its height plus
one gap. Dragging or turning the wheel sets a scroll velocity. Every frame
damps that velocity, snaps tiny components to zero, and moves the camera and
the accumulated scroll offset against it. A planner then looks at every
registered tile. When the scroll offset has moved past one of the tile's
edges, the planner registers the neighbouring tile on that side, unless a
tile with that offset is already registered.

This project models that core on integers (positions) and reals
(velocities, edges) in four modules:

- `Layout` (`layout.dfy`) holds the constants, the row-major card
  template, the tile extent and the initial camera position. It also holds
  the arithmetic behind seamless tiling: cards of different tiles on the
  lattice never overlap.
- `Planner` (`planner.dfy`) holds the coverage planner as pure functions.
  `Try` is one neighbour request, `Visit` is one tile's four requests in
  the order left, right, top, bottom, and `Sweep` is one pass over a
  snapshot of the registry. The module also holds the lemmas about them:
  completeness, only neighbours appended, no duplicates, lattice
  preservation, settling, and idempotence of a pass repeated over the same
  snapshot, plus a worked scrolling scenario.
- `Motion` (`motion.dfy`) holds the velocity damping with its rest snap and
  the lemmas about repeated frames.
- `Scene` (`scene.dfy`) holds the class `InfinityGrid` with the mutable
  state of the program: the cards, the tile registry, the tile extent, the
  drag flag, the velocity, the scroll offset, the camera and the last pointer
  position. Its methods update these fields in place and are proved against
  the `Planner` and `Motion` functions. The registry invariant `Valid` says
  the tile offsets are pairwise distinct and all lie on the tile lattice.
  `CreateCards`, `AddGroup`, `Tick` and `Init` preserve it. The helpers
  `VisitAll`, `VisitTile` and `RequestIfOver` inside a pass are stated
  against the planner functions instead, and `AddGroup` concludes the
  invariant from `Planner.PassKeepsRegistry`.

The planner pass iterates over the registry as it was when the pass began,
so tiles appended during a pass are not visited in that pass. Existence
lookups, however, see every tile appended so far. Array iteration in
ECMAScript behaves this way: section 23.1.3.21 of ECMA-262 (the `map`
method) fixes the length before the first callback. The vertical edge
distance subtracts the viewport *width* from the tile height, exactly as
`src/main.ts:85` does. The model follows the code here, not the obvious
intent of subtracting the viewport height.

## Model

| member | source | states |
|---|---|---|
| Layout.Cols | src/main.ts:48 | the column count is the floor of (window width − gap) / (card width + gap), plus four spare columns: that many whole pitches fit and one more does not |
| Layout.Rows | src/main.ts:49 | the same floor characterisation for rows, from the window height |
| Layout.GridWidth | src/main.ts:65 | the tile width spans from the left edge of the first card column to the right edge of the last one, and the width plus one gap is a whole number of card pitches |
| Layout.GridHeight | src/main.ts:66 | the same for the tile height over the card rows |
| Layout.CameraStartX | src/main.ts:67 | the initial camera x lies midway between the template's left and right edges |
| Layout.CameraStartY | src/main.ts:68 | the initial camera y lies midway between the template's bottom and top edges |
| Layout.CardsUpToAt | src/main.ts:51-61 | the k-th card pushed by the nested loops is the card in row k div cols and column k mod cols |
| Layout.TemplateRowMajor | src/main.ts:51-62 | the template holds rows × cols cards, and the card at row-major index row·cols + col is centred at col·(card width + gap) + gap/2, row·(card height + gap) + gap/2 |
| Layout.AllOnLatticeMembers | src/main.ts:96-97 | the registry's lattice predicate holds exactly when every tile offset is a multiple of the two tile steps |
| Layout.CardsNeverOverlap | src/main.ts:59-60 | for tiles on the lattice whose step is the tile extent plus one gap, two distinct cards are at least one card pitch apart on some axis, so cards of copies of the tile never overlap |
| Planner.TilesAbut | src/main.ts:59-66 | copies of the tile abut: the first card column of a tile's right neighbour lies exactly one card pitch after the tile's last column, in the same row, and the first card row of its top neighbour exactly one pitch after its last row, in the same column |
| Planner.EdgeTests | src/main.ts:84-94 | with the camera at its start plus the scroll offset (so it stands after `Scene.InfinityGrid.Init` from the initial state, and `Scene.InfinityGrid.Tick` keeps it), a tile asks for its right neighbour exactly when the right edge of the view lies beyond the tile's right edge, and likewise left, top and bottom; the top and bottom tests measure the view by half its width, as written |
| Planner.NeighbourRoundTrip | src/main.ts:96-150 | the neighbour in a direction is one tile step away on that axis, and the neighbour in the opposite direction from it is the tile itself |
| Planner.TryMembers | src/main.ts:95-111 | one guarded append: afterwards a tile is registered exactly when it was before or it is the neighbour whose edge test fired; the old tiles keep their places; at most one tile is added; no offset is doubled |
| Planner.FilterX | src/main.ts:98-100 | a tile is kept exactly when it is registered and its x equals the requested x |
| Planner.FilterY | src/main.ts:133-135 | a tile is kept exactly when it is registered and its y equals the requested y |
| Planner.ExistsInColumn | src/main.ts:98-103 | filtering by x and then testing y is true exactly when a tile with both coordinates is registered |
| Planner.ExistsInRow | src/main.ts:133-138 | filtering by y and then testing x is true exactly when a tile with both coordinates is registered |
| Planner.TryAll | src/main.ts:95-164 | a run of neighbour requests never shrinks the registry and adds at most one tile per request |
| Planner.Visit | src/main.ts:87-164 | visiting one tile adds at most four tiles |
| Planner.TryAllPrefix | src/main.ts:108 | requests only append: the registered tiles stay in place, in order |
| Planner.TryAllNoDup | src/main.ts:101-108 | a request never registers an offset twice |
| Planner.TryAllMembers | src/main.ts:91-108 | after a run of requests, a tile is registered exactly when it was before or it is the neighbour on a requested side whose edge was passed |
| Planner.TryAllSettled | src/main.ts:104 | if every passed side's neighbour is already registered, the requests change nothing |
| Planner.VisitMembers | src/main.ts:87-164 | after visiting a tile, every registered offset was there before or is a requested neighbour; every requested neighbour is registered; if all requested neighbours were already there, the registry is unchanged |
| Planner.Sweep | src/main.ts:86-165 | a pass over a snapshot of n tiles adds at most 4n tiles |
| Planner.SweepPrefix | src/main.ts:86-165 | a pass only appends: the tiles registered before it stay in place, in order |
| Planner.SweepNext | src/main.ts:86 | the i-th tile visited is the i-th tile of the snapshot, and visiting it extends the pass over the first i tiles |
| Planner.SweepComplete | src/main.ts:91-164 | after a pass, for every snapshot tile, the neighbour on every side whose edge the scroll offset passed is registered |
| Planner.SweepOnlyNeighbours | src/main.ts:96-160 | every tile a pass appends is a requested neighbour of a snapshot tile, one tile step away along one axis with the other coordinate unchanged |
| Planner.RequestIsAdjacent | src/main.ts:96-150 | a requested neighbour differs from its tile by one tile step along one axis and not at all along the other |
| Planner.NoDupDistinct | src/main.ts:101-104 | in a duplicate-free registry, tiles at different indices have different offsets |
| Planner.SweepNoDup | src/main.ts:101-108 | a pass keeps the registry free of duplicate offsets |
| Planner.RequestsOnLattice | src/main.ts:96-150 | the neighbours of a tile on the lattice are on the lattice |
| Planner.SweepOnLattice | src/main.ts:96-150 | a pass from a registry and snapshot on the lattice leaves every tile on the lattice |
| Planner.PassKeepsRegistry | src/main.ts:86-165 | a full pass keeps the registry invariant: no duplicates and every offset on the lattice |
| Planner.SweepSettled | src/main.ts:104 | when every requested neighbour of every snapshot tile is already registered, a pass changes nothing |
| Planner.SweepQuiet | src/main.ts:91-95 | when the scroll offset is inside every snapshot tile's edges, a pass changes nothing |
| Planner.SweepIdempotent | src/main.ts:86-165 | repeating a pass with the same snapshot and offset appends nothing more |
| Planner.ScrollRightFirstPass | src/main.ts:112-128 | scrolled 3100 units right over a 7 × 5 template, the first pass registers only the right neighbour of the origin tile |
| Planner.ScrollRightSecondPass | src/main.ts:112-128 | the next pass, over the grown registry, registers one more tile further right: the planner advances one tile per pass |
| Planner.ScrollRightOriginSettled | src/main.ts:112-121 | in that scenario the origin tile's right neighbour already exists, so visiting the origin adds nothing |
| Planner.ScrollRightNewTileGrows | src/main.ts:112-128 | in that scenario, visiting the new tile appends its own right neighbour |
| Motion.Damp | src/main.ts:214-217 | one frame's damping leaves each component either zero or at least the rest threshold in magnitude, never larger than 0.9 of the old magnitude, equal to 0.9 × the old value when non-zero, and zero when it was zero; when 0.9 × the old value is at least the threshold in magnitude, it is kept |
| Motion.DampNShape | src/main.ts:213-225 | after n frames a component is either zero or its start value times 0.9ⁿ |
| Motion.DampNMoving | src/main.ts:213-225 | while the start value times 0.9ᵏ stays at or above the threshold in magnitude for every frame k up to n, the component after n frames is exactly the start value times 0.9ⁿ |
| Motion.DampNRestIff | src/main.ts:213-225 | a non-zero component is zero after n frames exactly when the start value times 0.9ᵏ fell below the threshold in magnitude at some frame k up to n |
| Motion.GeometricPow | src/main.ts:214-215 | damping n times without the snap multiplies by 0.9ⁿ |
| Motion.RestIsAbsorbing | src/main.ts:216-217 | once a component has snapped to zero it stays zero |
| Motion.RestReached | src/main.ts:214-217 | once 0.9ⁿ times the start magnitude is below the threshold, the component is zero after n frames |
| Motion.RestWithin51Frames | src/main.ts:214-217 | a component of magnitude at most 10 is exactly zero after 51 frames and ever after |
| Scene.InfinityGrid.constructor | src/main.ts:25-36 | the initial state: no cards, no tiles, zero velocity, zero offset, no drag |
| Scene.InfinityGrid.CreateCards | src/main.ts:47-78 | builds the row-major template for the window, sets the tile extent and centres the camera on it, registers one tile at the origin, and keeps the registry invariant |
| Scene.InfinityGrid.AddGroup | src/main.ts:80-166 | the new registry is one planner pass over the old one, with edge distances from the current extent, view width and scroll offset; the registry invariant is kept; the registry grows by at most four tiles per tile |
| Scene.InfinityGrid.VisitAll | src/main.ts:86-165 | the loop over the tiles registered at the start of the pass computes the pass |
| Scene.InfinityGrid.VisitTile | src/main.ts:87-164 | the four edge tests and requests for one tile compute that tile's visit |
| Scene.InfinityGrid.RequestIfOver | src/main.ts:95-111 | a neighbour is appended exactly when its edge was passed and no registered tile has its offset |
| Scene.InfinityGrid.Tick | src/main.ts:213-222 | the velocity is damped per component; the camera and the scroll offset both move by minus the new velocity, so their difference is unchanged; the planner pass then runs; at rest nothing moves |
| Scene.InfinityGrid.Init | src/main.ts:38-45 | start-up builds the template and runs one frame from it |
| Scene.InfinityGrid.OnMouseDown | src/main.ts:175-181 | a press starts a drag and records the pointer position |
| Scene.InfinityGrid.OnMouseUp | src/main.ts:183-186 | a release ends the drag |
| Scene.InfinityGrid.OnMouseMove | src/main.ts:188-197 | while dragging, the velocity becomes the pointer displacement with y flipped and the pointer is recorded; otherwise nothing changes |
| Scene.WheelThenTick | src/main.ts:199-221 | from the contracts alone: a wheel delta of 100 on a grid at rest sets the velocity to 25; the next frame damps it to 22.5 and moves the scroll offset and the camera by −22.5 together; the frame after damps it to 20.25 |
| Scene.InfinityGrid.OnWheel | src/main.ts:199-202 | the velocity becomes a quarter of the wheel deltas |

## Left out

- Rendering, the WebGL renderer, the scene graph, meshes and materials are not modelled. A tile is its offset, and a card is its centre.
- The view width of the camera frustum comes from the field of view, a tangent, the camera's z position and the camera's aspect (`src/main.ts:81-83`). It is a parameter of `AddGroup` and `Tick` here, because trigonometry over reals is outside the model.
- `onResize` sets the renderer's pixel ratio and size, sets the camera aspect and updates the projection matrix. Of these, only the aspect feeds the view width, which is a parameter here.
- `rotateCard` only sets the cards' rotation for display. No modelled state depends on it, so `OnMouseMove` leaves it out.
- The mouse cursor style and the `console.log` calls are not modelled.
- The unused card counter `id` in `createCards` is not modelled.
- `requestAnimationFrame` is not modelled. `Tick` is one frame, and repeated frames are stated as lemmas on `DampN`.
- The camera's z position is not modelled.
- Event registration on the window is not modelled.
- Motion.Damp: velocities are exact reals, so the rounding of IEEE-754 double arithmetic is not modelled. The same holds for the scroll offset, the camera position, the edge distances hBase and vBase, and the edge comparisons in `Planner.Over`.
- Scene.InfinityGrid.constructor: `main.ts` leaves the tile extent undefined until the template is built. Here it starts at zero.
- Scene.InfinityGrid.AddGroup: the ensures does not promise that the pass covers the viewport. The pass advances at most one tile per side per tile, as `Planner.ScrollRightSecondPass` shows. Whether a large jump is covered within one frame depends on the view width, which is a parameter. Two consecutive calls at an unchanged scroll offset are not idempotent either. `Planner.SweepIdempotent` holds only for a pass repeated over the same snapshot. A second call visits the tiles the first one appended, and can append more: `Planner.ScrollRightSecondPass` appends `Pos(4760, 0)` on the second call.
- The pass appends tiles and never removes them. Off-screen tiles stay registered, as in `main.ts`.
