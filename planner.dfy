// The coverage planner: one pass over the tile registry that compares each
// tile's edges with the accumulated scroll offset and appends the missing
// neighbours. The registry is a sequence of tile offsets in insertion order.
//
// A pass visits only the tiles present when it starts (Array.prototype.map
// fixes the length before its first callback, section 23.1.3.21 of
// ECMA-262), while every existence lookup scans the whole current registry,
// tiles appended earlier in the same pass included.

module Planner {
  import opened Layout

  /** The four neighbours a tile can request. */
  datatype Dir = Left | Right | Top | Bottom

  /**
   * What one pass compares every tile against: the tile steps, the two
   * edge offsets and the accumulated scroll offset.
   */
  datatype Probe = Probe(stepX: int, stepY: int, hBase: real, vBase: real, cursorX: real, cursorY: real)

  /**
   * The probe of a pass, from the tile extent, the visible width of the
   * viewport and the accumulated scroll offset. The vertical offset
   * subtracts the viewport WIDTH from the tile height, as the program
   * does; a dimensionally consistent version would use the height. The
   * ensures clauses only unfold the body for callers; what the edge
   * distances mean is stated by EdgeTests.
   */
  function MakeProbe(gridWidth: int, gridHeight: int, viewWidth: real, cursorX: real, cursorY: real): (p: Probe)
    requires gridWidth >= 0 && gridHeight >= 0
    ensures p.stepX == Gap + gridWidth > 0 && p.stepY == Gap + gridHeight > 0
    ensures 2.0 * p.hBase + viewWidth == gridWidth as real
    ensures 2.0 * p.vBase + viewWidth == gridHeight as real
    ensures p.cursorX == cursorX && p.cursorY == cursorY
  {
    Probe(Gap + gridWidth, Gap + gridHeight,
          (gridWidth as real - viewWidth) / 2.0,
          (gridHeight as real - viewWidth) / 2.0,
          cursorX, cursorY)
  }

  /** Whether the tile at `g` asks for its neighbour in direction `d`. */
  predicate Over(g: Pos, d: Dir, p: Probe)
  {
    match d
    case Left => -p.hBase + g.x as real > p.cursorX
    case Right => p.hBase + g.x as real < p.cursorX
    case Top => p.vBase + g.y as real < p.cursorY
    case Bottom => -p.vBase + g.y as real > p.cursorY
  }

  /** Offset of the neighbour of the tile at `g` in direction `d`. */
  function Neighbour(g: Pos, d: Dir, p: Probe): Pos
  {
    match d
    case Left => Pos(g.x - p.stepX, g.y)
    case Right => Pos(g.x + p.stepX, g.y)
    case Top => Pos(g.x, g.y + p.stepY)
    case Bottom => Pos(g.x, g.y - p.stepY)
  }

  /**
   * What the edge tests mean, for a template of `cols` columns and `rows`
   * rows and a camera that started at the template's centre and moved with
   * the scroll offset: the tile at `g` asks for its right neighbour exactly
   * when the right edge of the view lies beyond the tile's right edge, and
   * likewise on the other three sides. The vertical tests measure the view
   * by half its WIDTH, as the program does.
   */
  lemma EdgeTests(cols: int, rows: int, g: Pos, viewWidth: real, cursorX: real, cursorY: real)
    requires cols > 0 && rows > 0
    ensures var p := MakeProbe(GridWidth(cols), GridHeight(rows), viewWidth, cursorX, cursorY);
      Over(g, Right, p) <==>
        (g.x + CardPos(0, cols - 1).x + CardWidth / 2) as real < CameraStartX(cols) as real + cursorX + viewWidth / 2.0
    ensures var p := MakeProbe(GridWidth(cols), GridHeight(rows), viewWidth, cursorX, cursorY);
      Over(g, Left, p) <==>
        CameraStartX(cols) as real + cursorX - viewWidth / 2.0 < (g.x + CardPos(0, 0).x - CardWidth / 2) as real
    ensures var p := MakeProbe(GridWidth(cols), GridHeight(rows), viewWidth, cursorX, cursorY);
      Over(g, Top, p) <==>
        (g.y + CardPos(rows - 1, 0).y + CardHeight / 2) as real < CameraStartY(rows) as real + cursorY + viewWidth / 2.0
    ensures var p := MakeProbe(GridWidth(cols), GridHeight(rows), viewWidth, cursorX, cursorY);
      Over(g, Bottom, p) <==>
        CameraStartY(rows) as real + cursorY - viewWidth / 2.0 < (g.y + CardPos(0, 0).y - CardHeight / 2) as real
  {
  }

  /** The direction that leads back. */
  function Opposite(d: Dir): Dir
  {
    match d
    case Left => Right
    case Right => Left
    case Top => Bottom
    case Bottom => Top
  }

  /**
   * Neighbours form a grid: the neighbour of `g` is one tile step away on
   * one axis, and stepping back the opposite way returns to `g`.
   */
  lemma NeighbourRoundTrip(g: Pos, d: Dir, p: Probe)
    ensures Adjacent(g, Neighbour(g, d, p), p)
    ensures Neighbour(Neighbour(g, d, p), Opposite(d), p) == g
  {
  }

  /**
   * Seamless tiling: the first card column of a tile's right neighbour
   * follows the tile's last card column at exactly one card pitch, in the
   * same row, and the first card row of its top neighbour follows the last
   * card row at exactly one card pitch, in the same column; across a tile
   * boundary the cards are spaced as they are inside the tile.
   */
  lemma TilesAbut(cols: int, rows: int, t: Pos, r: int, c: int, p: Probe)
    requires cols > 0 && rows > 0 && 0 <= r < rows && 0 <= c < cols
    requires p.stepX == Gap + GridWidth(cols) && p.stepY == Gap + GridHeight(rows)
    ensures WorldCard(Neighbour(t, Right, p), CardPos(r, 0)).x - WorldCard(t, CardPos(r, cols - 1)).x == PitchX
    ensures WorldCard(Neighbour(t, Right, p), CardPos(r, 0)).y == WorldCard(t, CardPos(r, cols - 1)).y
    ensures WorldCard(Neighbour(t, Top, p), CardPos(0, c)).y - WorldCard(t, CardPos(rows - 1, c)).y == PitchY
    ensures WorldCard(Neighbour(t, Top, p), CardPos(0, c)).x == WorldCard(t, CardPos(rows - 1, c)).x
  {
  }

  /** `q` is a neighbour the tile at `g` asks for. */
  predicate Requested(g: Pos, q: Pos, p: Probe)
  {
    (Over(g, Left, p) && q == Neighbour(g, Left, p)) ||
    (Over(g, Right, p) && q == Neighbour(g, Right, p)) ||
    (Over(g, Top, p) && q == Neighbour(g, Top, p)) ||
    (Over(g, Bottom, p) && q == Neighbour(g, Bottom, p))
  }

  /** `q` is one step away from `g` along one axis, the other coordinate unchanged. */
  predicate Adjacent(g: Pos, q: Pos, p: Probe)
  {
    (q.y == g.y && (q.x == g.x + p.stepX || q.x == g.x - p.stepX)) ||
    (q.x == g.x && (q.y == g.y + p.stepY || q.y == g.y - p.stepY))
  }

  /** No entry of the registry repeats an earlier one. */
  predicate NoDup(gs: seq<Pos>)
    decreases |gs|
  {
    |gs| == 0 || (gs[|gs| - 1] !in gs[..|gs| - 1] && NoDup(gs[..|gs| - 1]))
  }

  /** In a registry without repeats, entries at two different indices differ. */
  lemma {:induction false} NoDupDistinct(gs: seq<Pos>, i: int, j: int)
    requires NoDup(gs) && 0 <= i < j < |gs|
    ensures gs[i] != gs[j]
  {
    var front := gs[..|gs| - 1];
    assert front[i] == gs[i];
    if j < |gs| - 1 {
      assert front[j] == gs[j];
      NoDupDistinct(front, i, j);
    }
  }

  /** The tiles with horizontal offset `x`, in registry order. */
  function FilterX(gs: seq<Pos>, x: int): (r: seq<Pos>)
    ensures forall h :: h in r <==> h in gs && h.x == x
  {
    if |gs| == 0 then [] else (if gs[0].x == x then [gs[0]] else []) + FilterX(gs[1..], x)
  }

  /** The tiles with vertical offset `y`, in registry order. */
  function FilterY(gs: seq<Pos>, y: int): (r: seq<Pos>)
    ensures forall h :: h in r <==> h in gs && h.y == y
  {
    if |gs| == 0 then [] else (if gs[0].y == y then [gs[0]] else []) + FilterY(gs[1..], y)
  }

  /** The lookup of a left or right neighbour: same x first, then some with the same y. */
  function ExistsInColumn(gs: seq<Pos>, x: int, y: int): (b: bool)
    ensures b <==> Pos(x, y) in gs
  {
    var sameX := FilterX(gs, x);
    exists h :: h in sameX && h.y == y
  }

  /** The lookup of a top or bottom neighbour: same y first, then some with the same x. */
  function ExistsInRow(gs: seq<Pos>, x: int, y: int): (b: bool)
    ensures b <==> Pos(x, y) in gs
  {
    var sameY := FilterY(gs, y);
    exists h :: h in sameY && h.x == x
  }

  /**
   * One of the four guarded appends made for the tile at `g`: when `g` asks
   * for its neighbour in direction `d` and no registered tile has that
   * offset, the neighbour is appended.
   */
  function Try(gs: seq<Pos>, g: Pos, d: Dir, p: Probe): seq<Pos>
  {
    if Over(g, d, p) && Neighbour(g, d, p) !in gs then gs + [Neighbour(g, d, p)] else gs
  }

  /**
   * One guarded append: the registry afterwards holds what it held before
   * plus, when the edge test fires, the neighbour; the old tiles keep
   * their places, at most one tile is added and no offset is doubled.
   */
  lemma TryMembers(gs: seq<Pos>, g: Pos, d: Dir, p: Probe)
    ensures forall q :: q in Try(gs, g, d, p) <==> q in gs || (Over(g, d, p) && q == Neighbour(g, d, p))
    ensures Try(gs, g, d, p)[..|gs|] == gs && |Try(gs, g, d, p)| <= |gs| + 1
    ensures NoDup(gs) ==> NoDup(Try(gs, g, d, p))
  {
    var r := Try(gs, g, d, p);
    if r != gs {
      assert r[..|gs|] == gs;
    }
  }

  /** The order in which a tile's four neighbours are checked. */
  const Order: seq<Dir> := [Left, Right, Top, Bottom]

  /** The guarded appends for the directions `ds`, in order. */
  function TryAll(gs: seq<Pos>, g: Pos, ds: seq<Dir>, p: Probe): (r: seq<Pos>)
    // at most one tile per direction
    ensures |gs| <= |r| <= |gs| + |ds|
    decreases |ds|
  {
    if |ds| == 0 then gs else TryAll(Try(gs, g, ds[0], p), g, ds[1..], p)
  }

  /** Everything the pass does for the tile at `g`: left, right, top, bottom, in that order. */
  function Visit(gs: seq<Pos>, g: Pos, p: Probe): (r: seq<Pos>)
    // at most one tile per direction
    ensures |gs| <= |r| <= |gs| + 4
  {
    TryAll(gs, g, Order, p)
  }

  /** The guarded appends only ever append: the registry before them is a prefix of the one after. */
  lemma {:induction false} TryAllPrefix(gs: seq<Pos>, g: Pos, ds: seq<Dir>, p: Probe)
    ensures TryAll(gs, g, ds, p)[..|gs|] == gs
    decreases |ds|
  {
    if |ds| > 0 {
      var a := Try(gs, g, ds[0], p);
      var r := TryAll(a, g, ds[1..], p);
      TryAllPrefix(a, g, ds[1..], p);
      assert a[..|gs|] == gs;
      assert r[..|gs|] == r[..|a|][..|gs|];
    }
  }

  /** The guarded appends never register an offset twice. */
  lemma {:induction false} TryAllNoDup(gs: seq<Pos>, g: Pos, ds: seq<Dir>, p: Probe)
    requires NoDup(gs)
    ensures NoDup(TryAll(gs, g, ds, p))
    decreases |ds|
  {
    if |ds| > 0 {
      var a := Try(gs, g, ds[0], p);
      if a != gs {
        assert a[..|a| - 1] == gs;
      }
      TryAllNoDup(a, g, ds[1..], p);
    }
  }

  /** A guarded append adds the neighbour exactly when it is requested in that direction and missing. */
  lemma {:induction false} TryAllMembers(gs: seq<Pos>, g: Pos, ds: seq<Dir>, p: Probe)
    ensures forall q :: q in TryAll(gs, g, ds, p) <==>
      q in gs || exists d :: d in ds && Over(g, d, p) && q == Neighbour(g, d, p)
    decreases |ds|
  {
    if |ds| > 0 {
      var a := Try(gs, g, ds[0], p);
      TryAllMembers(a, g, ds[1..], p);
      assert forall d :: d in ds <==> d == ds[0] || d in ds[1..];
      assert forall q :: q in a <==> q in gs || (Over(g, ds[0], p) && q == Neighbour(g, ds[0], p));
    }
  }

  /** When every requested neighbour is already present, the guarded appends add nothing. */
  lemma {:induction false} TryAllSettled(gs: seq<Pos>, g: Pos, ds: seq<Dir>, p: Probe)
    requires forall d :: d in ds && Over(g, d, p) ==> Neighbour(g, d, p) in gs
    ensures TryAll(gs, g, ds, p) == gs
    decreases |ds|
  {
    if |ds| > 0 {
      assert Try(gs, g, ds[0], p) == gs;
      TryAllSettled(gs, g, ds[1..], p);
    }
  }

  /** What a visit of the tile at `g` adds: exactly the requested neighbours that were missing. */
  lemma VisitMembers(gs: seq<Pos>, g: Pos, p: Probe)
    // every tile present afterwards was there before or is a requested neighbour of g
    ensures forall q :: q in Visit(gs, g, p) ==> q in gs || Requested(g, q, p)
    // every requested neighbour of g is present afterwards
    ensures forall q :: Requested(g, q, p) ==> q in Visit(gs, g, p)
    // nothing is appended when every requested neighbour is already present
    ensures (forall q :: Requested(g, q, p) ==> q in gs) ==> Visit(gs, g, p) == gs
  {
    TryAllMembers(gs, g, Order, p);
    forall d: Dir ensures d in Order {
      match d
      case Left => assert Order[0] == d;
      case Right => assert Order[1] == d;
      case Top => assert Order[2] == d;
      case Bottom => assert Order[3] == d;
    }
    if forall q :: Requested(g, q, p) ==> q in gs {
      forall d | Over(g, d, p) ensures Neighbour(g, d, p) in gs {
        assert Requested(g, Neighbour(g, d, p), p);
      }
      TryAllSettled(gs, g, Order, p);
    }
  }

  /** Visit is the four guarded appends in order. */
  lemma VisitUnfold(gs: seq<Pos>, a: seq<Pos>, b: seq<Pos>, c: seq<Pos>, r: seq<Pos>, g: Pos, p: Probe)
    requires a == Try(gs, g, Left, p) && b == Try(a, g, Right, p)
    requires c == Try(b, g, Top, p) && r == Try(c, g, Bottom, p)
    ensures Visit(gs, g, p) == r
  {
    assert Order[1..] == [Right, Top, Bottom] && Order[1..][1..] == [Top, Bottom];
    assert Order[1..][1..][1..] == [Bottom] && Order[1..][1..][1..][1..] == [];
    assert TryAll(c, g, [Bottom], p) == r;
    assert TryAll(b, g, [Top, Bottom], p) == r;
    assert TryAll(a, g, [Right, Top, Bottom], p) == r;
  }

  /** One full pass over the snapshot `todo`, starting from the registry `gs`. */
  function Sweep(gs: seq<Pos>, todo: seq<Pos>, p: Probe): (r: seq<Pos>)
    ensures |gs| <= |r| <= |gs| + 4 * |todo|
    decreases |todo|
  {
    if |todo| == 0 then gs
    else Visit(Sweep(gs, todo[..|todo| - 1], p), todo[|todo| - 1], p)
  }

  /** A pass only ever appends: the registry it starts from is a prefix of the result. */
  lemma {:induction false} SweepPrefix(gs: seq<Pos>, todo: seq<Pos>, p: Probe)
    ensures Sweep(gs, todo, p)[..|gs|] == gs
    decreases |todo|
  {
    if |todo| > 0 {
      var mid := Sweep(gs, todo[..|todo| - 1], p);
      var r := Sweep(gs, todo, p);
      SweepPrefix(gs, todo[..|todo| - 1], p);
      TryAllPrefix(mid, todo[|todo| - 1], Order, p);
      assert r[..|gs|] == r[..|mid|][..|gs|];
    }
  }

  /** Visiting the snapshot's tiles one by one: the next tile to visit is still in place, and one more visit extends the pass. */
  lemma SweepNext(gs: seq<Pos>, i: int, p: Probe)
    requires 0 <= i < |gs|
    ensures Sweep(gs, gs[..i], p)[i] == gs[i]
    ensures Sweep(gs, gs[..i + 1], p) == Visit(Sweep(gs, gs[..i], p), gs[i], p)
  {
    SweepPrefix(gs, gs[..i], p);
    assert Sweep(gs, gs[..i], p)[..|gs|][i] == gs[i];
    assert gs[..i + 1][..i] == gs[..i];
  }

  /** Every neighbour requested by a tile of the snapshot is present after the pass. */
  lemma {:induction false} SweepComplete(gs: seq<Pos>, todo: seq<Pos>, p: Probe)
    ensures forall t, q :: t in todo && Requested(t, q, p) ==> q in Sweep(gs, todo, p)
  {
    if |todo| > 0 {
      var front, last := todo[..|todo| - 1], todo[|todo| - 1];
      SweepComplete(gs, front, p);
      var mid := Sweep(gs, front, p);
      var r := Sweep(gs, todo, p);
      VisitMembers(mid, last, p);
      TryAllPrefix(mid, last, Order, p);
      forall t, q | t in todo && Requested(t, q, p) ensures q in r {
        if t != last {
          assert t in front;
          var k :| 0 <= k < |mid| && mid[k] == q;
          assert r[..|mid|][k] == q;
        }
      }
    }
  }

  /**
   * Every tile registered after the pass was registered before it or is a
   * requested neighbour of a tile of the snapshot, one step away from that
   * tile along one axis, the other coordinate unchanged.
   */
  lemma {:induction false} SweepOnlyNeighbours(gs: seq<Pos>, todo: seq<Pos>, p: Probe)
    ensures forall q :: q in Sweep(gs, todo, p) ==>
      q in gs || exists t :: t in todo && Requested(t, q, p) && Adjacent(t, q, p)
  {
    if |todo| > 0 {
      var front, last := todo[..|todo| - 1], todo[|todo| - 1];
      SweepOnlyNeighbours(gs, front, p);
      var r := Sweep(gs, todo, p);
      VisitMembers(Sweep(gs, front, p), last, p);
      forall q | q in r
        ensures q in gs || exists t :: t in todo && Requested(t, q, p) && Adjacent(t, q, p)
      {
        if Requested(last, q, p) {
          RequestIsAdjacent(last, q, p);
        } else if q !in gs {
          assert q in Sweep(gs, front, p);
          var t :| t in front && Requested(t, q, p) && Adjacent(t, q, p);
          assert t in todo;
        }
      }
    }
  }

  lemma RequestIsAdjacent(g: Pos, q: Pos, p: Probe)
    requires Requested(g, q, p)
    ensures Adjacent(g, q, p)
  {
  }

  /** A pass never introduces a duplicate offset. */
  lemma {:induction false} SweepNoDup(gs: seq<Pos>, todo: seq<Pos>, p: Probe)
    requires NoDup(gs)
    ensures NoDup(Sweep(gs, todo, p))
  {
    if |todo| > 0 {
      SweepNoDup(gs, todo[..|todo| - 1], p);
      TryAllNoDup(Sweep(gs, todo[..|todo| - 1], p), todo[|todo| - 1], Order, p);
    }
  }

  /** A step in either direction keeps an offset on the lattice. */
  lemma StepKeepsLattice(a: int, step: int)
    requires step > 0 && a % step == 0
    ensures (a + step) % step == 0 && (a - step) % step == 0
  {
    LatticeSteps(a, step);
    var i := a / step;
    assert a + step == (i + 1) * step;
    assert a - step == (i - 1) * step;
    MulIsMultiple(i + 1, step);
    MulIsMultiple(i - 1, step);
  }

  lemma MulIsMultiple(i: int, step: int)
    requires step > 0
    ensures (i * step) % step == 0
  {
    DivModUnique((i * step) / step, (i * step) % step, i, 0, step);
  }

  /** Requested neighbours of a lattice tile lie on the lattice. */
  lemma RequestsOnLattice(g: Pos, p: Probe)
    requires p.stepX > 0 && p.stepY > 0 && OnLattice(g, p.stepX, p.stepY)
    ensures forall q :: Requested(g, q, p) ==> OnLattice(q, p.stepX, p.stepY)
  {
    StepKeepsLattice(g.x, p.stepX);
    StepKeepsLattice(g.y, p.stepY);
  }

  /** A pass over lattice tiles keeps every registered offset on the lattice. */
  lemma SweepOnLattice(gs: seq<Pos>, todo: seq<Pos>, p: Probe)
    requires p.stepX > 0 && p.stepY > 0
    requires forall g :: g in gs ==> OnLattice(g, p.stepX, p.stepY)
    requires forall t :: t in todo ==> OnLattice(t, p.stepX, p.stepY)
    ensures forall q :: q in Sweep(gs, todo, p) ==> OnLattice(q, p.stepX, p.stepY)
  {
    SweepOnlyNeighbours(gs, todo, p);
    forall q | q in Sweep(gs, todo, p) && q !in gs ensures OnLattice(q, p.stepX, p.stepY) {
      var t :| t in todo && Requested(t, q, p) && Adjacent(t, q, p);
      RequestsOnLattice(t, p);
    }
  }

  /** A pass over the whole registry keeps the registry invariant: no duplicates, all on the lattice. */
  lemma PassKeepsRegistry(gs: seq<Pos>, r: seq<Pos>, p: Probe, stepX: int, stepY: int)
    requires p.stepX == stepX > 0 && p.stepY == stepY > 0 && r == Sweep(gs, gs, p)
    requires NoDup(gs) && AllOnLattice(gs, stepX, stepY)
    ensures NoDup(r) && AllOnLattice(r, stepX, stepY)
  {
    AllOnLatticeMembers(gs, p.stepX, p.stepY);
    AllOnLatticeMembers(Sweep(gs, gs, p), p.stepX, p.stepY);
    SweepNoDup(gs, gs, p);
    SweepOnLattice(gs, gs, p);
  }

  /** A pass whose every request is already registered changes nothing. */
  lemma {:induction false} SweepSettled(gs: seq<Pos>, todo: seq<Pos>, p: Probe)
    requires forall t, q :: t in todo && Requested(t, q, p) ==> q in gs
    ensures Sweep(gs, todo, p) == gs
  {
    if |todo| > 0 {
      var front := todo[..|todo| - 1];
      assert forall t :: t in front ==> t in todo;
      SweepSettled(gs, front, p);
      VisitMembers(gs, todo[|todo| - 1], p);
    }
  }

  /** When no tile of the snapshot crosses any edge, the registry is unchanged. */
  lemma SweepQuiet(gs: seq<Pos>, todo: seq<Pos>, p: Probe)
    requires forall t, d :: t in todo ==> !Over(t, d, p)
    ensures Sweep(gs, todo, p) == gs
  {
    forall t, q | t in todo ensures !Requested(t, q, p) {
      assert !Over(t, Left, p) && !Over(t, Right, p) && !Over(t, Top, p) && !Over(t, Bottom, p);
    }
    SweepSettled(gs, todo, p);
  }

  /** Re-running a pass over the same snapshot and probe appends nothing more. */
  lemma SweepIdempotent(gs: seq<Pos>, todo: seq<Pos>, p: Probe)
    ensures Sweep(Sweep(gs, todo, p), todo, p) == Sweep(gs, todo, p)
  {
    SweepComplete(gs, todo, p);
    SweepSettled(Sweep(gs, todo, p), todo, p);
  }

  /** The probe of a window 1000 units wide over a 7 x 5 card template, scrolled 3100 units right. */
  function ScrolledRight(): Probe
  {
    MakeProbe(GridWidth(7), GridHeight(5), 1000.0, 3100.0, 0.0)
  }

  /** Scrolled right, the first tile asks for its right neighbour only. */
  lemma ScrollRightFirstPass()
    ensures Sweep([Pos(0, 0)], [Pos(0, 0)], ScrolledRight()) == [Pos(0, 0), Pos(2380, 0)]
  {
    var p := ScrolledRight();
    assert p == Probe(2380, 2200, 670.0, 580.0, 3100.0, 0.0);
    var o := Pos(0, 0);
    assert !Over(o, Left, p) && Over(o, Right, p) && !Over(o, Top, p) && !Over(o, Bottom, p);
    assert [o][..0] == [];
    assert Sweep([o], [o], p) == Visit([o], o, p);
  }

  /**
   * The next pass, whose snapshot holds the tile the first pass appended,
   * appends one more to the right: a second pass over the grown registry
   * is not a no-op, the planner advances one tile per pass.
   */
  lemma ScrollRightSecondPass()
    ensures var once := [Pos(0, 0), Pos(2380, 0)];
      Sweep(once, once, ScrolledRight()) == [Pos(0, 0), Pos(2380, 0), Pos(4760, 0)]
  {
    var p := ScrolledRight();
    var o, r1 := Pos(0, 0), Pos(2380, 0);
    var once := [o, r1];
    assert once[..1] == [o] && [o][..0] == [];
    ScrollRightOriginSettled();
    assert Sweep(once, [o], p) == once;
    ScrollRightNewTileGrows();
    assert Sweep(once, once, p) == Visit(once, r1, p);
  }

  lemma ScrollRightOriginSettled()
    ensures Visit([Pos(0, 0), Pos(2380, 0)], Pos(0, 0), ScrolledRight()) == [Pos(0, 0), Pos(2380, 0)]
  {
    var p := ScrolledRight();
    assert p == Probe(2380, 2200, 670.0, 580.0, 3100.0, 0.0);
    var o := Pos(0, 0);
    assert !Over(o, Left, p) && Over(o, Right, p) && !Over(o, Top, p) && !Over(o, Bottom, p);
  }

  lemma ScrollRightNewTileGrows()
    ensures Visit([Pos(0, 0), Pos(2380, 0)], Pos(2380, 0), ScrolledRight()) == [Pos(0, 0), Pos(2380, 0), Pos(4760, 0)]
  {
    var p := ScrolledRight();
    assert p == Probe(2380, 2200, 670.0, 580.0, 3100.0, 0.0);
    var r1, r2 := Pos(2380, 0), Pos(4760, 0);
    var once := [Pos(0, 0), r1];
    assert !Over(r1, Left, p) && Over(r1, Right, p) && !Over(r1, Top, p) && !Over(r1, Bottom, p);
    var a := Try(once, r1, Left, p);
    assert a == once;
    var b := Try(a, r1, Right, p);
    assert r2 !in once;
    assert b == once + [r2];
    var c := Try(b, r1, Top, p);
    assert c == b;
    var d := Try(c, r1, Bottom, p);
    assert d == c;
    VisitUnfold(once, a, b, c, d, r1, p);
  }
}
