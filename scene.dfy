// The state of the infinite grid: the card template, the tile registry,
// the scroll velocity, the accumulated scroll offset and the camera, with
// the operations that update them in place: building the template, one
// planner pass, one frame, and the input handlers.

module Scene {
  import opened Layout
  import opened Planner
  import opened Motion

  class InfinityGrid {
    /** Card centres of the template, in the order they were created. */
    var cards: seq<Pos>
    /** Offsets of the instantiated tiles, in insertion order. */
    var grids: seq<Pos>
    /** Extent of one tile; zero until the template is built. */
    var gridWidth: int
    var gridHeight: int
    /** Whether a mouse button is held down. */
    var isDrag: bool
    /** Scroll velocity, overwritten by input and damped every frame. */
    var vec: Vec2
    /** Accumulated scroll offset. */
    var total: Vec2
    /** Camera position in the plane of the grid. */
    var camera: Vec2
    /** Pointer position at the last drag event. */
    var previousMouse: Vec2

    /**
     * The registry invariant: no two tiles share an offset, and every
     * offset is a whole number of tile steps on both axes.
     */
    ghost predicate Valid()
      reads this
    {
      gridWidth >= 0 && gridHeight >= 0 &&
      NoDup(grids) &&
      AllOnLattice(grids, Gap + gridWidth, Gap + gridHeight)
    }

    /** The state before the first frame: nothing built, nothing moving. */
    constructor ()
      ensures Valid()
      ensures cards == [] && grids == [] && gridWidth == 0 && gridHeight == 0
      ensures !isDrag && vec == Vec2(0.0, 0.0) && total == Vec2(0.0, 0.0)
      ensures camera == Vec2(0.0, 0.0) && previousMouse == Vec2(0.0, 0.0)
    {
      cards := [];
      grids := [];
      gridWidth, gridHeight := 0, 0;
      isDrag := false;
      vec := Vec2(0.0, 0.0);
      total := Vec2(0.0, 0.0);
      camera := Vec2(0.0, 0.0);
      previousMouse := Vec2(0.0, 0.0);
    }

    /**
     * Builds the template for a window of the given size, centres the
     * camera on it and registers the first tile at the origin.
     */
    method CreateCards(windowWidth: nat, windowHeight: nat)
      requires Valid() && grids == []
      modifies this`cards, this`grids, this`gridWidth, this`gridHeight, this`camera
      ensures Valid()
      ensures cards == old(cards) + Template(Rows(windowHeight), Cols(windowWidth))
      ensures gridWidth == GridWidth(Cols(windowWidth)) && gridHeight == GridHeight(Rows(windowHeight))
      ensures camera == Vec2(CameraStartX(Cols(windowWidth)) as real, CameraStartY(Rows(windowHeight)) as real)
      ensures grids == [Pos(0, 0)]
    {
      var cols := (windowWidth - Gap) / (CardWidth + Gap) + 4;
      var rows := (windowHeight - Gap) / (CardHeight + Gap) + 4;
      var row := 0;
      while row < rows
        modifies this`cards
        invariant 0 <= row <= rows
        invariant cards == old(cards) + CardsUpTo(cols, row * cols)
      {
        var col := 0;
        while col < cols
          modifies this`cards
          invariant 0 <= col <= cols
          invariant cards == old(cards) + CardsUpTo(cols, row * cols + col)
        {
          RowMajorIndex(row, col, cols);
          cards := cards + [Pos(col * (CardWidth + Gap) + Gap / 2, row * (CardHeight + Gap) + Gap / 2)];
          col := col + 1;
        }
        assert row * cols + cols == (row + 1) * cols;
        row := row + 1;
      }
      gridWidth := cols * (CardWidth + Gap) - Gap;
      gridHeight := rows * (CardHeight + Gap) - Gap;
      camera := Vec2(((cols * (CardWidth + Gap) - CardWidth) / 2) as real,
                     ((rows * (CardHeight + Gap) - CardHeight) / 2) as real);
      grids := grids + [Pos(0, 0)];
      assert grids == [Pos(0, 0)];
    }

    /**
     * One planner pass for a viewport `viewWidth` units wide. Each tile
     * registered when the pass starts is visited once, in order; tiles it
     * appends are looked up by later requests but not visited.
     */
    method AddGroup(viewWidth: real)
      requires Valid()
      modifies this`grids
      ensures Valid()
      ensures grids == Sweep(old(grids), old(grids), MakeProbe(gridWidth, gridHeight, viewWidth, total.x, total.y))
      // at most four new tiles per tile visited
      ensures |old(grids)| <= |grids| <= 5 * |old(grids)|
    {
      // hBase and vBase; the vertical one subtracts the viewport width, as the program does
      var p := MakeProbe(gridWidth, gridHeight, viewWidth, total.x, total.y);
      VisitAll(p);
      PassKeepsRegistry(old(grids), grids, p, Gap + gridWidth, Gap + gridHeight);
    }

    /**
     * The loop of the pass: visits the tiles registered when it starts,
     * in order, against the probe `p`.
     */
    method VisitAll(p: Probe)
      requires p.stepX == Gap + gridWidth && p.stepY == Gap + gridHeight
      requires p.cursorX == total.x && p.cursorY == total.y
      modifies this`grids
      ensures grids == Sweep(old(grids), old(grids), p)
    {
      ghost var start := grids;
      var n := |grids|;
      var i := 0;
      while i < n
        invariant 0 <= i <= n == |start|
        invariant grids == Sweep(start, start[..i], p)
      {
        SweepNext(start, i, p);
        var grid := grids[i];
        VisitTile(grid, p);
        i := i + 1;
      }
      assert start[..n] == start;
    }

    /** The work of the pass for one tile: four edge tests, each guarding a lookup and an append. */
    method VisitTile(grid: Pos, p: Probe)
      requires p.stepX == Gap + gridWidth && p.stepY == Gap + gridHeight
      requires p.cursorX == total.x && p.cursorY == total.y
      modifies this`grids
      ensures grids == Visit(old(grids), grid, p)
    {
      var leftEdge := -p.hBase + grid.x as real;
      var rightEdge := p.hBase + grid.x as real;
      var topEdge := p.vBase + grid.y as real;
      var bottomEdge := -p.vBase + grid.y as real;
      var isOverLeft := leftEdge > total.x;
      var isOverRight := rightEdge < total.x;
      var isOverTop := topEdge < total.y;
      var isOverBottom := bottomEdge > total.y;
      ghost var g0 := grids;
      RequestIfOver(isOverLeft, Pos(grid.x - (Gap + gridWidth), grid.y), Left, grid, p);
      ghost var g1 := grids;
      RequestIfOver(isOverRight, Pos(grid.x + (Gap + gridWidth), grid.y), Right, grid, p);
      ghost var g2 := grids;
      RequestIfOver(isOverTop, Pos(grid.x, grid.y + (Gap + gridHeight)), Top, grid, p);
      ghost var g3 := grids;
      RequestIfOver(isOverBottom, Pos(grid.x, grid.y - (Gap + gridHeight)), Bottom, grid, p);
      VisitUnfold(g0, g1, g2, g3, grids, grid, p);
    }

    /**
     * The guarded append the four directions share: when the edge is
     * crossed, look the offset up in the whole current registry (by column
     * for a horizontal neighbour, by row for a vertical one) and append it
     * when it is absent.
     */
    method RequestIfOver(isOver: bool, q: Pos, d: Dir, ghost g: Pos, ghost p: Probe)
      requires isOver == Over(g, d, p) && q == Neighbour(g, d, p)
      modifies this`grids
      ensures grids == if isOver && q !in old(grids) then old(grids) + [q] else old(grids)
      ensures grids == Try(old(grids), g, d, p)
    {
      if isOver {
        var isExist;
        if d == Left || d == Right {
          isExist := ExistsInColumn(grids, q.x, q.y);
        } else {
          isExist := ExistsInRow(grids, q.x, q.y);
        }
        if !isExist {
          grids := grids + [q];
        }
      }
    }

    /**
     * One frame: damp the velocity, move the camera and the scroll offset
     * against it, then run the planner against the new offset.
     */
    method Tick(viewWidth: real)
      requires Valid()
      modifies this`vec, this`camera, this`total, this`grids
      ensures Valid()
      ensures vec == Vec2(Damp(old(vec).x), Damp(old(vec).y))
      ensures camera == Vec2(old(camera).x - vec.x, old(camera).y - vec.y)
      ensures total == Vec2(old(total).x - vec.x, old(total).y - vec.y)
      ensures grids == Sweep(old(grids), old(grids), MakeProbe(gridWidth, gridHeight, viewWidth, total.x, total.y))
      // the camera and the scroll offset move together
      ensures camera.x - total.x == old(camera.x - total.x) && camera.y - total.y == old(camera.y - total.y)
      // without motion, the camera and the scroll offset stay where they are
      ensures old(vec) == Vec2(0.0, 0.0) ==> vec == old(vec) && camera == old(camera) && total == old(total)
    {
      vec := Vec2(vec.x * Damping, vec.y * Damping);
      if Abs(vec.x) < RestThreshold {
        vec := vec.(x := 0.0);
      }
      if Abs(vec.y) < RestThreshold {
        vec := vec.(y := 0.0);
      }
      camera := Vec2(camera.x - vec.x, camera.y - vec.y);
      total := Vec2(total.x - vec.x, total.y - vec.y);
      AddGroup(viewWidth);
    }

    /** Start-up: build the template, then run the first frame. */
    method Init(windowWidth: nat, windowHeight: nat, viewWidth: real)
      requires Valid() && grids == []
      modifies this`cards, this`grids, this`gridWidth, this`gridHeight, this`camera, this`vec, this`total
      ensures Valid()
      ensures cards == old(cards) + Template(Rows(windowHeight), Cols(windowWidth))
      ensures gridWidth == GridWidth(Cols(windowWidth)) && gridHeight == GridHeight(Rows(windowHeight))
      ensures vec == Vec2(Damp(old(vec).x), Damp(old(vec).y))
      ensures total == Vec2(old(total).x - vec.x, old(total).y - vec.y)
      ensures camera == Vec2(CameraStartX(Cols(windowWidth)) as real - vec.x, CameraStartY(Rows(windowHeight)) as real - vec.y)
      ensures grids == Sweep([Pos(0, 0)], [Pos(0, 0)], MakeProbe(gridWidth, gridHeight, viewWidth, total.x, total.y))
    {
      CreateCards(windowWidth, windowHeight);
      Tick(viewWidth);
    }

    /** A button press starts a drag at the pointer position. */
    method OnMouseDown(clientX: real, clientY: real)
      modifies this`isDrag, this`previousMouse
      ensures isDrag && previousMouse == Vec2(clientX, clientY)
    {
      isDrag := true;
      previousMouse := Vec2(clientX, clientY);
    }

    /** A button release ends the drag. */
    method OnMouseUp()
      modifies this`isDrag
      ensures !isDrag
    {
      isDrag := false;
    }

    /**
     * While dragging, a pointer move replaces the velocity by the pointer's
     * displacement since the last move (screen y points down, the grid's y
     * up); otherwise nothing changes.
     */
    method OnMouseMove(clientX: real, clientY: real)
      modifies this`vec, this`previousMouse
      ensures old(isDrag) ==> vec == Vec2(clientX - old(previousMouse).x, old(previousMouse).y - clientY)
      ensures old(isDrag) ==> previousMouse == Vec2(clientX, clientY)
      ensures !old(isDrag) ==> vec == old(vec) && previousMouse == old(previousMouse)
    {
      if !isDrag {
        return;
      }
      var deltaX := clientX - previousMouse.x;
      var deltaY := -(clientY - previousMouse.y);
      vec := Vec2(deltaX, deltaY);
      previousMouse := Vec2(clientX, clientY);
    }

    /** A wheel event replaces the velocity by a quarter of the wheel deltas. */
    method OnWheel(deltaX: real, deltaY: real)
      modifies this`vec
      ensures vec == Vec2(deltaX * WheelScale, deltaY * WheelScale)
    {
      vec := Vec2(deltaX * 0.25, deltaY * 0.25);
    }
  }

  /**
   * What a caller can conclude from the contracts alone: a wheel delta of
   * 100 to the right, on a grid at rest, sets the velocity to 25, moves the
   * scroll offset and the camera by the same 22.5 units in the next frame,
   * and the velocity then keeps decaying.
   */
  method WheelThenTick(viewWidth: real) returns (wheel: Vec2, first: Vec2, offset: Vec2, camera: Vec2, second: Vec2)
    ensures wheel == Vec2(25.0, 0.0)
    ensures first == Vec2(22.5, 0.0)
    ensures offset == Vec2(-22.5, 0.0) && camera == offset
    ensures second == Vec2(20.25, 0.0)
  {
    var s := new InfinityGrid();
    s.OnWheel(100.0, 0.0);
    wheel := s.vec;
    s.Tick(viewWidth);
    first, offset, camera := s.vec, s.total, s.camera;
    s.Tick(viewWidth);
    second := s.vec;
  }
}
