// The tile template of the infinite card grid: the configuration constants,
// the row-major layout of the cards inside one tile, the tile's extent, and
// the arithmetic facts that make copies of the tile abut without gaps or
// overlaps.

module Layout {

  /** Space between two neighbouring cards, in world units. */
  const Gap: int := 40
  /** Width of one card. */
  const CardWidth: int := 300
  /** Height of one card. */
  const CardHeight: int := 400
  /** Columns and rows added beyond those the viewport holds. */
  const Padding: int := 4

  /** Distance between the centres of horizontally neighbouring cards. */
  const PitchX: int := CardWidth + Gap
  /** Distance between the centres of vertically neighbouring cards. */
  const PitchY: int := CardHeight + Gap

  /** A position in the plane of the grid: a card's centre or a tile's offset. */
  datatype Pos = Pos(x: int, y: int)

  /** Number of card columns in the template, from the window width. */
  function Cols(windowWidth: nat): (cols: int)
    ensures cols >= Padding - 1
    // the usual floor division: cols - Padding whole pitches fit in windowWidth - Gap
    ensures (cols - Padding) * PitchX <= windowWidth - Gap < (cols - Padding + 1) * PitchX
  {
    (windowWidth - Gap) / PitchX + Padding
  }

  /** Number of card rows in the template, from the window height. */
  function Rows(windowHeight: nat): (rows: int)
    ensures rows >= Padding - 1
    ensures (rows - Padding) * PitchY <= windowHeight - Gap < (rows - Padding + 1) * PitchY
  {
    (windowHeight - Gap) / PitchY + Padding
  }

  /** Centre of the card in row `row` and column `col` of the template. */
  function CardPos(row: int, col: int): Pos
  {
    Pos(col * PitchX + Gap / 2, row * PitchY + Gap / 2)
  }

  /** The first `n` cards of a template with `cols` columns, in row-major order. */
  function CardsUpTo(cols: nat, n: nat): (cards: seq<Pos>)
    requires cols > 0
    ensures |cards| == n
  {
    if n == 0 then [] else CardsUpTo(cols, n - 1) + [CardPos((n - 1) / cols, (n - 1) % cols)]
  }

  /** All cards of a template with `rows` rows and `cols` columns. */
  function Template(rows: nat, cols: nat): seq<Pos>
    requires cols > 0
  {
    CardsUpTo(cols, rows * cols)
  }

  /** Horizontal extent of a tile with `cols` columns. */
  function GridWidth(cols: int): (w: int)
    requires cols > 0
    // from the left edge of the first column to the right edge of the last one
    ensures w == (CardPos(0, cols - 1).x + CardWidth / 2) - (CardPos(0, 0).x - CardWidth / 2)
    // one tile plus one gap is a whole number of card pitches
    ensures w + Gap == cols * PitchX
  {
    cols * PitchX - Gap
  }

  /** Vertical extent of a tile with `rows` rows. */
  function GridHeight(rows: int): (h: int)
    requires rows > 0
    ensures h == (CardPos(rows - 1, 0).y + CardHeight / 2) - (CardPos(0, 0).y - CardHeight / 2)
    ensures h + Gap == rows * PitchY
  {
    rows * PitchY - Gap
  }

  /** Horizontal camera position that centres the view on the template. */
  function CameraStartX(cols: int): (x: int)
    requires cols > 0
    // midway between the template's left and right edges
    ensures 2 * x == (CardPos(0, 0).x - CardWidth / 2) + (CardPos(0, cols - 1).x + CardWidth / 2)
  {
    (cols * PitchX - CardWidth) / 2
  }

  /** Vertical camera position that centres the view on the template. */
  function CameraStartY(rows: int): (y: int)
    requires rows > 0
    ensures 2 * y == (CardPos(0, 0).y - CardHeight / 2) + (CardPos(rows - 1, 0).y + CardHeight / 2)
  {
    (rows * PitchY - CardHeight) / 2
  }

  /** A tile offset lies on the lattice spanned by the two tile steps. */
  predicate OnLattice(t: Pos, stepX: int, stepY: int)
    requires stepX > 0 && stepY > 0
  {
    t.x % stepX == 0 && t.y % stepY == 0
  }

  /** Every offset of `ts` lies on the lattice, checked from the last one back. */
  predicate AllOnLattice(ts: seq<Pos>, stepX: int, stepY: int)
    requires stepX > 0 && stepY > 0
    decreases |ts|
  {
    |ts| == 0 ||
    (OnLattice(ts[|ts| - 1], stepX, stepY) && AllOnLattice(ts[..|ts| - 1], stepX, stepY))
  }

  /** AllOnLattice holds exactly when each member lies on the lattice. */
  lemma {:induction false} AllOnLatticeMembers(ts: seq<Pos>, stepX: int, stepY: int)
    requires stepX > 0 && stepY > 0
    ensures AllOnLattice(ts, stepX, stepY) <==> forall t :: t in ts ==> OnLattice(t, stepX, stepY)
  {
    if |ts| > 0 {
      var front := ts[..|ts| - 1];
      AllOnLatticeMembers(front, stepX, stepY);
      assert ts == front + [ts[|ts| - 1]];
    }
  }

  /** World position of a template card inside the tile placed at `tile`. */
  function WorldCard(tile: Pos, card: Pos): Pos
  {
    Pos(tile.x + card.x, tile.y + card.y)
  }

  /** Quotient and remainder of a division by a positive number are unique. */
  lemma DivModUnique(q1: int, c1: int, q2: int, c2: int, n: int)
    requires 0 <= c1 < n && 0 <= c2 < n
    requires q1 * n + c1 == q2 * n + c2
    ensures q1 == q2 && c1 == c2
  {
    if q1 < q2 {
      assert q2 * n - q1 * n == (q2 - q1) * n;
      MulAtLeast(q2 - q1, n);
    } else if q2 < q1 {
      assert q1 * n - q2 * n == (q1 - q2) * n;
      MulAtLeast(q1 - q2, n);
    }
  }

  lemma MulAtLeast(k: int, n: int)
    requires k >= 1 && n > 0
    ensures k * n >= n
  {
    assert k * n == (k - 1) * n + n;
    assert (k - 1) * n >= 0;
  }

  /** Splitting a row-major index gives back its row and column. */
  lemma RowMajorIndex(row: int, col: int, cols: int)
    requires 0 <= col < cols
    ensures (row * cols + col) / cols == row && (row * cols + col) % cols == col
  {
    var k := row * cols + col;
    DivModUnique(k / cols, k % cols, row, col, cols);
  }

  /** The k-th card of the row-major layout. */
  lemma {:induction false} CardsUpToAt(cols: nat, n: nat, k: nat)
    requires cols > 0 && k < n
    ensures CardsUpTo(cols, n)[k] == CardPos(k / cols, k % cols)
  {
    if k < n - 1 {
      CardsUpToAt(cols, n - 1, k);
    }
  }

  /** The template holds rows*cols cards and card (row, col) sits at index row*cols + col. */
  lemma TemplateRowMajor(rows: nat, cols: nat, row: int, col: int)
    requires cols > 0 && 0 <= row < rows && 0 <= col < cols
    ensures |Template(rows, cols)| == rows * cols
    ensures 0 <= row * cols + col < rows * cols
    ensures Template(rows, cols)[row * cols + col] == CardPos(row, col)
  {
    RowMajorBound(rows, cols, row, col);
    CardsUpToAt(cols, rows * cols, row * cols + col);
    RowMajorIndex(row, col, cols);
  }

  lemma RowMajorBound(rows: int, cols: int, row: int, col: int)
    requires cols > 0 && 0 <= row < rows && 0 <= col < cols
    ensures 0 <= row * cols + col < rows * cols
  {
    assert row * cols >= 0;
    assert (row + 1) * cols == row * cols + cols;
    MulAtLeast(rows - row, cols);
    assert rows * cols - row * cols == (rows - row) * cols;
  }

  /** A lattice offset is a whole number of steps. */
  lemma LatticeSteps(a: int, step: int)
    requires step > 0 && a % step == 0
    ensures a == (a / step) * step
  {
  }

  /**
   * Seamless, non-overlapping tiling: two different cards of two tiles on
   * the tile lattice are at least one card pitch apart on some axis, so
   * their rectangles are separated by at least one gap.
   */
  lemma CardsNeverOverlap(rows: int, cols: int, t1: Pos, r1: int, c1: int, t2: Pos, r2: int, c2: int)
    requires rows > 0 && cols > 0
    requires OnLattice(t1, Gap + GridWidth(cols), Gap + GridHeight(rows))
    requires OnLattice(t2, Gap + GridWidth(cols), Gap + GridHeight(rows))
    requires 0 <= r1 < rows && 0 <= c1 < cols && 0 <= r2 < rows && 0 <= c2 < cols
    requires t1 != t2 || r1 != r2 || c1 != c2
    ensures var a, b := WorldCard(t1, CardPos(r1, c1)), WorldCard(t2, CardPos(r2, c2));
      a.x - b.x >= PitchX || b.x - a.x >= PitchX || a.y - b.y >= PitchY || b.y - a.y >= PitchY
  {
    var sx, sy := cols * PitchX, rows * PitchY;
    LatticeSteps(t1.x, sx);
    LatticeSteps(t2.x, sx);
    LatticeSteps(t1.y, sy);
    LatticeSteps(t2.y, sy);
    var i1, i2, j1, j2 := t1.x / sx, t2.x / sx, t1.y / sy, t2.y / sy;
    // column and row indices of the two cards in the infinite card lattice
    var m1, m2 := i1 * cols + c1, i2 * cols + c2;
    var n1, n2 := j1 * rows + r1, j2 * rows + r2;
    var a, b := WorldCard(t1, CardPos(r1, c1)), WorldCard(t2, CardPos(r2, c2));
    assert a.x == m1 * PitchX + Gap / 2 by { assert t1.x == i1 * cols * PitchX; }
    assert b.x == m2 * PitchX + Gap / 2 by { assert t2.x == i2 * cols * PitchX; }
    assert a.y == n1 * PitchY + Gap / 2 by { assert t1.y == j1 * rows * PitchY; }
    assert b.y == n2 * PitchY + Gap / 2 by { assert t2.y == j2 * rows * PitchY; }
    if m1 == m2 && n1 == n2 {
      DivModUnique(i1, c1, i2, c2, cols);
      DivModUnique(j1, r1, j2, r2, rows);
      assert false;
    } else if m1 < m2 {
      assert b.x - a.x == (m2 - m1) * PitchX;
    } else if m2 < m1 {
      assert a.x - b.x == (m1 - m2) * PitchX;
    } else if n1 < n2 {
      assert b.y - a.y == (n2 - n1) * PitchY;
    } else {
      assert a.y - b.y == (n1 - n2) * PitchY;
    }
  }
}
