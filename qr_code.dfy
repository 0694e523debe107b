/** The QR-code scene of src/ts/scenes/qr_code.scene.ts: `drawQR` lays
    the code out as a square grid of rectangles, three cells of padding
    wide on every side, row by row; `createQRCodeScene` puts a background
    rectangle and that grid into one container. */
module QrCode {
  import opened Common
  import opened Geometry
  import opened Pixi
  import opened ShapeRecords
  import Helpers
  import Wrapper

  /** Rows and columns of padding on each side of the code. */
  const Padding: nat := 3

  // ---------------------------------------------------------------------
  // Cell labels

  function DigitChar(d: nat): (c: char)
    requires d < 10
    ensures '0' <= c <= '9'
  {
    ('0' as int + d) as char
  }

  /** The decimal form a template literal gives a natural number. */
  function NatToString(n: nat): (r: string)
    ensures |r| >= 1 && (n >= 10 ==> |r| >= 2)
    ensures forall c <- r :: '0' <= c <= '9'
  {
    if n < 10 then [DigitChar(n)] else NatToString(n / 10) + [DigitChar(n % 10)]
  }

  /** Different numbers print differently. */
  lemma {:induction false} NatToStringInjective(a: nat, b: nat)
    requires NatToString(a) == NatToString(b)
    ensures a == b
  {
    if a >= 10 && b >= 10 {
      var sa, sb := NatToString(a), NatToString(b);
      assert sa[|sa| - 1] == DigitChar(a % 10) && sb[|sb| - 1] == DigitChar(b % 10);
      assert sa[..|sa| - 1] == NatToString(a / 10) && sb[..|sb| - 1] == NatToString(b / 10);
      NatToStringInjective(a / 10, b / 10);
    }
  }

  /** `cell_(${colIndex},${rowIndex})`. */
  function CellName(col: nat, row: nat): string
  {
    "cell_(" + NatToString(col) + "," + NatToString(row) + ")"
  }

  /** The position of the first ',' in `s`, or |s| when there is none. */
  function FirstComma(s: string): nat
  {
    if s == [] then 0 else if s[0] == ',' then 0 else 1 + FirstComma(s[1..])
  }

  /** After a run of digits, the first ',' is the one that ends the run. */
  lemma {:induction false} CommaAfterDigits(digits: string, rest: string)
    requires forall c <- digits :: '0' <= c <= '9'
    ensures FirstComma(digits + "," + rest) == |digits|
  {
    if digits != [] {
      assert digits[0] in digits;
      assert (digits + "," + rest)[1..] == digits[1..] + "," + rest;
      assert forall c <- digits[1..] :: c in digits;
      CommaAfterDigits(digits[1..], rest);
    } else {
      assert digits + "," + rest == [','] + rest;
    }
  }

  /** The label of a cell tells its column and row: no two cells share
      one. */
  lemma CellNameInjective(col1: nat, row1: nat, col2: nat, row2: nat)
    requires CellName(col1, row1) == CellName(col2, row2)
    ensures col1 == col2 && row1 == row2
  {
    var a1, b1 := NatToString(col1), NatToString(row1);
    var a2, b2 := NatToString(col2), NatToString(row2);
    assert CellName(col1, row1) == "cell_(" + (a1 + "," + (b1 + ")"));
    assert CellName(col2, row2) == "cell_(" + (a2 + "," + (b2 + ")"));
    SamePrefix("cell_(", a1 + "," + (b1 + ")"), a2 + "," + (b2 + ")"));
    DigitsThenComma(a1, b1 + ")", a2, b2 + ")");
    assert b1 == (b1 + ")")[..|b1|] && b2 == (b2 + ")")[..|b2|];
    NatToStringInjective(col1, col2);
    NatToStringInjective(row1, row2);
  }

  lemma SamePrefix(p: string, t1: string, t2: string)
    requires p + t1 == p + t2
    ensures t1 == t2
  {
    assert t1 == (p + t1)[|p|..] && t2 == (p + t2)[|p|..];
  }

  /** A run of digits and a comma split a string in one way only. */
  lemma DigitsThenComma(a1: string, r1: string, a2: string, r2: string)
    requires forall c <- a1 :: '0' <= c <= '9'
    requires forall c <- a2 :: '0' <= c <= '9'
    requires a1 + "," + r1 == a2 + "," + r2
    ensures a1 == a2 && r1 == r2
  {
    CommaAfterDigits(a1, r1);
    CommaAfterDigits(a2, r2);
    var t := a1 + "," + r1;
    assert |a1| == |a2|;
    assert a1 == t[..|a1|] && r1 == t[|a1| + 1..];
    assert a2 == (a2 + "," + r2)[..|a2|] && r2 == (a2 + "," + r2)[|a2| + 1..];
  }

  // ---------------------------------------------------------------------
  // The grid

  /** `sequence.length + 2 * padding`. */
  function GridSize(sequence: seq<seq<int>>): nat
  {
    |sequence| + 2 * Padding
  }

  /** `Math.floor(width / gridSize)`. */
  function CellSize(sequence: seq<seq<int>>, width: real): int
  {
    (width / GridSize(sequence) as real).Floor
  }

  /** A cell of the three outer rows or columns on any side. */
  predicate IsPadding(gridSize: nat, row: nat, col: nat)
  {
    row < Padding || row >= gridSize - Padding || col < Padding || col >= gridSize - Padding
  }

  /** `sequence[row]?.[col] === 1`: an index outside the data is not dark. */
  predicate Dark(sequence: seq<seq<int>>, row: int, col: int)
  {
    0 <= row < |sequence| && 0 <= col < |sequence[row]| && sequence[row][col] == 1
  }

  /** The fill colour of a cell: getColor('carbon') for a dark data cell,
      getColor('white') for every other one. */
  function CellFill(sequence: seq<seq<int>>, row: nat, col: nat): Option<string>
  {
    if IsPadding(GridSize(sequence), row, col) then Helpers.GetColor("white")
    else if Dark(sequence, row - Padding, col - Padding) then Helpers.GetColor("carbon")
    else Helpers.GetColor("white")
  }

  /** The rectangle `drawQR` makes for the cell at (col, row): at
      (startX + col * cellSize, startY + row * cellSize), cellSize + 0.5
      wide and high, with a zero border. */
  function CellRecord(sequence: seq<seq<int>>, startX: real, startY: real, width: real, row: nat, col: nat): GraphicsRecord
  {
    var cs := CellSize(sequence, width);
    RectangleRecord(CellName(col, row), CellOrigin(startX, col, cs), CellOrigin(startY, row, cs),
                    cs as real + 0.5, cs as real + 0.5, CellFill(sequence, row, col),
                    ShapeOptions(Some(0.0), None, None), Some(true))
  }

  /** `start + index * cellSize`: where the cell in that column (or row)
      begins. */
  function CellOrigin(start: real, index: nat, cellSize: int): real
  {
    start + (index * cellSize) as real
  }

  /** The next cell begins one cell size further on. */
  lemma CellOriginNext(start: real, index: nat, cellSize: int)
    ensures CellOrigin(start, index + 1, cellSize) == CellOrigin(start, index, cellSize) + cellSize as real
  {
    assert (index + 1) * cellSize == index * cellSize + cellSize;
  }

  /** The records of the cells of one row, left to right. */
  function RowRecords(sequence: seq<seq<int>>, startX: real, startY: real, width: real, row: nat): (r: seq<GraphicsRecord>)
    ensures |r| == GridSize(sequence)
  {
    seq(GridSize(sequence), col requires 0 <= col < GridSize(sequence) => CellRecord(sequence, startX, startY, width, row, col))
  }

  /** The records of the first `rows` rows of cells, row by row. */
  function GridRecords(sequence: seq<seq<int>>, startX: real, startY: real, width: real, rows: nat): seq<GraphicsRecord>
  {
    if rows == 0 then []
    else GridRecords(sequence, startX, startY, width, rows - 1) + RowRecords(sequence, startX, startY, width, rows - 1)
  }

  /** The grid is laid out in row-major order: rows * gridSize cells, the
      k-th of them in row k / gridSize and column k % gridSize. */
  lemma {:induction false} RowMajorLayout(sequence: seq<seq<int>>, startX: real, startY: real, width: real, rows: nat)
    ensures var n := GridSize(sequence);
      var r := GridRecords(sequence, startX, startY, width, rows);
      && |r| == rows * n
      && forall k :: 0 <= k < |r| ==> r[k] == CellRecord(sequence, startX, startY, width, k / n, k % n)
  {
    var n := GridSize(sequence);
    if rows > 0 {
      RowMajorLayout(sequence, startX, startY, width, rows - 1);
      var before := GridRecords(sequence, startX, startY, width, rows - 1);
      var row := RowRecords(sequence, startX, startY, width, rows - 1);
      var r := before + row;
      assert r == GridRecords(sequence, startX, startY, width, rows);
      MulStep(rows - 1, n);
      forall k | 0 <= k < |r|
        ensures r[k] == CellRecord(sequence, startX, startY, width, k / n, k % n)
      {
        if k < |before| {
          assert r[k] == before[k];
        } else {
          var col := k - |before|;
          RowMajorIndex(rows - 1, col, n);
          assert r[k] == row[col];
        }
      }
    }
  }

  lemma MulStep(a: nat, n: nat)
    ensures (a + 1) * n == a * n + n
  {
  }

  lemma RowMajorIndex(row: nat, col: nat, n: nat)
    requires col < n
    ensures (row * n + col) / n == row && (row * n + col) % n == col
  {
    var m := row * n + col;
    var q, r := m / n, m % n;
    assert m == q * n + r;
    var d := q - row;
    assert d * n == col - r;
    if d >= 1 {
      AtLeastOnce(d, n);
      assert false;
    } else if d <= -1 {
      AtLeastOnce(-d, n);
      assert false;
    }
  }

  lemma {:induction false} AtLeastOnce(a: int, n: int)
    requires a >= 1 && n > 0
    ensures a * n >= n
  {
    if a > 1 {
      AtLeastOnce(a - 1, n);
      assert a * n == (a - 1) * n + n;
    }
  }

  const QrContainerName := "qr_code_container"

  /** `drawQR`: gridSize rows of gridSize cells each, added row by row. */
  method DrawQR(sequence: seq<seq<int>>, startX: real, startY: real, width: real, height: real)
    returns (c: Container)
    ensures fresh(c)
    ensures c.name == Some(QrContainerName) && c.hitArea == None
    ensures AllGraphics(c.children)
    ensures Drawn(c.children) == GridRecords(sequence, startX, startY, width, GridSize(sequence))
  {
    c := new Container();
    c.SetName(QrContainerName);
    var gridSize := GridSize(sequence);
    var cellSize := CellSize(sequence, width);
    var rowIndex := 0;
    while rowIndex < gridSize
      invariant 0 <= rowIndex <= gridSize
      invariant c.name == Some(QrContainerName) && c.hitArea == None
      invariant AllGraphics(c.children)
      invariant Drawn(c.children) == GridRecords(sequence, startX, startY, width, rowIndex)
    {
      DrawRow(c, sequence, startX, startY, width, gridSize, cellSize, rowIndex);
      assert GridRecords(sequence, startX, startY, width, rowIndex + 1)
          == GridRecords(sequence, startX, startY, width, rowIndex) + RowRecords(sequence, startX, startY, width, rowIndex);
      rowIndex := rowIndex + 1;
    }
  }

  /** The inner loop of `drawQR`: the cells of one row, left to right. */
  method DrawRow(c: Container, sequence: seq<seq<int>>, startX: real, startY: real, width: real,
                 gridSize: nat, cellSize: int, rowIndex: nat)
    modifies c
    requires gridSize == GridSize(sequence) && cellSize == CellSize(sequence, width)
    requires AllGraphics(c.children)
    ensures c.name == old(c.name) && c.hitArea == old(c.hitArea)
    ensures AllGraphics(c.children)
    ensures Drawn(c.children) == old(Drawn(c.children)) + RowRecords(sequence, startX, startY, width, rowIndex)
  {
    ghost var row := RowRecords(sequence, startX, startY, width, rowIndex);
    var colIndex := 0;
    while colIndex < gridSize
      invariant 0 <= colIndex <= gridSize
      invariant c.name == old(c.name) && c.hitArea == old(c.hitArea)
      invariant AllGraphics(c.children)
      invariant Drawn(c.children) == old(Drawn(c.children)) + row[..colIndex]
    {
      AddCell(c, sequence, startX, startY, width, gridSize, cellSize, rowIndex, colIndex);
      TakeStep(row, colIndex);
      AppendAssoc(old(Drawn(c.children)), row[..colIndex], [row[colIndex]]);
      colIndex := colIndex + 1;
    }
    assert row[..colIndex] == row;
  }

  /** The body of the inner loop: one cell created and added. */
  method AddCell(c: Container, sequence: seq<seq<int>>, startX: real, startY: real, width: real,
                 gridSize: nat, cellSize: int, rowIndex: nat, colIndex: nat)
    modifies c
    requires gridSize == GridSize(sequence) && cellSize == CellSize(sequence, width)
    requires AllGraphics(c.children)
    ensures c.name == old(c.name) && c.hitArea == old(c.hitArea)
    ensures AllGraphics(c.children)
    ensures Drawn(c.children) == old(Drawn(c.children)) + [CellRecord(sequence, startX, startY, width, rowIndex, colIndex)]
  {
    var cell := CreateCell(sequence, startX, startY, width, gridSize, cellSize, rowIndex, colIndex);
    ghost var before := c.children;
    assert c !in GraphicsObjects(before);
    c.AddChild(GraphicsChild(cell));
    DrawnSnoc(before, cell);
  }

  /** The rectangle of one cell. */
  method CreateCell(sequence: seq<seq<int>>, startX: real, startY: real, width: real,
                    gridSize: nat, cellSize: int, rowIndex: nat, colIndex: nat) returns (cell: Graphics)
    requires gridSize == GridSize(sequence) && cellSize == CellSize(sequence, width)
    ensures fresh(cell)
    ensures cell.Record() == CellRecord(sequence, startX, startY, width, rowIndex, colIndex)
  {
    var isPadding := rowIndex < Padding || rowIndex >= gridSize - Padding
                     || colIndex < Padding || colIndex >= gridSize - Padding;
    var x := startX + (colIndex * cellSize) as real;
    var y := startY + (rowIndex * cellSize) as real;
    var fillColor := if isPadding then Helpers.GetColor("white")
                     else if Dark(sequence, rowIndex - Padding, colIndex - Padding) then Helpers.GetColor("carbon")
                     else Helpers.GetColor("white");
    assert isPadding == IsPadding(gridSize, rowIndex, colIndex);
    assert fillColor == CellFill(sequence, rowIndex, colIndex);
    assert x == CellOrigin(startX, colIndex, cellSize) && y == CellOrigin(startY, rowIndex, cellSize);
    cell := Wrapper.CreateRectangle(CellName(colIndex, rowIndex), x, y, cellSize as real + 0.5, cellSize as real + 0.5,
                                    fillColor, ShapeOptions(Some(0.0), None, None));
  }

  /** `createQRCodeScene`: the background rectangle first, then the grid of
      `drawQR(sequence, 45, 45, 360, 360)`. The code's data is a
      parameter. */
  method CreateQRCodeScene(sequence: seq<seq<int>>, width: real, height: real, background: string)
    returns (scene: Container)
    ensures fresh(scene)
    ensures |scene.children| == 2
    ensures scene.children[0].GraphicsChild?
    ensures scene.children[0].g.Record()
      == RectangleRecord("scene_background", 0.0, 0.0, width, height, Some(background), ShapeOptions(None, None, None), Some(true))
    ensures scene.children[1].ContainerChild?
    ensures var qr := scene.children[1].c;
      && qr.name == Some(QrContainerName)
      && AllGraphics(qr.children)
      && Drawn(qr.children) == GridRecords(sequence, 45.0, 45.0, 360.0, GridSize(sequence))
  {
    scene := new Container();
    var sceneBackground := Wrapper.CreateRectangle("scene_background", 0.0, 0.0, width, height,
                                                   Some(background), ShapeOptions(None, None, None));
    scene.AddChild(GraphicsChild(sceneBackground));
    var qrCode := DrawQR(sequence, 45.0, 45.0, 360.0, 360.0);
    assert scene !in GraphicsObjects(qrCode.children);
    scene.AddChild(ContainerChild(qrCode));
  }

  // ---------------------------------------------------------------------
  // What the layout promises

  /** Each cell is one zero-border rectangle at its grid position, named
      after its column and row. */
  lemma CellPlacement(sequence: seq<seq<int>>, startX: real, startY: real, width: real, row: nat, col: nat)
    ensures var g := CellRecord(sequence, startX, startY, width, row, col);
      var cs := CellSize(sequence, width);
      && g.name == Some(CellName(col, row))
      && g.calls[|g.calls| - 1] == DrawRect(startX + (col * cs) as real, startY + (row * cs) as real,
                                          cs as real + 0.5, cs as real + 0.5)
      && (forall c <- g.calls :: !c.LineStyle?)
      && TransformOf(g) == TransformOf(NewGraphics)
  {
    var g := CellRecord(sequence, startX, startY, width, row, col);
    StyleGuard(CellFill(sequence, row, col), 0.0, "");
    assert g.calls == StyleCalls(CellFill(sequence, row, col), 0.0, "") + [g.calls[|g.calls| - 1]];
  }

  /** A cell is filled, with carbon, exactly when it is a data cell whose
      bit is 1; padding cells and light cells get getColor('white'), which
      is undefined, so they are not filled at all. */
  lemma CellColour(sequence: seq<seq<int>>, startX: real, startY: real, width: real, row: nat, col: nat)
    ensures var g := CellRecord(sequence, startX, startY, width, row, col);
      && ((exists c <- g.calls :: c.BeginFill?)
            <==> !IsPadding(GridSize(sequence), row, col) && Dark(sequence, row - Padding, col - Padding))
      && (forall c <- g.calls :: c.BeginFill? ==> c == BeginFill(Some(Css("rgba(14, 14, 14, 1)"))))
  {
    var g := CellRecord(sequence, startX, startY, width, row, col);
    var fill := CellFill(sequence, row, col);
    Helpers.GetColorValues();
    Helpers.GetColorUndefined();
    StyleGuard(fill, 0.0, "");
    assert g.calls == StyleCalls(fill, 0.0, "") + [g.calls[|g.calls| - 1]];
    assert forall c <- g.calls :: c.BeginFill? ==> c in StyleCalls(fill, 0.0, "");
  }

  /** Neighbouring cells overlap by half a unit, so no gap shows between
      them, in either direction. */
  lemma NeighboursOverlap(sequence: seq<seq<int>>, startX: real, startY: real, width: real, row: nat, col: nat)
    ensures var here := CellRecord(sequence, startX, startY, width, row, col);
      var right := CellRecord(sequence, startX, startY, width, row, col + 1);
      var below := CellRecord(sequence, startX, startY, width, row + 1, col);
      var r0, r1, r2 := here.calls[|here.calls| - 1], right.calls[|right.calls| - 1], below.calls[|below.calls| - 1];
      && r1.x < r0.x + r0.width && r1.x - r0.x == r0.width - 0.5
      && r2.y < r0.y + r0.height && r2.y - r0.y == r0.height - 0.5
  {
    var cs := CellSize(sequence, width);
    CellPlacement(sequence, startX, startY, width, row, col);
    CellPlacement(sequence, startX, startY, width, row, col + 1);
    CellPlacement(sequence, startX, startY, width, row + 1, col);
    CellOriginNext(startX, col, cs);
    CellOriginNext(startY, row, cs);
  }

  /** The grid's whole cells fit in the width: gridSize * cellSize is at
      most `width`, and more than `width` - gridSize. */
  lemma GridFits(sequence: seq<seq<int>>, width: real)
    ensures var n := GridSize(sequence) as real;
      var cs := CellSize(sequence, width) as real;
      n * cs <= width && width < n * cs + n
  {
    var n := GridSize(sequence) as real;
    var q := width / n;
    assert CellSize(sequence, width) == q.Floor;
    FloorTimes(n, q.Floor as real, q, width);
  }

  /** n * floor(w / n) is at most w and more than w - n. */
  lemma FloorTimes(n: real, a: real, q: real, w: real)
    requires n > 0.0 && a <= q < a + 1.0 && q == w / n
    ensures n * a <= w < n * a + n
  {
    var lo, mid, hi := n * a, n * q, n * (a + 1.0);
    assert mid == w;
    assert hi == lo + n;
    var gap := a + 1.0 - q;
    assert n * gap > 0.0;
    assert n * gap == hi - mid;
    assert lo <= mid by { assert n * (q - a) >= 0.0; }
  }
}
