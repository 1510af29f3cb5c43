/** The sphere mesh of gl-sphere.c: a UV grid of (r+1) x (c+1) vertices, r*c
    quad faces over that grid, and an overlay line list (an equator ring and
    meridian segments). Each list lives in a buffer object whose records the
    init routines fill through a write pointer that advances one record at a
    time. A buffer slot holds None until something is written to it: the
    buffers are allocated with undefined contents. */
module GlSphere {
  import opened Wrappers

  // ---------------------------------------------------------------------------
  // Index storage and grid arithmetic

  /** Element indices are stored through a GLushort cast and read back by
      glDrawElements as GL_UNSIGNED_SHORT: only the low 16 bits survive. */
  const ShortRange: int := 0x1_0000

  function Short(x: int): (s: int)
    ensures 0 <= s < ShortRange
  {
    x % ShortRange
  }

  /** The cast keeps an index unchanged exactly when it is below 65536. */
  lemma ShortKeeps(x: int)
    ensures Short(x) == x <==> 0 <= x < ShortRange
  {
  }

  lemma MulMonotone(a: int, b: int, m: int)
    requires 0 <= a <= b && 0 <= m
    ensures a * m <= b * m
  {
    assert b * m == a * m + (b - a) * m;
  }

  /** Cell (i, j) of a row-major grid with `cols` columns sits at slot
      i * cols + j, and division by `cols` recovers its row and column. */
  lemma GridSlot(i: int, j: int, rows: int, cols: int)
    requires 0 <= i < rows && 0 <= j < cols
    ensures 0 <= i * cols + j < rows * cols
    ensures (i * cols + j) / cols == i && (i * cols + j) % cols == j
  {
    MulMonotone(i + 1, rows, cols);
    MulMonotone(0, i, cols);
    var p := i * cols + j;
    var q := p / cols;
    assert p == q * cols + p % cols;
    if q < i {
      MulMonotone(q + 1, i, cols);
    } else if q > i {
      MulMonotone(i + 1, q, cols);
    }
  }

  /** Every slot of a rows x cols grid is the slot of one cell. */
  lemma SlotCell(k: int, rows: int, cols: int)
    requires 0 <= rows && 0 <= cols && 0 <= k < rows * cols
    ensures cols != 0
    ensures 0 <= k / cols < rows && 0 <= k % cols < cols
    ensures (k / cols) * cols + k % cols == k
  {
    if cols != 0 && k / cols >= rows {
      MulMonotone(rows, k / cols, cols);
    }
  }

  /** Vertex (i, j) of a grid with c + 1 columns (gl-sphere.c:60-61). */
  function VertexSlot(c: nat, i: int, j: int): int
  {
    i * (c + 1) + j
  }

  // ---------------------------------------------------------------------------
  // Buffer sizes, in records (gl-sphere.c:158-160)

  function VertSlots(r: nat, c: nat): nat { (r + 1) * (c + 1) }

  function QuadSlots(r: nat, c: nat): nat { r * c }

  function LineSlots(r: nat, c: nat): nat { 4 * r + c }

  // ---------------------------------------------------------------------------
  // Vertices: slot layout and chart coordinates

  /** A chart coordinate: the double quotient k / n, which is an exact
      rational for n != 0 and NaN (0.0 / 0.0) when n == 0. */
  datatype Coord = Exact(value: real) | NotFinite

  function ChartCoord(k: int, n: int): (x: Coord)
    ensures x.NotFinite? <==> n == 0
  {
    if n == 0 then NotFinite else Exact(k as real / n as real)
  }

  /** The part of a vertex record that is modelled: its chart position. */
  datatype Vert = Vert(chartX: Coord, chartY: Coord)

  /** The vertex buffer's intended contents: slot k holds grid point
      (k / (c+1), k % (c+1)) with x = column / c and y = row / r. */
  function VertLayout(r: nat, c: nat): (s: seq<Vert>)
    ensures |s| == VertSlots(r, c)
  {
    seq(VertSlots(r, c), k => Vert(ChartCoord(k % (c + 1), c), ChartCoord(k / (c + 1), r)))
  }

  /** Grid point (i, j) is stored at slot i*(c+1) + j, with chart
      coordinates x = j / c and y = i / r. */
  lemma VertexAt(r: nat, c: nat, i: int, j: int)
    requires 0 <= i <= r && 0 <= j <= c
    ensures 0 <= VertexSlot(c, i, j) < VertSlots(r, c)
    ensures VertLayout(r, c)[VertexSlot(c, i, j)] == Vert(ChartCoord(j, c), ChartCoord(i, r))
  {
    GridSlot(i, j, r + 1, c + 1);
  }

  /** Conversely, every slot of the vertex buffer is the slot of a grid point. */
  lemma VertexSlotsCover(r: nat, c: nat, k: int)
    requires 0 <= k < VertSlots(r, c)
    ensures 0 <= k / (c + 1) <= r && 0 <= k % (c + 1) <= c
    ensures VertexSlot(c, k / (c + 1), k % (c + 1)) == k
  {
    SlotCell(k, r + 1, c + 1);
  }

  /** A chart coordinate over a non-degenerate axis lies in [0, 1], is 0
      exactly on the first line and 1 exactly on the last. */
  lemma ChartCoordInUnitRange(k: int, n: int)
    requires 0 <= k <= n && n != 0
    ensures ChartCoord(k, n).Exact?
    ensures 0.0 <= ChartCoord(k, n).value <= 1.0
    ensures ChartCoord(k, n).value == 0.0 <==> k == 0
    ensures ChartCoord(k, n).value == 1.0 <==> k == n
  {
    var x := k as real / n as real;
    assert x * n as real == k as real;
  }

  /** Chart coordinates increase strictly along a row or a column. */
  lemma ChartCoordIncreasing(k1: int, k2: int, n: int)
    requires 0 <= k1 < k2 <= n
    ensures ChartCoord(k1, n).Exact? && ChartCoord(k2, n).Exact?
    ensures ChartCoord(k1, n).value < ChartCoord(k2, n).value
  {
    var x1, x2 := k1 as real / n as real, k2 as real / n as real;
    assert x1 * n as real == k1 as real;
    assert x2 * n as real == k2 as real;
  }

  /** init_vert (gl-sphere.c:52-82), restricted to the slot layout and the
      chart coordinates. `mapped` is whether glMapBuffer succeeded. */
  method InitVert(buf: array<Option<Vert>>, r: nat, c: nat, mapped: bool)
    requires buf.Length == VertSlots(r, c)
    modifies buf
    ensures mapped ==> forall k | 0 <= k < buf.Length :: buf[k] == Some(VertLayout(r, c)[k])
    ensures !mapped ==> buf[..] == old(buf[..])
  {
    if mapped {
      ghost var verts := VertLayout(r, c);
      var p := 0;
      for i := 0 to r + 1
        invariant p == i * (c + 1) && p <= buf.Length
        invariant forall k | 0 <= k < p :: buf[k] == Some(verts[k])
      {
        for j := 0 to c + 1
          invariant p == i * (c + 1) + j && p <= buf.Length
          invariant forall k | 0 <= k < p :: buf[k] == Some(verts[k])
        {
          VertexAt(r, c, i, j);
          buf[p] := Some(Vert(ChartCoord(j, c), ChartCoord(i, r)));
          p := p + 1;
        }
        assert p == (i + 1) * (c + 1);
        MulMonotone(i + 1, r + 1, c + 1);
      }
    }
  }

  // ---------------------------------------------------------------------------
  // Quad faces

  datatype Quad = Quad(a: int, b: int, c: int, d: int)

  /** The face of grid cell (i, j): corners (i, j), (i+1, j), (i+1, j+1), (i, j+1). */
  function FaceQuad(c: nat, i: int, j: int): Quad
  {
    Quad(Short(VertexSlot(c, i, j)), Short(VertexSlot(c, i + 1, j)),
         Short(VertexSlot(c, i + 1, j + 1)), Short(VertexSlot(c, i, j + 1)))
  }

  /** The quad buffer's intended contents: slot k holds the face of cell
      (k / c, k % c). */
  function QuadLayout(r: nat, c: nat): (s: seq<Quad>)
    ensures |s| == QuadSlots(r, c)
  {
    if c == 0 then [] else seq(QuadSlots(r, c), k => FaceQuad(c, k / c, k % c))
  }

  /** Face (i, j) is quad number i*c + j. */
  lemma QuadAt(r: nat, c: nat, i: int, j: int)
    requires 0 <= i < r && 0 <= j < c
    ensures 0 <= i * c + j < QuadSlots(r, c)
    ensures QuadLayout(r, c)[i * c + j] == FaceQuad(c, i, j)
  {
    GridSlot(i, j, r, c);
  }

  /** With at most 65536 vertices, the stored index of grid point (i, j) is
      its slot, from which division by c + 1 recovers i and j. */
  lemma StoredVertex(r: nat, c: nat, i: int, j: int)
    requires 0 <= i <= r && 0 <= j <= c && VertSlots(r, c) <= ShortRange
    ensures Short(VertexSlot(c, i, j)) == VertexSlot(c, i, j) < VertSlots(r, c)
    ensures 0 <= VertexSlot(c, i, j)
    ensures VertexSlot(c, i, j) / (c + 1) == i && VertexSlot(c, i, j) % (c + 1) == j
  {
    GridSlot(i, j, r + 1, c + 1);
    ShortKeeps(VertexSlot(c, i, j));
  }

  /** Every stored quad index is a vertex of the grid: below 65536 vertices
      it is the corner's own slot, above that the cast keeps it under 65536. */
  lemma QuadIndicesInRange(r: nat, c: nat, k: int)
    requires 0 <= k < QuadSlots(r, c)
    ensures 0 <= QuadLayout(r, c)[k].a < VertSlots(r, c)
    ensures 0 <= QuadLayout(r, c)[k].b < VertSlots(r, c)
    ensures 0 <= QuadLayout(r, c)[k].c < VertSlots(r, c)
    ensures 0 <= QuadLayout(r, c)[k].d < VertSlots(r, c)
  {
    SlotCell(k, r, c);
    var i, j := k / c, k % c;
    if VertSlots(r, c) <= ShortRange {
      StoredVertex(r, c, i, j);
      StoredVertex(r, c, i + 1, j);
      StoredVertex(r, c, i + 1, j + 1);
      StoredVertex(r, c, i, j + 1);
    } else {
      assert QuadLayout(r, c)[k] == FaceQuad(c, i, j);
    }
  }

  /** The 65536 bound is also necessary: with more vertices, the last corner
      of the last face, vertex (r, c), is not stored as its own slot. */
  lemma TruncatedBeyondShortRange(r: nat, c: nat)
    requires 1 <= r && 1 <= c && VertSlots(r, c) > ShortRange
    ensures 0 <= r * c - 1 < QuadSlots(r, c)
    ensures QuadLayout(r, c)[r * c - 1].c != VertSlots(r, c) - 1
  {
    QuadAt(r, c, r - 1, c - 1);
    assert (r - 1) * c + (c - 1) == r * c - 1;
    assert VertexSlot(c, r, c) == VertSlots(r, c) - 1;
  }

  /** The corners of the face of cell (i, j), as stored. */
  lemma FaceCorners(r: nat, c: nat, i: int, j: int)
    requires 0 <= i < r && 0 <= j < c && VertSlots(r, c) <= ShortRange
    ensures var q := FaceQuad(c, i, j);
      q.b == q.a + (c + 1) && q.d == q.a + 1 && q.c == q.b + 1
    ensures var q := FaceQuad(c, i, j);
      q.a / (c + 1) == i && q.d / (c + 1) == i && q.b / (c + 1) == i + 1 && q.c / (c + 1) == i + 1
    ensures var q := FaceQuad(c, i, j);
      q.a % (c + 1) == j && q.b % (c + 1) == j && q.c % (c + 1) == j + 1 && q.d % (c + 1) == j + 1
  {
    StoredVertex(r, c, i, j);
    StoredVertex(r, c, i + 1, j);
    StoredVertex(r, c, i + 1, j + 1);
    StoredVertex(r, c, i, j + 1);
    assert VertexSlot(c, i + 1, j) == VertexSlot(c, i, j) + (c + 1);
  }

  /** The corners of face (i, j) follow the grid: b is a's neighbour one row
      down, d is a's neighbour one column right, c is b's; a and d lie on
      row i, b and c on row i + 1, a and b in column j, c and d in column j + 1. */
  lemma QuadCorners(r: nat, c: nat, i: int, j: int)
    requires 0 <= i < r && 0 <= j < c && VertSlots(r, c) <= ShortRange
    ensures 0 <= i * c + j < |QuadLayout(r, c)|
    ensures var q := QuadLayout(r, c)[i * c + j];
      q.b == q.a + (c + 1) && q.d == q.a + 1 && q.c == q.b + 1
    ensures var q := QuadLayout(r, c)[i * c + j];
      q.a / (c + 1) == i && q.d / (c + 1) == i && q.b / (c + 1) == i + 1 && q.c / (c + 1) == i + 1
    ensures var q := QuadLayout(r, c)[i * c + j];
      q.a % (c + 1) == j && q.b % (c + 1) == j && q.c % (c + 1) == j + 1 && q.d % (c + 1) == j + 1
  {
    QuadAt(r, c, i, j);
    FaceCorners(r, c, i, j);
  }

  /** init_quad (gl-sphere.c:87-106). `mapped` is whether glMapBuffer succeeded. */
  method InitQuad(buf: array<Option<Quad>>, r: nat, c: nat, mapped: bool)
    requires buf.Length == QuadSlots(r, c)
    modifies buf
    ensures mapped ==> forall k | 0 <= k < buf.Length :: buf[k] == Some(QuadLayout(r, c)[k])
    ensures !mapped ==> buf[..] == old(buf[..])
  {
    if mapped {
      ghost var quads := QuadLayout(r, c);
      var p := 0;
      for i := 0 to r
        invariant p == i * c && p <= buf.Length
        invariant forall k | 0 <= k < p :: buf[k] == Some(quads[k])
      {
        for j := 0 to c
          invariant p == i * c + j && p <= buf.Length
          invariant forall k | 0 <= k < p :: buf[k] == Some(quads[k])
        {
          QuadAt(r, c, i, j);
          buf[p] := Some(Quad(Short(i * (c + 1) + j), Short((i + 1) * (c + 1) + j),
                              Short((i + 1) * (c + 1) + j + 1), Short(i * (c + 1) + j + 1)));
          p := p + 1;
        }
        assert p == (i + 1) * c;
        MulMonotone(i + 1, r, c);
      }
    }
  }

  // ---------------------------------------------------------------------------
  // Overlay lines

  datatype Line = Line(a: int, b: int)

  /** Equator segment j: from vertex (r/2, j) to vertex (r/2, j+1). */
  function EquatorLine(r: nat, c: nat, j: int): Line
  {
    Line(Short(VertexSlot(c, r / 2, j)), Short(VertexSlot(c, r / 2, j + 1)))
  }

  /** Meridian segment of row i in column col: from (i, col) to (i+1, col). */
  function MeridianLine(c: nat, i: int, col: int): Line
  {
    Line(Short(VertexSlot(c, i, col)), Short(VertexSlot(c, i + 1, col)))
  }

  /** The four meridian columns of the line loop: 0, c/4, c/2 and c/2 + c/4,
      the two halves of each of the 0 and 90 degree meridian loops. */
  function MeridianColumn(c: nat, m: int): (col: int)
    requires 0 <= m < 4
    ensures 0 <= col <= c
    ensures m == 0 ==> col == 0
  {
    if m == 0 then 0 else if m == 1 then c / 4 else if m == 2 then c / 2 else c / 2 + c / 4
  }

  /** The line buffer's intended contents, which fill the 4r + c records
      allocated for it: c equator segments, then four meridian segments per
      row, one in each meridian column. */
  function LineLayout(r: nat, c: nat): (s: seq<Line>)
    ensures |s| == LineSlots(r, c)
  {
    seq(LineSlots(r, c), k =>
      if k < c then EquatorLine(r, c, k)
      else MeridianLine(c, (k - c) / 4, MeridianColumn(c, (k - c) % 4)))
  }

  /** The lines the meridian loop as written actually stores: the c equator
      segments and then, per row, only the last of its four assignments,
      in column c/2 + c/4. */
  function LinesAsWritten(r: nat, c: nat): (s: seq<Line>)
    ensures |s| == c + r
  {
    seq(c + r, k => if k < c then EquatorLine(r, c, k) else MeridianLine(c, k - c, c / 2 + c / 4))
  }

  /** Equator segment j joins consecutive vertices of row r/2. */
  lemma EquatorSegment(r: nat, c: nat, j: int)
    requires 0 <= j < c && VertSlots(r, c) <= ShortRange
    ensures j < |LineLayout(r, c)| && LineLayout(r, c)[j] == LinesAsWritten(r, c)[j]
    ensures var l := LineLayout(r, c)[j];
      l.b == l.a + 1 && 0 <= l.a && l.b < VertSlots(r, c)
    ensures var l := LineLayout(r, c)[j];
      l.a / (c + 1) == r / 2 && l.b / (c + 1) == r / 2 && l.a % (c + 1) == j
  {
    GridSlot(r / 2, j, r + 1, c + 1);
    GridSlot(r / 2, j + 1, r + 1, c + 1);
    ShortKeeps(VertexSlot(c, r / 2, j));
    ShortKeeps(VertexSlot(c, r / 2, j + 1));
  }

  /** Record j < c of both line layouts is equator segment j. */
  lemma EquatorAt(r: nat, c: nat, j: int)
    requires 0 <= j < c
    ensures j < |LineLayout(r, c)| && LineLayout(r, c)[j] == EquatorLine(r, c, j)
    ensures j < |LinesAsWritten(r, c)| && LinesAsWritten(r, c)[j] == EquatorLine(r, c, j)
  {
  }

  /** Record c + 4i + m of the intended layout is the segment of row i in
      meridian column m. */
  lemma MeridianAt(r: nat, c: nat, i: int, m: int)
    requires 0 <= i < r && 0 <= m < 4
    ensures c + 4 * i + m < |LineLayout(r, c)|
    ensures LineLayout(r, c)[c + 4 * i + m] == MeridianLine(c, i, MeridianColumn(c, m))
  {
    var k := c + 4 * i + m;
    assert (k - c) / 4 == i && (k - c) % 4 == m;
  }

  /** The four intended records of row i, as the meridian loop computes them. */
  lemma MeridianRecords(r: nat, c: nat, i: int)
    requires 0 <= i < r
    ensures c + 4 * i + 3 < |LineLayout(r, c)|
    ensures LineLayout(r, c)[c + 4 * i] == Line(Short(i * (c + 1)), Short((i + 1) * (c + 1)))
    ensures LineLayout(r, c)[c + 4 * i + 1] == Line(Short(i * (c + 1) + c / 4), Short((i + 1) * (c + 1) + c / 4))
    ensures LineLayout(r, c)[c + 4 * i + 2] == Line(Short(i * (c + 1) + c / 2), Short((i + 1) * (c + 1) + c / 2))
    ensures LineLayout(r, c)[c + 4 * i + 3] ==
      Line(Short(i * (c + 1) + c / 2 + c / 4), Short((i + 1) * (c + 1) + c / 2 + c / 4))
  {
    MeridianAt(r, c, i, 0);
    MeridianAt(r, c, i, 1);
    MeridianAt(r, c, i, 2);
    MeridianAt(r, c, i, 3);
  }

  /** The intended segment of row i in meridian column m joins (i, col) to
      (i+1, col): b lies one row below a, in the same column. */
  lemma MeridianSegment(r: nat, c: nat, i: int, m: int)
    requires 0 <= i < r && 0 <= m < 4 && VertSlots(r, c) <= ShortRange
    ensures c + 4 * i + m < |LineLayout(r, c)|
    ensures var l := LineLayout(r, c)[c + 4 * i + m];
      l.b == l.a + (c + 1) && 0 <= l.a && l.b < VertSlots(r, c)
    ensures var l := LineLayout(r, c)[c + 4 * i + m];
      l.a / (c + 1) == i && l.b / (c + 1) == i + 1 &&
      l.a % (c + 1) == MeridianColumn(c, m) && l.b % (c + 1) == MeridianColumn(c, m)
  {
    MeridianAt(r, c, i, m);
    var col := MeridianColumn(c, m);
    assert 0 <= col <= c;
    GridSlot(i, col, r + 1, c + 1);
    GridSlot(i + 1, col, r + 1, c + 1);
    ShortKeeps(VertexSlot(c, i, col));
    ShortKeeps(VertexSlot(c, i + 1, col));
    assert VertexSlot(c, i + 1, col) == VertexSlot(c, i, col) + (c + 1);
  }

  /** Every index of the intended line layout is a vertex of the grid. */
  lemma LineIndicesInRange(r: nat, c: nat, k: int)
    requires 0 <= k < LineSlots(r, c)
    ensures 0 <= LineLayout(r, c)[k].a < VertSlots(r, c)
    ensures 0 <= LineLayout(r, c)[k].b < VertSlots(r, c)
  {
    if VertSlots(r, c) > ShortRange {
      if k < c {
        assert LineLayout(r, c)[k] == EquatorLine(r, c, k);
      } else {
        assert LineLayout(r, c)[k] == MeridianLine(c, (k - c) / 4, MeridianColumn(c, (k - c) % 4));
      }
    } else if k < c {
      EquatorSegment(r, c, k);
    } else {
      MeridianSegment(r, c, (k - c) / 4, (k - c) % 4);
    }
  }

  /** As written, the meridian loop stores r + c of the 4r + c records
      allocated, so 3r records stay unwritten, while gl_line_* passes
      8r + 2c indices, i.e. two per allocated record. */
  lemma AsWrittenLineShortfall(r: nat, c: nat)
    ensures |LinesAsWritten(r, c)| + 3 * r == LineSlots(r, c)
    ensures 8 * r + 2 * c == 2 * LineSlots(r, c)
  {
  }

  /** Record c + i of the layout as written is the meridian segment of row
      i in column c/2 + c/4. */
  lemma AsWrittenMeridianAt(r: nat, c: nat, i: int)
    requires 0 <= i < r
    ensures c + i < |LinesAsWritten(r, c)|
    ensures LinesAsWritten(r, c)[c + i] == MeridianLine(c, i, c / 2 + c / 4)
  {
  }

  /** An equator segment joins horizontal neighbours, so it is not the
      vertical segment from (0, 0) to (1, 0). */
  lemma EquatorMissesZeroMeridian(r: nat, c: nat, j: int)
    requires 1 <= r && 2 <= c && VertSlots(r, c) <= ShortRange && 0 <= j < c
    ensures EquatorLine(r, c, j) != Line(0, c + 1)
  {
    GridSlot(r / 2, j, r + 1, c + 1);
    GridSlot(r / 2, j + 1, r + 1, c + 1);
    ShortKeeps(VertexSlot(c, r / 2, j));
    ShortKeeps(VertexSlot(c, r / 2, j + 1));
    var l := EquatorLine(r, c, j);
    assert l.b == l.a + 1;
  }

  /** A meridian segment in a column other than 0 does not start at vertex (0, 0). */
  lemma MeridianMissesZeroMeridian(r: nat, c: nat, i: int, col: int)
    requires VertSlots(r, c) <= ShortRange && 0 <= i < r && 1 <= col <= c
    ensures MeridianLine(c, i, col) != Line(0, c + 1)
  {
    GridSlot(i, col, r + 1, c + 1);
    ShortKeeps(VertexSlot(c, i, col));
    MulMonotone(0, i, c + 1);
    assert MeridianLine(c, i, col).a == VertexSlot(c, i, col) >= 1;
  }

  /** No record stored by the loop as written joins vertex (0, 0) to
      vertex (1, 0). */
  lemma AsWrittenRecordMissesZeroMeridian(r: nat, c: nat, k: int)
    requires 1 <= r && 2 <= c && VertSlots(r, c) <= ShortRange
    requires 0 <= k < c + r
    ensures LinesAsWritten(r, c)[k] != Line(0, c + 1)
  {
    if k < c {
      EquatorAt(r, c, k);
      EquatorMissesZeroMeridian(r, c, k);
    } else {
      AsWrittenMeridianAt(r, c, k - c);
      MeridianMissesZeroMeridian(r, c, k - c, c / 2 + c / 4);
    }
  }

  /** As written, the first segment of the 0-degree meridian, from vertex
      (0, 0) to (1, 0), is never stored, although the intended layout has it
      at record c. */
  lemma AsWrittenLosesZeroMeridian(r: nat, c: nat)
    requires 1 <= r && 2 <= c && VertSlots(r, c) <= ShortRange
    ensures Line(0, c + 1) !in LinesAsWritten(r, c)
    ensures LineLayout(r, c)[c] == Line(0, c + 1)
  {
    var s := LinesAsWritten(r, c);
    forall k | 0 <= k < |s|
      ensures s[k] != Line(0, c + 1)
    {
      AsWrittenRecordMissesZeroMeridian(r, c, k);
    }
    MeridianAt(r, c, 0, 0);
    assert VertexSlot(c, 0, 0) == 0 && VertexSlot(c, 1, 0) == c + 1;
    ShortKeeps(0);
    ShortKeeps(c + 1);
  }

  /** init_line as written (gl-sphere.c:112-142): the meridian loop assigns
      the record four times and advances the write pointer once, so only
      r + c records are written and the rest keep their old contents. */
  method InitLineAsWritten(buf: array<Option<Line>>, r: nat, c: nat, mapped: bool)
    requires buf.Length == LineSlots(r, c)
    modifies buf
    ensures mapped ==> forall k | 0 <= k < c + r :: buf[k] == Some(LinesAsWritten(r, c)[k])
    ensures mapped ==> forall k | c + r <= k < buf.Length :: buf[k] == old(buf[k])
    ensures !mapped ==> buf[..] == old(buf[..])
  {
    if mapped {
      ghost var lines := LinesAsWritten(r, c);
      var j2, j4 := c / 2, c / 4;
      var p := 0;
      for j := 0 to c
        invariant p == j
        invariant forall k | 0 <= k < p :: buf[k] == Some(lines[k])
        invariant forall k | p <= k < buf.Length :: buf[k] == old(buf[k])
      {
        EquatorAt(r, c, j);
        buf[p] := Some(Line(Short((r / 2) * (c + 1) + j), Short((r / 2) * (c + 1) + (j + 1))));
        p := p + 1;
      }
      for i := 0 to r
        invariant p == c + i
        invariant forall k | 0 <= k < p :: buf[k] == Some(lines[k])
        invariant forall k | p <= k < buf.Length :: buf[k] == old(buf[k])
      {
        AsWrittenMeridianAt(r, c, i);
        buf[p] := Some(Line(Short(i * (c + 1)), Short((i + 1) * (c + 1))));
        buf[p] := Some(Line(Short(i * (c + 1) + j4), Short((i + 1) * (c + 1) + j4)));
        buf[p] := Some(Line(Short(i * (c + 1) + j2), Short((i + 1) * (c + 1) + j2)));
        buf[p] := Some(Line(Short(i * (c + 1) + j2 + j4), Short((i + 1) * (c + 1) + j2 + j4)));
        p := p + 1;
        forall k | 0 <= k < p
          ensures buf[k] == Some(lines[k])
        {
          if k == p - 1 {
            assert lines[k] == lines[c + i];
          }
        }
      }
    }
  }

  /** The line buffer that gl_init_sphere builds with init_line as written:
      allocated with 4r + c undefined records, of which the last 3r are never
      written, although gl_line_* draws two indices for every record. */
  method LineBufferAsWritten(r: nat, c: nat) returns (buf: array<Option<Line>>)
    ensures fresh(buf) && buf.Length == LineSlots(r, c)
    ensures forall k | 0 <= k < c + r :: buf[k] == Some(LinesAsWritten(r, c)[k])
    ensures forall k | c + r <= k < buf.Length :: buf[k] == None
  {
    buf := new Option<Line>[LineSlots(r, c)](_ => None);
    InitLineAsWritten(buf, r, c, true);
  }

  /** init_line as intended: each meridian assignment gets its own record,
      so the loop fills all 4r + c records allocated for the line buffer. */
  method InitLine(buf: array<Option<Line>>, r: nat, c: nat, mapped: bool)
    requires buf.Length == LineSlots(r, c)
    modifies buf
    ensures mapped ==> forall k | 0 <= k < buf.Length :: buf[k] == Some(LineLayout(r, c)[k])
    ensures !mapped ==> buf[..] == old(buf[..])
  {
    if mapped {
      ghost var lines := LineLayout(r, c);
      var j2, j4 := c / 2, c / 4;
      var p := 0;
      for j := 0 to c
        invariant p == j
        invariant forall k | 0 <= k < p :: buf[k] == Some(lines[k])
      {
        EquatorAt(r, c, j);
        buf[p] := Some(Line(Short((r / 2) * (c + 1) + j), Short((r / 2) * (c + 1) + (j + 1))));
        p := p + 1;
      }
      for i := 0 to r
        invariant p == c + 4 * i
        invariant forall k | 0 <= k < p :: buf[k] == Some(lines[k])
      {
        MeridianRecords(r, c, i);
        ghost var start := p;
        buf[p] := Some(Line(Short(i * (c + 1)), Short((i + 1) * (c + 1))));
        p := p + 1;
        buf[p] := Some(Line(Short(i * (c + 1) + j4), Short((i + 1) * (c + 1) + j4)));
        p := p + 1;
        buf[p] := Some(Line(Short(i * (c + 1) + j2), Short((i + 1) * (c + 1) + j2)));
        p := p + 1;
        buf[p] := Some(Line(Short(i * (c + 1) + j2 + j4), Short((i + 1) * (c + 1) + j2 + j4)));
        p := p + 1;
        forall k | 0 <= k < p
          ensures buf[k] == Some(lines[k])
        {
          if k == start {
            assert lines[k] == lines[c + 4 * i];
          } else if k == start + 1 {
            assert lines[k] == lines[c + 4 * i + 1];
          } else if k == start + 2 {
            assert lines[k] == lines[c + 4 * i + 2];
          } else if k == start + 3 {
            assert lines[k] == lines[c + 4 * i + 3];
          }
        }
      }
    }
  }

  // ---------------------------------------------------------------------------
  // The sphere object

  /** gl_sphere: the mesh dimensions and its three buffer objects. */
  class Sphere {
    var r: nat
    var c: nat
    var vert: array<Option<Vert>>
    var quad: array<Option<Quad>>
    var line: array<Option<Line>>

    /** Each buffer has the number of records gl_init_sphere allocates. */
    ghost predicate Valid()
      reads this
    {
      vert.Length == VertSlots(r, c) && quad.Length == QuadSlots(r, c) && line.Length == LineSlots(r, c)
    }

    /** gl_init_sphere (gl-sphere.c:147-184): allocate the three buffers with
        undefined contents, then fill each through its mapping; a mapping that
        fails leaves its buffer unwritten. The line buffer is filled as
        intended (InitLine), not as written. */
    constructor (rows: nat, cols: nat, vertMapped: bool, quadMapped: bool, lineMapped: bool)
      ensures Valid() && r == rows && c == cols
      ensures fresh(vert) && fresh(quad) && fresh(line)
      ensures forall k | 0 <= k < vert.Length ::
        vert[k] == if vertMapped then Some(VertLayout(r, c)[k]) else None
      ensures forall k | 0 <= k < quad.Length ::
        quad[k] == if quadMapped then Some(QuadLayout(r, c)[k]) else None
      ensures forall k | 0 <= k < line.Length ::
        line[k] == if lineMapped then Some(LineLayout(r, c)[k]) else None
    {
      r, c := rows, cols;
      vert := new Option<Vert>[VertSlots(rows, cols)](_ => None);
      quad := new Option<Quad>[QuadSlots(rows, cols)](_ => None);
      line := new Option<Line>[LineSlots(rows, cols)](_ => None);
      new;
      InitVert(vert, r, c, vertMapped);
      InitQuad(quad, r, c, quadMapped);
      InitLine(line, r, c, lineMapped);
    }

    /** The element count gl_fill_* draws as GL_QUADS: four indices for each
        quad record allocated. */
    function FillCount(): (n: int)
      requires Valid()
      reads this
      ensures n == 4 * quad.Length
    {
      4 * r * c
    }

    /** The element count gl_line_* draws as GL_LINES: two indices for each
        line record allocated. */
    function LineDrawCount(): (n: int)
      requires Valid()
      reads this
      ensures n == 2 * line.Length
    {
      8 * r + 2 * c
    }
  }
}
