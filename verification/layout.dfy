/** The particle grid as the host sees it: four-component vertices, the
    flat-sheet layout that Cloth::init writes (clcloth/main.cpp:190-198) and
    the quad index arithmetic of ClothRenderer::renderCloth (main.cpp:557-579).
    Coordinates are reals; the 32-bit float rounding of the source is not modelled. */
module ClothLayout {
  import opened ClothConfig

  /** A cl_float4: position (x, y, z) plus the homogeneous weight w. */
  datatype Float4 = Float4(x: real, y: real, z: real, w: real)

  const ZERO4: Float4 := Float4(0.0, 0.0, 0.0, 0.0)

  /** The contents of one device buffer: one Float4 per particle. */
  type Grid = g: seq<Float4> | |g| == CELLS witness seq(CELLS, _ => ZERO4)

  /** Distance between neighbouring particles of the flat sheet. */
  const SPACING: real := CLOTH_SCALE / (CLOTH_SIZE as real)

  /** Coordinate of grid line k along one axis, centred on `start`. */
  function SheetCoord(k: nat, start: real): real
  {
    (k as real) / (CLOTH_SIZE as real) * CLOTH_SCALE - 0.5 * CLOTH_SCALE + start
  }

  /** Vertex i of the flat sheet: its x comes from the column i % N, its y from the row i / N. */
  function FlatVertex(i: nat): (v: Float4)
    ensures v.z == CLOTH_START_Z && v.w == 1.0
    ensures CLOTH_START_X - 0.5 * CLOTH_SCALE <= v.x <= CLOTH_START_X + 0.5 * CLOTH_SCALE - SPACING
    ensures i < CELLS ==> CLOTH_START_Y - 0.5 * CLOTH_SCALE <= v.y <= CLOTH_START_Y + 0.5 * CLOTH_SCALE - SPACING
  {
    Float4(SheetCoord(i % CLOTH_SIZE, CLOTH_START_X), SheetCoord(i / CLOTH_SIZE, CLOTH_START_Y), CLOTH_START_Z, 1.0)
  }

  /** The whole flat sheet, in the row-major order of the device buffers. */
  function FlatSheet(): (s: Grid)
  {
    seq(CELLS, i requires 0 <= i < CELLS => FlatVertex(i))
  }

  /** Consecutive grid lines are SPACING apart. */
  lemma SheetCoordStep(k: nat, start: real)
    ensures SheetCoord(k + 1, start) == SheetCoord(k, start) + SPACING
  {
  }

  /** Distinct grid lines have distinct coordinates. */
  lemma SheetCoordInjective(a: nat, b: nat, start: real)
    requires SheetCoord(a, start) == SheetCoord(b, start)
    ensures a == b
  {
  }

  /** Every vertex of the flat sheet lies at height CLOTH_START_Z with weight 1;
      its x depends only on its column and its y only on its row. */
  lemma FlatSheetShape(i: nat, j: nat)
    requires i < CELLS && j < CELLS
    ensures FlatSheet()[i].z == CLOTH_START_Z && FlatSheet()[i].w == 1.0
    ensures i % CLOTH_SIZE == j % CLOTH_SIZE <==> FlatSheet()[i].x == FlatSheet()[j].x
    ensures i / CLOTH_SIZE == j / CLOTH_SIZE <==> FlatSheet()[i].y == FlatSheet()[j].y
  {
    if FlatSheet()[i].x == FlatSheet()[j].x {
      SheetCoordInjective(i % CLOTH_SIZE, j % CLOTH_SIZE, CLOTH_START_X);
    }
    if FlatSheet()[i].y == FlatSheet()[j].y {
      SheetCoordInjective(i / CLOTH_SIZE, j / CLOTH_SIZE, CLOTH_START_Y);
    }
  }

  /** Neighbours along a row are SPACING apart in x, neighbours along a column SPACING apart in y. */
  lemma FlatSheetSpacing(i: nat)
    requires i < CELLS
    ensures i + 1 < CELLS && (i + 1) % CLOTH_SIZE != 0 ==>
              FlatSheet()[i + 1].x == FlatSheet()[i].x + SPACING && FlatSheet()[i + 1].y == FlatSheet()[i].y
    ensures i + CLOTH_SIZE < CELLS ==>
              FlatSheet()[i + CLOTH_SIZE].y == FlatSheet()[i].y + SPACING && FlatSheet()[i + CLOTH_SIZE].x == FlatSheet()[i].x
  {
    if i + 1 < CELLS && (i + 1) % CLOTH_SIZE != 0 {
      assert (i + 1) % CLOTH_SIZE == i % CLOTH_SIZE + 1 && (i + 1) / CLOTH_SIZE == i / CLOTH_SIZE;
      SheetCoordStep(i % CLOTH_SIZE, CLOTH_START_X);
    }
    if i + CLOTH_SIZE < CELLS {
      assert (i + CLOTH_SIZE) % CLOTH_SIZE == i % CLOTH_SIZE && (i + CLOTH_SIZE) / CLOTH_SIZE == i / CLOTH_SIZE + 1;
      SheetCoordStep(i / CLOTH_SIZE, CLOTH_START_Y);
    }
  }

  /** No two particles of the flat sheet start at the same point. */
  lemma FlatSheetDistinct(i: nat, j: nat)
    requires i < CELLS && j < CELLS && i != j
    ensures FlatSheet()[i] != FlatSheet()[j]
  {
    assert i == (i / CLOTH_SIZE) * CLOTH_SIZE + i % CLOTH_SIZE;
    assert j == (j / CLOTH_SIZE) * CLOTH_SIZE + j % CLOTH_SIZE;
    FlatSheetShape(i, j);
  }

  /** Corner k (0..3) of the quad that renderCloth draws for loop indices (x, y):
      the corners are grid points (x, y), (x + 1, y), (x + 1, y + 1), (x, y + 1),
      where the first coordinate is the major (i / N) index and the second the minor (i % N) one. */
  function QuadCorner(x: nat, y: nat, k: nat): (i: nat)
    requires x < CLOTH_SIZE - 1 && y < CLOTH_SIZE - 1 && k < 4
    ensures i < CELLS
    ensures i / CLOTH_SIZE == (if k == 1 || k == 2 then x + 1 else x)
    ensures i % CLOTH_SIZE == (if k == 2 || k == 3 then y + 1 else y)
  {
    if k == 0 then x * CLOTH_SIZE + y
    else if k == 1 then (x + 1) * CLOTH_SIZE + y
    else if k == 2 then (x + 1) * CLOTH_SIZE + y + 1
    else x * CLOTH_SIZE + y + 1
  }

  /** Twice the signed (shoelace) area of the quadrilateral a, b, c, d projected on the xy-plane;
      negative means the corners run clockwise seen from +z. */
  function SignedArea2(a: Float4, b: Float4, c: Float4, d: Float4): real
  {
    (a.x * b.y - b.x * a.y) + (b.x * c.y - c.x * b.y) + (c.x * d.y - d.x * c.y) + (d.x * a.y - a.x * d.y)
  }

  /** A square with side h whose corners, starting at (a, b), go up, right, then down
      runs clockwise: its doubled signed area is -2 h^2. */
  lemma ClockwiseSquareArea(v0: Float4, v1: Float4, v2: Float4, v3: Float4, a: real, b: real, h: real)
    requires v0.x == a && v0.y == b && v1.x == a && v1.y == b + h
    requires v2.x == a + h && v2.y == b + h && v3.x == a + h && v3.y == b
    ensures SignedArea2(v0, v1, v2, v3) == -2.0 * h * h
  {
    assert v0.x * v1.y - v1.x * v0.y == a * h;
    assert v1.x * v2.y - v2.x * v1.y == - h * b - h * h;
    assert v2.x * v3.y - v3.x * v2.y == - a * h - h * h;
    assert v3.x * v0.y - v0.x * v3.y == h * b;
  }

  /** Where corner k of quad (x, y) sits on the flat sheet, relative to corner 0. */
  lemma FlatCorner(x: nat, y: nat, k: nat)
    requires x < CLOTH_SIZE - 1 && y < CLOTH_SIZE - 1 && k < 4
    ensures FlatSheet()[QuadCorner(x, y, k)].x == SheetCoord(y, CLOTH_START_X) + (if k == 2 || k == 3 then SPACING else 0.0)
    ensures FlatSheet()[QuadCorner(x, y, k)].y == SheetCoord(x, CLOTH_START_Y) + (if k == 1 || k == 2 then SPACING else 0.0)
  {
    var i := QuadCorner(x, y, k);
    assert FlatSheet()[i] == FlatVertex(i);
    SheetCoordStep(y, CLOTH_START_X);
    SheetCoordStep(x, CLOTH_START_Y);
  }

  /** On the flat sheet every quad renderCloth emits is a SPACING x SPACING square whose corners
      run clockwise, which is the front-face winding renderCloth declares (GL_CW). */
  lemma QuadIsClockwiseSquare(x: nat, y: nat)
    requires x < CLOTH_SIZE - 1 && y < CLOTH_SIZE - 1
    ensures SignedArea2(FlatSheet()[QuadCorner(x, y, 0)], FlatSheet()[QuadCorner(x, y, 1)],
                        FlatSheet()[QuadCorner(x, y, 2)], FlatSheet()[QuadCorner(x, y, 3)]) == -2.0 * SPACING * SPACING
  {
    var a, b, h := SheetCoord(y, CLOTH_START_X), SheetCoord(x, CLOTH_START_Y), SPACING;
    var v0, v1 := FlatSheet()[QuadCorner(x, y, 0)], FlatSheet()[QuadCorner(x, y, 1)];
    var v2, v3 := FlatSheet()[QuadCorner(x, y, 2)], FlatSheet()[QuadCorner(x, y, 3)];
    assert v0.x == a && v0.y == b by { FlatCorner(x, y, 0); }
    assert v1.x == a && v1.y == b + h by { FlatCorner(x, y, 1); }
    assert v2.x == a + h && v2.y == b + h by { FlatCorner(x, y, 2); }
    assert v3.x == a + h && v3.y == b by { FlatCorner(x, y, 3); }
    ClockwiseSquareArea(v0, v1, v2, v3, a, b, h);
  }
}
