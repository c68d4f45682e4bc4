/** grid() of scripts/open3d_util.py: the points, line index pairs and
    colours of a square line-set grid, with Python floats read as exact
    reals. */
module Open3dUtil {
  import opened Wrappers

  /** A row of the points array: coordinates 0, 1 and 2. */
  datatype Vec3 = Vec3(c0: real, c1: real, c2: real)

  /** The line set grid() returns. */
  datatype LineSet = LineSet(points: seq<Vec3>, lines: seq<(int, int)>, colors: seq<Vec3>)

  /** What grid() raises: ZeroDivisionError from size / float(n) when n is
      0, and numpy's shape error when the point list is empty (np.array([])
      is one-dimensional, so neither the xz column swap nor the broadcast
      against the three-entry translate applies to it). */
  datatype GridError = ZeroDivisionError | ArrayShapeError

  /** Point k of the grid before the plane swap and the translation: points
      2i and 2i+1 of the first family are the segment at first coordinate
      -s2 + i*s, points 2(n+1) + 2i and 2(n+1) + 2i + 1 of the second family
      the segment at second coordinate -s2 + i*s. */
  function RawPoint(size: real, n: int, planeOffset: real, k: int): Vec3
    requires n > 0 && 0 <= k < 4 * (n + 1)
  {
    var s2 := 0.5 * size;
    if k < 2 * (n + 1) then
      Vec3(Offset(size, n, k / 2), if k % 2 == 0 then -s2 else s2, planeOffset)
    else
      var j := k - 2 * (n + 1);
      Vec3(if j % 2 == 0 then -s2 else s2, Offset(size, n, j / 2), planeOffset)
  }

  /** The coordinate -s2 + i * s of the i-th segment of either family. */
  function Offset(size: real, n: int, i: int): real
    requires n != 0
  {
    -(0.5 * size) + i as real * (size / n as real)
  }

  /** The two points the first loop appends in iteration i. */
  lemma FirstFamilyAt(size: real, n: int, planeOffset: real, i: int)
    requires n > 0 && 0 <= i <= n
    ensures RawPoint(size, n, planeOffset, 2 * i) == Vec3(Offset(size, n, i), -(0.5 * size), planeOffset)
    ensures RawPoint(size, n, planeOffset, 2 * i + 1) == Vec3(Offset(size, n, i), 0.5 * size, planeOffset)
  {
    assert (2 * i) / 2 == i && (2 * i + 1) / 2 == i;
  }

  /** The two points the second loop appends in iteration i. */
  lemma SecondFamilyAt(size: real, n: int, planeOffset: real, i: int)
    requires n > 0 && 0 <= i <= n
    ensures RawPoint(size, n, planeOffset, 2 * (n + 1) + 2 * i) == Vec3(-(0.5 * size), Offset(size, n, i), planeOffset)
    ensures RawPoint(size, n, planeOffset, 2 * (n + 1) + 2 * i + 1) == Vec3(0.5 * size, Offset(size, n, i), planeOffset)
  {
    assert (2 * i) / 2 == i && (2 * i + 1) / 2 == i && (2 * i + 1) % 2 == 1;
  }

  /** Coordinates 1 and 2 exchanged, as points[:,[2,1]] = points[:,[1,2]]
      does to one row. */
  function SwapYZ(p: Vec3): Vec3 {
    Vec3(p.c0, p.c2, p.c1)
  }

  /** The swap applied only on the 'xz' plane. */
  function Orient(plane: string, p: Vec3): Vec3 {
    if plane == "xz" then SwapYZ(p) else p
  }

  /** Component-wise addition of `t` to one row. */
  function Add(p: Vec3, t: Vec3): Vec3 {
    Vec3(p.c0 + t.c0, p.c1 + t.c1, p.c2 + t.c2)
  }

  /** The list [[i, i + 1] for i in range(start, stop, 2)]. */
  function PairsFrom(start: int, stop: int): (r: seq<(int, int)>)
    ensures |r| == if start < stop then (stop - start + 1) / 2 else 0
    ensures forall j :: 0 <= j < |r| ==> r[j] == (start + 2 * j, start + 2 * j + 1)
    decreases stop - start
  {
    if start >= stop then [] else [(start, start + 1)] + PairsFrom(start + 2, stop)
  }

  /** The lines of a point array with nPoints rows: consecutive rows 2j and
      2j + 1 joined, every index a row of the array. */
  function LineIndices(nPoints: nat): (r: seq<(int, int)>)
    ensures |r| == nPoints / 2
    ensures forall j :: 0 <= j < |r| ==> r[j] == (2 * j, 2 * j + 1)
    ensures forall j :: 0 <= j < |r| ==> 0 <= r[j].0 < r[j].1 < nPoints
  {
    PairsFrom(0, nPoints - 1)
  }

  /** The list [color] * count; a count below one gives the empty list. */
  function Repeat(color: Vec3, count: int): (r: seq<Vec3>)
    ensures |r| == if count > 0 then count else 0
    ensures forall k :: 0 <= k < |r| ==> r[k] == color
  {
    if count <= 0 then [] else [color] + Repeat(color, count - 1)
  }

  /** grid(size, n, color, plane, plane_offset, translate), with the
      source's default arguments. */
  method Grid(size: real := 10.0, n: int := 10, color: Vec3 := Vec3(0.5, 0.5, 0.5), plane: string := "xy",
              planeOffset: real := -1.0, translate: Vec3 := Vec3(0.0, 0.0, 0.0))
      returns (r: Result<LineSet, GridError>)
    ensures n == 0 <==> r == Failure(ZeroDivisionError)
    ensures n < 0 <==> r == Failure(ArrayShapeError)
    ensures n > 0 ==> r.Success?
    ensures r.Success? ==> n > 0 && |r.value.points| == 4 * (n + 1)
    ensures r.Success? ==> forall k :: 0 <= k < |r.value.points| ==>
      r.value.points[k] == Add(Orient(plane, RawPoint(size, n, planeOffset, k)), translate)
    ensures r.Success? ==> r.value.lines == LineIndices(|r.value.points|)
    ensures r.Success? ==> |r.value.lines| == 2 * (n + 1)
    ensures r.Success? ==> forall j :: 0 <= j < |r.value.lines| ==>
      0 <= r.value.lines[j].0 < r.value.lines[j].1 < |r.value.points|
    ensures r.Success? ==> r.value.colors == Repeat(color, |r.value.points| - 1)
    ensures r.Success? ==> |r.value.colors| == 2 * |r.value.lines| - 1
  {
    if n == 0 {
      return Failure(ZeroDivisionError);
    }
    var s := size / n as real;
    var s2 := 0.5 * size;
    var points: seq<Vec3> := [];
    var i := 0;
    while i < n + 1
      invariant n > 0 ==> 0 <= i <= n + 1
      invariant n < 0 ==> i == 0
      invariant |points| == 2 * i
      invariant forall k :: 0 <= k < |points| ==> points[k] == RawPoint(size, n, planeOffset, k)
    {
      var x := -s2 + i as real * s;
      FirstFamilyAt(size, n, planeOffset, i);
      points := points + [Vec3(x, -s2, planeOffset)];
      points := points + [Vec3(x, s2, planeOffset)];
      i := i + 1;
    }
    ghost var first := |points|;
    i := 0;
    while i < n + 1
      invariant n > 0 ==> 0 <= i <= n + 1 && first == 2 * (n + 1)
      invariant n < 0 ==> i == 0 && first == 0
      invariant |points| == first + 2 * i
      invariant forall k :: 0 <= k < |points| ==> points[k] == RawPoint(size, n, planeOffset, k)
    {
      var z := -s2 + i as real * s;
      SecondFamilyAt(size, n, planeOffset, i);
      points := points + [Vec3(-s2, z, planeOffset)];
      points := points + [Vec3(s2, z, planeOffset)];
      i := i + 1;
    }
    if |points| == 0 {
      return Failure(ArrayShapeError);
    }
    var rows := new Vec3[|points|](k requires 0 <= k < |points| => points[k]);
    if plane == "xz" {
      forall k | 0 <= k < rows.Length {
        rows[k] := SwapYZ(rows[k]);
      }
    }
    var moved := seq(rows.Length, k reads rows requires 0 <= k < rows.Length => Add(rows[k], translate));
    var nPoints := |moved|;
    var lines := LineIndices(nPoints);
    var colors := Repeat(color, nPoints - 1);
    r := Success(LineSet(moved, lines, colors));
  }

  /** Every point of the grid lies on the plane at height plane_offset
      before the swap. */
  lemma RawPointOnPlane(size: real, n: int, planeOffset: real, k: int)
    requires n > 0 && 0 <= k < 4 * (n + 1)
    ensures RawPoint(size, n, planeOffset, k).c2 == planeOffset
  {
  }

  /** The first segment of each family sits at -s2 and the last at +s2,
      because n steps of size / n make up size. */
  lemma OuterSegments(size: real, n: int)
    requires n > 0
    ensures Offset(size, n, 0) == -(0.5 * size)
    ensures Offset(size, n, n) == 0.5 * size
  {
    var s := size / n as real;
    assert n as real * s == size;
  }

  /** With a non-negative size, every segment lies inside the square
      [-s2, s2] x [-s2, s2]. */
  lemma OffsetInSquare(size: real, n: int, i: int)
    requires n > 0 && 0 <= i <= n && size >= 0.0
    ensures -(0.5 * size) <= Offset(size, n, i) <= 0.5 * size
  {
    var s := size / n as real;
    assert s >= 0.0;
    assert n as real * s == size;
    assert (n - i) as real * s >= 0.0;
  }

  /** Line j of the grid joins the two endpoints of one segment: for j <= n
      the segment of the first family at first coordinate Offset(j), running
      from -s2 to +s2 in the second coordinate; otherwise the segment of the
      second family, with the roles of the two coordinates exchanged. */
  lemma LineIsSegment(size: real, n: int, planeOffset: real, j: int)
    requires n > 0 && 0 <= j < |LineIndices(4 * (n + 1))|
    ensures LineIndices(4 * (n + 1))[j] == (2 * j, 2 * j + 1)
    ensures var p, q := RawPoint(size, n, planeOffset, 2 * j), RawPoint(size, n, planeOffset, 2 * j + 1);
      && p.c2 == planeOffset && q.c2 == planeOffset
      && (j <= n ==> p.c0 == q.c0 == Offset(size, n, j) && p.c1 == -(0.5 * size) && q.c1 == 0.5 * size)
      && (j > n ==> p.c1 == q.c1 == Offset(size, n, j - (n + 1)) && p.c0 == -(0.5 * size) && q.c0 == 0.5 * size)
  {
    if j <= n {
      FirstFamilyAt(size, n, planeOffset, j);
    } else {
      SecondFamilyAt(size, n, planeOffset, j - (n + 1));
    }
  }

  /** After the swap and the translation, every point lies in the square of
      side size centred on translate, on the plane plane_offset away from
      translate: across coordinates 0 and 1 at coordinate 2 on any plane but
      'xz', across coordinates 0 and 2 at coordinate 1 on 'xz'. */
  lemma PlacedInSquare(size: real, n: int, planeOffset: real, plane: string, t: Vec3, k: int)
    requires n > 0 && 0 <= k < 4 * (n + 1) && size >= 0.0
    ensures var q := Add(Orient(plane, RawPoint(size, n, planeOffset, k)), t);
      && t.c0 - 0.5 * size <= q.c0 <= t.c0 + 0.5 * size
      && (plane != "xz" ==> t.c1 - 0.5 * size <= q.c1 <= t.c1 + 0.5 * size && q.c2 == t.c2 + planeOffset)
      && (plane == "xz" ==> t.c2 - 0.5 * size <= q.c2 <= t.c2 + 0.5 * size && q.c1 == t.c1 + planeOffset)
  {
    if k < 2 * (n + 1) {
      OffsetInSquare(size, n, k / 2);
    } else {
      OffsetInSquare(size, n, (k - 2 * (n + 1)) / 2);
    }
  }

  /** Swapping twice restores the row: the 'xz' swap is its own inverse. */
  lemma OrientInvolution(plane: string, p: Vec3)
    ensures Orient(plane, Orient(plane, p)) == p
  {
  }

  /** On the 'xz' plane the grid lies at coordinate 1 equal to plane_offset,
      its two families running along coordinates 0 and 2; on any other plane
      it lies at coordinate 2 equal to plane_offset. */
  lemma OrientedGridPlane(size: real, n: int, planeOffset: real, plane: string, k: int)
    requires n > 0 && 0 <= k < 4 * (n + 1)
    ensures var q := Orient(plane, RawPoint(size, n, planeOffset, k));
      && (plane == "xz" ==> q.c1 == planeOffset && q.c2 == RawPoint(size, n, planeOffset, k).c1)
      && (plane != "xz" ==> q.c2 == planeOffset)
  {
    RawPointOnPlane(size, n, planeOffset, k);
  }
}
