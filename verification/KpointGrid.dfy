/**
 The points of a full-zone mesh and the search for the one grid that contains
 given points (backend/calculations/hse_band_kpoints.py:52-69, 184-205).
 */
module KpointGrid {
  import opened Wrappers
  import opened KpointMesh

  // InvalidMesh: not three positive divisions. MeshTooShort: fewer than three
  // (Python's IndexError). The others name the messages of the source.
  datatype MeshError =
    | InvalidMesh | MeshTooShort | NoUniqueGrid
    | WeightsMissing | NothingWeighted | NoPath | WrongTotal

  datatype Offset = Offset(x: Shift, y: Shift, z: Shift)

  // The eight offsets, in the order in which they are tried.
  const OFFSETS: seq<Offset> := [
    Offset(Centred, Centred, Centred), Offset(Centred, Centred, Half),
    Offset(Centred, Half, Centred), Offset(Centred, Half, Half),
    Offset(Half, Centred, Centred), Offset(Half, Centred, Half),
    Offset(Half, Half, Centred), Offset(Half, Half, Half)]

  predicate ValidMesh(mesh: seq<int>) {
    |mesh| == 3 && mesh[0] >= 1 && mesh[1] >= 1 && mesh[2] >= 1
  }

  function MeshSize(mesh: seq<int>): int
    requires |mesh| >= 3
  {
    mesh[0] * mesh[1] * mesh[2]
  }

  // ---------------------------------------------------------- all the points

  function Axis(n: nat, s: Shift): (axis: seq<real>)
    requires n > 0
  {
    seq(n, i requires 0 <= i < n => AxisPoint(n, s, i))
  }

  function Line(x: real, y: real, zs: seq<real>): seq<Point> {
    seq(|zs|, k requires 0 <= k < |zs| => Point(x, y, zs[k]))
  }

  function Plane(x: real, ys: seq<real>, zs: seq<real>): seq<Point> {
    if ys == [] then [] else Line(x, ys[0], zs) + Plane(x, ys[1..], zs)
  }

  // The Cartesian product, the last axis running fastest.
  function Product(xs: seq<real>, ys: seq<real>, zs: seq<real>): seq<Point> {
    if xs == [] then [] else Plane(xs[0], ys, zs) + Product(xs[1..], ys, zs)
  }

  function MeshPoints(mesh: seq<int>, o: Offset): seq<Point>
    requires ValidMesh(mesh)
  {
    Product(Axis(mesh[0], o.x), Axis(mesh[1], o.y), Axis(mesh[2], o.z))
  }

  method FullZoneMeshPoints(mesh: seq<int>, o: Offset) returns (r: Result<seq<Point>, MeshError>)
    ensures r == if ValidMesh(mesh) then Success(MeshPoints(mesh, o)) else Failure(InvalidMesh)
    ensures r.Success? <==> |mesh| == 3 && forall k :: 0 <= k < |mesh| ==> mesh[k] > 0
  {
    if |mesh| != 3 || mesh[0] < 1 || mesh[1] < 1 || mesh[2] < 1 {
      return Failure(InvalidMesh);
    }
    var shifts := [o.x, o.y, o.z];
    var axes: seq<seq<real>> := [];
    var a := 0;
    while a < 3
      invariant 0 <= a <= 3 && |axes| == a
      invariant forall b :: 0 <= b < a ==> axes[b] == Axis(mesh[b], shifts[b])
    {
      axes := axes + [Axis(mesh[a], shifts[a])];
      a := a + 1;
    }
    r := Success(Product(axes[0], axes[1], axes[2]));
  }

  lemma MoreRows(n: nat, width: nat)
    requires n > 0
    ensures n * width == width + (n - 1) * width
  {
  }

  lemma InFirstOrRest(xs: seq<real>, x: real)
    requires xs != []
    ensures x in xs <==> x == xs[0] || x in xs[1..]
  {
    assert xs == [xs[0]] + xs[1..];
  }

  lemma LineHas(x: real, y: real, zs: seq<real>, p: Point)
    ensures p in Line(x, y, zs) <==> p.x == x && p.y == y && p.z in zs
  {
    if p.x == x && p.y == y && p.z in zs {
      var k :| 0 <= k < |zs| && zs[k] == p.z;
      assert Line(x, y, zs)[k] == p;
    }
  }

  lemma {:induction false} PlaneSize(x: real, ys: seq<real>, zs: seq<real>)
    ensures |Plane(x, ys, zs)| == |ys| * |zs|
  {
    if ys != [] {
      PlaneSize(x, ys[1..], zs);
      MoreRows(|ys|, |zs|);
    }
  }

  lemma {:induction false} PlaneHas(x: real, ys: seq<real>, zs: seq<real>, p: Point)
    ensures p in Plane(x, ys, zs) <==> p.x == x && p.y in ys && p.z in zs
  {
    if ys != [] {
      PlaneHas(x, ys[1..], zs, p);
      LineHas(x, ys[0], zs, p);
      InFirstOrRest(ys, p.y);
    }
  }

  lemma {:induction false} ProductSize(xs: seq<real>, ys: seq<real>, zs: seq<real>)
    ensures |Product(xs, ys, zs)| == |xs| * (|ys| * |zs|)
  {
    if xs != [] {
      PlaneSize(xs[0], ys, zs);
      ProductSize(xs[1..], ys, zs);
      MoreRows(|xs|, |ys| * |zs|);
    }
  }

  lemma {:induction false} ProductHas(xs: seq<real>, ys: seq<real>, zs: seq<real>, p: Point)
    ensures p in Product(xs, ys, zs) <==> p.x in xs && p.y in ys && p.z in zs
  {
    if xs != [] {
      PlaneHas(xs[0], ys, zs, p);
      ProductHas(xs[1..], ys, zs, p);
      InFirstOrRest(xs, p.x);
    }
  }

  // On the mesh: every coordinate is a division of its axis.
  ghost predicate OnMesh(mesh: seq<int>, o: Offset, p: Point)
    requires ValidMesh(mesh)
  {
    p.x in Axis(mesh[0], o.x) && p.y in Axis(mesh[1], o.y) && p.z in Axis(mesh[2], o.z)
  }

  lemma Associative(a: int, b: int, c: int)
    ensures a * (b * c) == a * b * c
  {
  }

  // The mesh lists n1*n2*n3 points, and they are all the grid points.
  lemma MeshIsComplete(mesh: seq<int>, o: Offset, p: Point)
    requires ValidMesh(mesh)
    ensures |MeshPoints(mesh, o)| == MeshSize(mesh)
    ensures p in MeshPoints(mesh, o) <==> OnMesh(mesh, o, p)
  {
    ProductHas(Axis(mesh[0], o.x), Axis(mesh[1], o.y), Axis(mesh[2], o.z), p);
    ProductSize(Axis(mesh[0], o.x), Axis(mesh[1], o.y), Axis(mesh[2], o.z));
    Associative(mesh[0], mesh[1], mesh[2]);
  }

  // ------------------------------------------------------------ distinct keys

  ghost predicate KeysDiffer(ps: seq<Point>) {
    forall a, b :: 0 <= a < b < |ps| ==> PointKey(ps[a]) != PointKey(ps[b])
  }

  ghost predicate AxisKeysDiffer(xs: seq<real>) {
    forall a, b :: 0 <= a < b < |xs| ==> AxisKey(xs[a]) != AxisKey(xs[b])
  }

  ghost predicate Apart(ps: seq<Point>, qs: seq<Point>) {
    forall p, q :: p in ps && q in qs ==> PointKey(p) != PointKey(q)
  }

  lemma JoinApart(ps: seq<Point>, qs: seq<Point>)
    requires KeysDiffer(ps) && KeysDiffer(qs) && Apart(ps, qs)
    ensures KeysDiffer(ps + qs)
  {
    var all := ps + qs;
    forall a, b | 0 <= a < b < |all| ensures PointKey(all[a]) != PointKey(all[b]) {
      if a < |ps| <= b { assert all[a] in ps && all[b] in qs; }
    }
  }

  lemma HeadApart(xs: seq<real>, x: real)
    requires |xs| > 0 && AxisKeysDiffer(xs) && x in xs[1..]
    ensures AxisKey(xs[0]) != AxisKey(x)
  {
    var k :| 0 <= k < |xs| - 1 && xs[1..][k] == x;
    assert xs[k + 1] == x;
  }

  lemma {:induction false} PlaneKeysDiffer(x: real, ys: seq<real>, zs: seq<real>)
    requires AxisKeysDiffer(ys) && AxisKeysDiffer(zs)
    ensures KeysDiffer(Plane(x, ys, zs))
  {
    if ys != [] {
      PlaneKeysDiffer(x, ys[1..], zs);
      forall p, q | p in Line(x, ys[0], zs) && q in Plane(x, ys[1..], zs)
        ensures PointKey(p) != PointKey(q)
      {
        PlaneHas(x, ys[1..], zs, q);
        HeadApart(ys, q.y);
      }
      JoinApart(Line(x, ys[0], zs), Plane(x, ys[1..], zs));
    }
  }

  lemma {:induction false} ProductKeysDiffer(xs: seq<real>, ys: seq<real>, zs: seq<real>)
    requires AxisKeysDiffer(xs) && AxisKeysDiffer(ys) && AxisKeysDiffer(zs)
    ensures KeysDiffer(Product(xs, ys, zs))
  {
    if xs != [] {
      ProductKeysDiffer(xs[1..], ys, zs);
      PlaneKeysDiffer(xs[0], ys, zs);
      forall p, q | p in Plane(xs[0], ys, zs) && q in Product(xs[1..], ys, zs)
        ensures PointKey(p) != PointKey(q)
      {
        PlaneHas(xs[0], ys, zs, p);
        ProductHas(xs[1..], ys, zs, q);
        HeadApart(xs, q.x);
      }
      JoinApart(Plane(xs[0], ys, zs), Product(xs[1..], ys, zs));
    }
  }

  lemma AxisDiffers(n: nat, s: Shift)
    requires 0 < n < SCALE
    ensures AxisKeysDiffer(Axis(n, s))
  {
    forall a, b | 0 <= a < b < n ensures AxisKey(Axis(n, s)[a]) != AxisKey(Axis(n, s)[b]) {
      SameShiftDistinct(n, s, a, b);
    }
  }

  // No two of the mesh points share a key while no axis has a million divisions.
  lemma MeshKeysDiffer(mesh: seq<int>, o: Offset)
    requires ValidMesh(mesh) && mesh[0] < SCALE && mesh[1] < SCALE && mesh[2] < SCALE
    ensures KeysDiffer(MeshPoints(mesh, o))
  {
    AxisDiffers(mesh[0], o.x);
    AxisDiffers(mesh[1], o.y);
    AxisDiffers(mesh[2], o.z);
    ProductKeysDiffer(Axis(mesh[0], o.x), Axis(mesh[1], o.y), Axis(mesh[2], o.z));
  }

  // ---------------------------------------------------------- the unique grid

  function Keys(ps: seq<Point>): set<Key> { set p | p in ps :: PointKey(p) }

  predicate Fits(mesh: seq<int>, o: Offset, weighted: seq<Point>)
    requires ValidMesh(mesh)
  {
    forall p :: p in weighted ==> PointKey(p) in Keys(MeshPoints(mesh, o))
  }

  function Fitting(mesh: seq<int>, offsets: seq<Offset>, weighted: seq<Point>): seq<Offset>
    requires ValidMesh(mesh)
  {
    if offsets == [] then []
    else
      var rest := Fitting(mesh, offsets[..|offsets| - 1], weighted);
      var last := offsets[|offsets| - 1];
      if Fits(mesh, last, weighted) then rest + [last] else rest
  }

  function Match(mesh: seq<int>, weighted: seq<Point>): Result<seq<Point>, MeshError> {
    if !ValidMesh(mesh) then Failure(InvalidMesh)
    else
      var fitting := Fitting(mesh, OFFSETS, weighted);
      if |fitting| == 1 then Success(MeshPoints(mesh, fitting[0])) else Failure(NoUniqueGrid)
  }

  lemma FittingStep(mesh: seq<int>, offsets: seq<Offset>, i: nat, weighted: seq<Point>)
    requires ValidMesh(mesh) && i < |offsets|
    ensures Fitting(mesh, offsets[..i + 1], weighted) ==
      Fitting(mesh, offsets[..i], weighted) + if Fits(mesh, offsets[i], weighted) then [offsets[i]] else []
  {
    assert offsets[..i + 1][..i] == offsets[..i];
  }

  // The grids of the offsets that fit, or the refusal of the mesh.
  method FittingGrids(weighted: seq<Point>, mesh: seq<int>, offsets: seq<Offset>)
    returns (r: Result<seq<seq<Point>>, MeshError>)
    requires offsets != []
    ensures !ValidMesh(mesh) ==> r == Failure(InvalidMesh)
    ensures ValidMesh(mesh) ==> r.Success? && AreGridsOf(mesh, r.value, Fitting(mesh, offsets, weighted))
  {
    var matches: seq<seq<Point>> := [];
    ghost var found: seq<Offset> := [];
    var i := 0;
    while i < |offsets|
      invariant 0 <= i <= |offsets| && (i > 0 ==> ValidMesh(mesh))
      invariant ValidMesh(mesh) ==> found == Fitting(mesh, offsets[..i], weighted) && AreGridsOf(mesh, matches, found)
    {
      var points := FullZoneMeshPoints(mesh, offsets[i]);
      if points.Failure? { return Failure(points.error); }
      FittingStep(mesh, offsets, i, weighted);
      var keys := Keys(points.value);
      if forall p :: p in weighted ==> PointKey(p) in keys {
        matches, found := matches + [points.value], found + [offsets[i]];
      }
      i := i + 1;
    }
    assert offsets[..i] == offsets;
    r := Success(matches);
  }

  ghost predicate AreGridsOf(mesh: seq<int>, grids: seq<seq<Point>>, offsets: seq<Offset>)
    requires ValidMesh(mesh)
  {
    |grids| == |offsets| && forall k :: 0 <= k < |offsets| ==> grids[k] == MeshPoints(mesh, offsets[k])
  }

  method MatchingFullZoneMesh(weighted: seq<Point>, mesh: seq<int>)
    returns (r: Result<seq<Point>, MeshError>)
    ensures r == Match(mesh, weighted)
  {
    var matches := FittingGrids(weighted, mesh, OFFSETS);
    if matches.Failure? { return Failure(InvalidMesh); }
    if |matches.value| != 1 { return Failure(NoUniqueGrid); }
    r := Success(matches.value[0]);
  }

  ghost predicate OnlyFit(mesh: seq<int>, o: Offset, weighted: seq<Point>)
    requires ValidMesh(mesh)
  {
    Fits(mesh, o, weighted) && forall other :: Fits(mesh, other, weighted) ==> other == o
  }

  lemma {:induction false} FittingHas(mesh: seq<int>, offsets: seq<Offset>, weighted: seq<Point>, o: Offset)
    requires ValidMesh(mesh)
    ensures o in Fitting(mesh, offsets, weighted) <==> o in offsets && Fits(mesh, o, weighted)
  {
    if offsets != [] {
      var front := offsets[..|offsets| - 1];
      FittingHas(mesh, front, weighted, o);
      assert offsets == front + [offsets[|offsets| - 1]];
    }
  }

  ghost predicate NoRepeats(offsets: seq<Offset>) {
    forall a, b :: 0 <= a < b < |offsets| ==> offsets[a] != offsets[b]
  }

  lemma {:induction false} FittingNoRepeats(mesh: seq<int>, offsets: seq<Offset>, weighted: seq<Point>)
    requires ValidMesh(mesh) && NoRepeats(offsets)
    ensures NoRepeats(Fitting(mesh, offsets, weighted))
  {
    if offsets != [] {
      var n := |offsets| - 1;
      var front := offsets[..n];
      FittingNoRepeats(mesh, front, weighted);
      FittingHas(mesh, front, weighted, offsets[n]);
      assert offsets[n] !in front;
    }
  }

  lemma EveryOffset(o: Offset)
    ensures o in OFFSETS && NoRepeats(OFFSETS)
  {
    var k := (if o.x.Half? then 4 else 0) + (if o.y.Half? then 2 else 0) + if o.z.Half? then 1 else 0;
    assert OFFSETS[k] == o;
  }

  lemma OnlyElement(s: seq<Offset>, o: Offset)
    requires NoRepeats(s) && o in s && forall k :: 0 <= k < |s| ==> s[k] == o
    ensures s == [o]
  {
    assert |s| > 1 ==> s[0] == s[1];
  }

  lemma ExactlyOne(mesh: seq<int>, weighted: seq<Point>, fitting: seq<Offset>)
    requires ValidMesh(mesh) && NoRepeats(fitting)
    requires forall o :: o in fitting <==> Fits(mesh, o, weighted)
    ensures |fitting| == 1 <==> exists o :: OnlyFit(mesh, o, weighted)
    ensures forall o :: OnlyFit(mesh, o, weighted) ==> fitting == [o]
  {
    if |fitting| == 1 { assert OnlyFit(mesh, fitting[0], weighted); }
    forall o | OnlyFit(mesh, o, weighted) ensures fitting == [o] {
      assert forall k :: 0 <= k < |fitting| ==> fitting[k] in fitting;
      OnlyElement(fitting, o);
    }
  }

  lemma EveryFit(mesh: seq<int>, weighted: seq<Point>)
    requires ValidMesh(mesh)
    ensures var fitting := Fitting(mesh, OFFSETS, weighted);
      NoRepeats(fitting) && forall o :: o in fitting <==> Fits(mesh, o, weighted)
  {
    var offsets := OFFSETS;
    EveryOffset(Offset(Centred, Centred, Centred));
    FittingNoRepeats(mesh, offsets, weighted);
    forall o ensures o in Fitting(mesh, offsets, weighted) <==> Fits(mesh, o, weighted) {
      EveryOffset(o);
      FittingHas(mesh, offsets, weighted, o);
    }
  }

  // The search succeeds exactly when one offset fits and no other does, and then
  // it returns the mesh of that offset.
  lemma MatchExactly(mesh: seq<int>, weighted: seq<Point>)
    ensures Match(mesh, weighted).Success? <==> ValidMesh(mesh) && exists o :: OnlyFit(mesh, o, weighted)
    ensures ValidMesh(mesh) ==> forall o :: OnlyFit(mesh, o, weighted) ==>
      Match(mesh, weighted) == Success(MeshPoints(mesh, o))
  {
    if ValidMesh(mesh) {
      EveryFit(mesh, weighted);
      ExactlyOne(mesh, weighted, Fitting(mesh, OFFSETS, weighted));
    }
  }

  // ------------------------------------------------------------ no ambiguity

  ghost predicate NeverAmbiguous(mesh: seq<int>)
    requires ValidMesh(mesh)
  {
    forall weighted, o, other ::
      |weighted| > 0 && Fits(mesh, o, weighted) && Fits(mesh, other, weighted) ==> o == other
  }

  predicate Moderate(mesh: seq<int>)
    requires ValidMesh(mesh)
  {
    2 * mesh[0] <= SCALE && 2 * mesh[1] <= SCALE && 2 * mesh[2] <= SCALE
  }

  lemma AxisTellsShift(n: nat, s: Shift, t: Shift, x: real, y: real)
    requires 0 < n && 2 * n <= SCALE && x in Axis(n, s) && y in Axis(n, t) && AxisKey(x) == AxisKey(y)
    ensures s == t
  {
    var i :| 0 <= i < n && Axis(n, s)[i] == x;
    var j :| 0 <= j < n && Axis(n, t)[j] == y;
    if s == Centred && t == Half { ShiftsDistinct(n, i, j); }
    if s == Half && t == Centred { ShiftsDistinct(n, j, i); }
  }

  lemma PointTellsOffset(mesh: seq<int>, o: Offset, other: Offset, p: Point, q: Point)
    requires ValidMesh(mesh) && Moderate(mesh)
    requires OnMesh(mesh, o, p) && OnMesh(mesh, other, q) && PointKey(p) == PointKey(q)
    ensures o == other
  {
    AxisTellsShift(mesh[0], o.x, other.x, p.x, q.x);
    AxisTellsShift(mesh[1], o.y, other.y, p.y, q.y);
    AxisTellsShift(mesh[2], o.z, other.z, p.z, q.z);
  }

  lemma AtMostOneGrid(mesh: seq<int>, o: Offset, other: Offset, weighted: seq<Point>)
    requires ValidMesh(mesh) && Moderate(mesh) && |weighted| > 0
    requires Fits(mesh, o, weighted) && Fits(mesh, other, weighted)
    ensures o == other
  {
    var key := PointKey(weighted[0]);
    assert weighted[0] in weighted;
    var p :| p in MeshPoints(mesh, o) && PointKey(p) == key;
    var q :| q in MeshPoints(mesh, other) && PointKey(q) == key;
    MeshIsComplete(mesh, o, p);
    MeshIsComplete(mesh, other, q);
    PointTellsOffset(mesh, o, other, p, q);
  }

  lemma FitsOne(mesh: seq<int>, o: Offset, p: Point, q: Point)
    requires ValidMesh(mesh) && OnMesh(mesh, o, q) && PointKey(p) == PointKey(q)
    ensures Fits(mesh, o, [p])
  {
    MeshIsComplete(mesh, o, q);
    assert PointKey(q) in Keys(MeshPoints(mesh, o));
  }

  lemma AxisHas(n: nat, s: Shift, i: nat)
    requires i < n
    ensures AxisPoint(n, s, i) in Axis(n, s)
  {
    assert Axis(n, s)[i] == AxisPoint(n, s, i);
  }

  // Above half a million divisions some point lies on two grids.
  lemma TwoGrids(mesh: seq<int>)
    requires ValidMesh(mesh) && !Moderate(mesh)
    ensures exists p, o, other :: o != other && Fits(mesh, o, [p]) && Fits(mesh, other, [p])
  {
    var x, y, z := AxisPoint(mesh[0], Centred, 0), AxisPoint(mesh[1], Centred, 0), AxisPoint(mesh[2], Centred, 0);
    AxisHas(mesh[0], Centred, 0);
    AxisHas(mesh[1], Centred, 0);
    AxisHas(mesh[2], Centred, 0);
    var p, q, other: Offset;
    if 2 * mesh[0] > SCALE {
      var i, j := Collision(mesh[0]);
      AxisHas(mesh[0], Centred, i);
      AxisHas(mesh[0], Half, j);
      p, q := Point(AxisPoint(mesh[0], Centred, i), y, z), Point(AxisPoint(mesh[0], Half, j), y, z);
      other := Offset(Half, Centred, Centred);
    } else if 2 * mesh[1] > SCALE {
      var i, j := Collision(mesh[1]);
      AxisHas(mesh[1], Centred, i);
      AxisHas(mesh[1], Half, j);
      p, q := Point(x, AxisPoint(mesh[1], Centred, i), z), Point(x, AxisPoint(mesh[1], Half, j), z);
      other := Offset(Centred, Half, Centred);
    } else {
      var i, j := Collision(mesh[2]);
      AxisHas(mesh[2], Centred, i);
      AxisHas(mesh[2], Half, j);
      p, q := Point(x, y, AxisPoint(mesh[2], Centred, i)), Point(x, y, AxisPoint(mesh[2], Half, j));
      other := Offset(Centred, Centred, Half);
    }
    FitsOne(mesh, Offset(Centred, Centred, Centred), p, p);
    FitsOne(mesh, other, p, q);
  }

  // No non-empty set of points ever fits two grids exactly when no axis has more
  // than half a million divisions.
  lemma NeverAmbiguousExactly(mesh: seq<int>)
    requires ValidMesh(mesh)
    ensures NeverAmbiguous(mesh) <==> Moderate(mesh)
  {
    if Moderate(mesh) {
      forall weighted: seq<Point>, o, other |
        |weighted| > 0 && Fits(mesh, o, weighted) && Fits(mesh, other, weighted)
        ensures o == other
      {
        AtMostOneGrid(mesh, o, other, weighted);
      }
    } else {
      TwoGrids(mesh);
    }
  }

  // ------------------------------------------------------ the documented interval

  predicate PointInDocumentedRange(p: Point) {
    InDocumentedRange(p.x) && InDocumentedRange(p.y) && InDocumentedRange(p.z)
  }

  ghost predicate MeshesInDocumentedRange(mesh: seq<int>)
    requires ValidMesh(mesh)
  {
    forall o, p :: p in MeshPoints(mesh, o) ==> PointInDocumentedRange(p)
  }

  lemma AxisMemberInRange(n: nat, s: Shift, x: real)
    requires 0 < n < 500_000 && x in Axis(n, s)
    ensures InDocumentedRange(x)
  {
    AxisInDocumentedRangeExactly(n);
    var i :| 0 <= i < n && Axis(n, s)[i] == x;
    assert InDocumentedRange(AxisPoint(n, s, i));
  }

  // Every point of every mesh lies in the documented interval exactly when no axis has half
  // a million divisions or more.
  lemma MeshesInDocumentedRangeExactly(mesh: seq<int>)
    requires ValidMesh(mesh)
    ensures MeshesInDocumentedRange(mesh) <==> mesh[0] < 500_000 && mesh[1] < 500_000 && mesh[2] < 500_000
  {
    if mesh[0] < 500_000 && mesh[1] < 500_000 && mesh[2] < 500_000 {
      forall o, p | p in MeshPoints(mesh, o) ensures PointInDocumentedRange(p) {
        MeshIsComplete(mesh, o, p);
        AxisMemberInRange(mesh[0], o.x, p.x);
        AxisMemberInRange(mesh[1], o.y, p.y);
        AxisMemberInRange(mesh[2], o.z, p.z);
      }
    } else {
      var o, p := PointOutOfRange(mesh);
      assert !PointInDocumentedRange(p);
    }
  }

  lemma PointOutOfRange(mesh: seq<int>) returns (o: Offset, p: Point)
    requires ValidMesh(mesh) && (mesh[0] >= 500_000 || mesh[1] >= 500_000 || mesh[2] >= 500_000)
    ensures p in MeshPoints(mesh, o) && !PointInDocumentedRange(p)
  {
    var a, i := FarPlace(mesh[0]);
    var b, j := FarPlace(mesh[1]);
    var c, k := FarPlace(mesh[2]);
    o, p := Offset(a, b, c), Point(AxisPoint(mesh[0], a, i), AxisPoint(mesh[1], b, j), AxisPoint(mesh[2], c, k));
    AxisHas(mesh[0], a, i);
    AxisHas(mesh[1], b, j);
    AxisHas(mesh[2], c, k);
    MeshIsComplete(mesh, o, p);
  }

  // Some place of the axis, out of the documented interval if the axis is long.
  lemma FarPlace(n: nat) returns (s: Shift, i: nat)
    requires n > 0
    ensures i < n && (n >= 500_000 ==> !InDocumentedRange(AxisPoint(n, s, i)))
  {
    s, i := Centred, 0;
    if n >= 500_000 { s, i := PlaceJustBeyondHalf(n); }
  }
}
