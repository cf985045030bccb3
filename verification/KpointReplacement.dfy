/**
 The replacement of the weighted points of an HSE06 band-structure k-point list by
 the full mesh (backend/calculations/hse_band_kpoints.py:72-128).
 */
module KpointReplacement {
  import opened Wrappers
  import opened KpointMesh
  import opened KpointGrid

  // An explicit k-point list. Absent weights or labels are empty sequences.
  datatype Kpoints = Kpoints(count: nat, points: seq<Point>, weights: seq<real>, labels: seq<Option<string>>)

  datatype PathPoint = PathPoint(point: Point, name: Option<string>)

  function Nameless(n: nat): seq<Option<string>> { seq(n, i => None) }

  function LabelsOf(k: Kpoints): (labels: seq<Option<string>>) {
    if |k.labels| == |k.points| then k.labels else Nameless(|k.points|)
  }

  function Weighted(points: seq<Point>, weights: seq<real>): seq<Point>
    requires |points| == |weights|
  {
    if points == [] then []
    else (if weights[0] > 0.0 then [points[0]] else []) + Weighted(points[1..], weights[1..])
  }

  function Path(points: seq<Point>, weights: seq<real>, labels: seq<Option<string>>): seq<PathPoint>
    requires |points| == |weights| == |labels|
  {
    if points == [] then []
    else
      (if weights[0] == 0.0 then [PathPoint(points[0], labels[0])] else [])
      + Path(points[1..], weights[1..], labels[1..])
  }

  function PositiveTotal(weights: seq<real>): real {
    if weights == [] then 0.0
    else (if weights[0] > 0.0 then weights[0] else 0.0) + PositiveTotal(weights[1..])
  }

  function Absolute(x: real): real { if x < 0.0 then -x else x }

  predicate TotalAgrees(weights: seq<real>, mesh: seq<int>)
    requires |mesh| >= 3
  {
    Absolute(PositiveTotal(weights) - MeshSize(mesh) as real) <= TOLERANCE
  }

  function Constant(n: nat, w: real): seq<real> { seq(n, i => w) }

  function Combined(grid: seq<Point>, path: seq<PathPoint>): Kpoints {
    Kpoints(
      |grid| + |path|,
      grid + seq(|path|, i requires 0 <= i < |path| => path[i].point),
      Constant(|grid|, 1.0) + Constant(|path|, 0.0),
      Nameless(|grid|) + seq(|path|, i requires 0 <= i < |path| => path[i].name))
  }

  function ReplaceWeighted(k: Kpoints, mesh: seq<int>): Result<Kpoints, MeshError> {
    if |k.weights| != |k.points| then Failure(WeightsMissing)
    else
      var weighted := Weighted(k.points, k.weights);
      var path := Path(k.points, k.weights, LabelsOf(k));
      if weighted == [] then Failure(NothingWeighted)
      else if path == [] then Failure(NoPath)
      else if |mesh| < 3 then Failure(MeshTooShort)
      else if !TotalAgrees(k.weights, mesh) then Failure(WrongTotal)
      else
        match Match(mesh, weighted)
        case Failure(e) => Failure(e)
        case Success(grid) => Success(Combined(grid, path))
  }

  // ------------------------------------------------------------- near points

  // Equal up to a whole number and a millionth.
  ghost predicate Near(x: real, y: real) { exists m: int :: NearBy(x, y, m) }

  predicate NearBy(x: real, y: real, m: int) { Absolute(x - y - m as real) <= TOLERANCE }

  lemma EqualKeysAreNear(x: real, y: real)
    requires AxisKey(x) == AxisKey(y)
    ensures Near(x, y)
  {
    KeyOfFolded(x);
    KeyOfFolded(y);
    var a, b := Frac(x) * SCALE as real, Frac(y) * SCALE as real;
    RoundBounds(a);
    RoundBounds(b);
    var t := Round(a) / SCALE - Round(b) / SCALE;
    assert Round(a) - Round(b) == SCALE * t;
    var m := x.Floor - y.Floor + t;
    assert NearBy(x, y, m);
  }

  ghost predicate NearPoint(p: Point, q: Point) { Near(p.x, q.x) && Near(p.y, q.y) && Near(p.z, q.z) }

  lemma EqualPointKeysAreNear(p: Point, q: Point)
    requires PointKey(p) == PointKey(q)
    ensures NearPoint(p, q)
  {
    EqualKeysAreNear(p.x, q.x);
    EqualKeysAreNear(p.y, q.y);
    EqualKeysAreNear(p.z, q.z);
  }

  // --------------------------------------------------------------- the lists

  lemma {:induction false} WeightedHas(points: seq<Point>, weights: seq<real>, i: nat)
    requires |points| == |weights| && i < |points| && weights[i] > 0.0
    ensures points[i] in Weighted(points, weights)
  {
    if i > 0 { WeightedHas(points[1..], weights[1..], i - 1); }
  }

  // Where a path point comes from: an increasing list of all the zero-weight places.
  ghost predicate ZeroPlaces(weights: seq<real>, at: seq<nat>) {
    && (forall i :: 0 <= i < |at| ==> at[i] < |weights| && weights[at[i]] == 0.0)
    && (forall i, j :: 0 <= i < j < |at| ==> at[i] < at[j])
    && (forall k :: 0 <= k < |weights| && weights[k] == 0.0 ==> k in at)
  }

  function Shifted(at: seq<nat>): (s: seq<nat>) { seq(|at|, i requires 0 <= i < |at| => at[i] + 1) }

  lemma ZeroPlacesLater(weights: seq<real>, rest: seq<nat>)
    requires weights != [] && ZeroPlaces(weights[1..], rest)
    ensures var at := Shifted(rest);
      && (forall i :: 0 <= i < |at| ==> 0 < at[i] < |weights| && weights[at[i]] == 0.0)
      && (forall i, j :: 0 <= i < j < |at| ==> at[i] < at[j])
      && (forall k :: 0 < k < |weights| && weights[k] == 0.0 ==> k in at)
  {
    var at := Shifted(rest);
    forall i | 0 <= i < |at| ensures 0 < at[i] < |weights| && weights[at[i]] == 0.0 {
      assert weights[1..][rest[i]] == 0.0;
    }
    forall k | 0 < k < |weights| && weights[k] == 0.0 ensures k in at {
      assert weights[1..][k - 1] == 0.0;
      var j :| 0 <= j < |rest| && rest[j] == k - 1;
      assert at[j] == k;
    }
  }

  lemma ZeroPlacesStep(weights: seq<real>, rest: seq<nat>, at: seq<nat>)
    requires weights != [] && ZeroPlaces(weights[1..], rest)
    requires at == (if weights[0] == 0.0 then [0] else []) + Shifted(rest)
    ensures ZeroPlaces(weights, at)
  {
    ZeroPlacesLater(weights, rest);
    if weights[0] == 0.0 {
      assert at[0] == 0;
      assert at == [0] + Shifted(rest);
    } else {
      assert at == Shifted(rest);
    }
  }

  ghost predicate PathAt(path: seq<PathPoint>, points: seq<Point>, labels: seq<Option<string>>, at: seq<nat>)
    requires |points| == |labels|
  {
    |path| == |at| && forall i :: 0 <= i < |at| ==> at[i] < |points| && path[i] == PathPoint(points[at[i]], labels[at[i]])
  }

  lemma PathAtStep(path: seq<PathPoint>, points: seq<Point>, labels: seq<Option<string>>, rest: seq<nat>)
    requires |points| == |labels| > 0 && PathAt(path, points[1..], labels[1..], rest)
    ensures PathAt(path, points, labels, Shifted(rest))
    ensures PathAt([PathPoint(points[0], labels[0])] + path, points, labels, [0] + Shifted(rest))
  {
    var at := Shifted(rest);
    forall i | 0 <= i < |at| ensures at[i] < |points| && path[i] == PathPoint(points[at[i]], labels[at[i]]) {
      assert points[1..][rest[i]] == points[at[i]] && labels[1..][rest[i]] == labels[at[i]];
    }
  }

  lemma FirstOf(points: seq<Point>, weights: seq<real>, labels: seq<Option<string>>, later: seq<nat>, at: seq<nat>)
    requires |points| == |weights| == |labels| > 0
    requires at == (if weights[0] == 0.0 then [0] else []) + later
    ensures var path := Path(points[1..], weights[1..], labels[1..]);
      && (weights[0] == 0.0 ==>
            at == [0] + later && Path(points, weights, labels) == [PathPoint(points[0], labels[0])] + path)
      && (weights[0] != 0.0 ==> at == later && Path(points, weights, labels) == path)
  {
  }

  lemma {:induction false} PathPlaces(points: seq<Point>, weights: seq<real>, labels: seq<Option<string>>)
    returns (at: seq<nat>)
    requires |points| == |weights| == |labels|
    ensures ZeroPlaces(weights, at) && PathAt(Path(points, weights, labels), points, labels, at)
  {
    if points == [] {
      at := [];
    } else {
      var rest := PathPlaces(points[1..], weights[1..], labels[1..]);
      var path := Path(points[1..], weights[1..], labels[1..]);
      PathAtStep(path, points, labels, rest);
      at := (if weights[0] == 0.0 then [0] else []) + Shifted(rest);
      ZeroPlacesStep(weights, rest, at);
      FirstOf(points, weights, labels, Shifted(rest), at);
    }
  }

  lemma {:induction false} MeshWeights(ones: nat, zeros: nat)
    ensures PositiveTotal(Constant(ones, 1.0) + Constant(zeros, 0.0)) == ones as real
    decreases ones + zeros
  {
    var weights := Constant(ones, 1.0) + Constant(zeros, 0.0);
    if ones > 0 {
      MeshWeights(ones - 1, zeros);
      assert weights[1..] == Constant(ones - 1, 1.0) + Constant(zeros, 0.0);
    } else if zeros > 0 {
      MeshWeights(ones, zeros - 1);
      assert weights[1..] == Constant(ones, 1.0) + Constant(zeros - 1, 0.0);
    }
  }

  // Combining and taking apart again gives the mesh and the path.
  lemma {:induction false} CombinedTakenApart(grid: seq<Point>, path: seq<PathPoint>)
    ensures var k := Combined(grid, path);
      Weighted(k.points, k.weights) == grid && Path(k.points, k.weights, k.labels) == path
    decreases |grid| + |path|
  {
    var k := Combined(grid, path);
    if grid != [] {
      CombinedTakenApart(grid[1..], path);
      Peeled(k, Combined(grid[1..], path));
    } else if path != [] {
      CombinedTakenApart(grid, path[1..]);
      Peeled(k, Combined(grid, path[1..]));
    }
  }

  lemma Peeled(k: Kpoints, rest: Kpoints)
    requires |k.points| == |k.weights| == |k.labels| == |rest.points| + 1
    requires |rest.points| == |rest.weights| == |rest.labels|
    requires forall i :: 0 <= i < |rest.points| ==>
      k.points[i + 1] == rest.points[i] && k.weights[i + 1] == rest.weights[i] && k.labels[i + 1] == rest.labels[i]
    ensures k.points[1..] == rest.points && k.weights[1..] == rest.weights && k.labels[1..] == rest.labels
  {
  }

  // --------------------------------------------------------------- theorems

  lemma WhenReplaced(k: Kpoints, mesh: seq<int>) returns (o: Offset)
    requires ReplaceWeighted(k, mesh).Success?
    ensures ValidMesh(mesh) && |k.points| == |k.weights| && TotalAgrees(k.weights, mesh)
    ensures OnlyFit(mesh, o, Weighted(k.points, k.weights))
    ensures ReplaceWeighted(k, mesh).value == Combined(MeshPoints(mesh, o), Path(k.points, k.weights, LabelsOf(k)))
  {
    var weighted := Weighted(k.points, k.weights);
    MatchExactly(mesh, weighted);
    o :| OnlyFit(mesh, o, weighted);
  }

  // What a successful replacement gives: the whole mesh of the only grid that
  // holds all the weighted points, with weight one each, so the total weight is the
  // number of mesh points before (to a millionth) and after (exactly).
  lemma ReplacementSamplesTheFullZone(k: Kpoints, mesh: seq<int>) returns (o: Offset)
    requires ReplaceWeighted(k, mesh).Success?
    ensures ValidMesh(mesh) && |k.points| == |k.weights| && OnlyFit(mesh, o, Weighted(k.points, k.weights))
    ensures var full := ReplaceWeighted(k, mesh).value;
      && full.count == |full.points| == |full.weights| == |full.labels|
      && Weighted(full.points, full.weights) == MeshPoints(mesh, o)
      && MeshPoints(mesh, o) <= full.points
      && PositiveTotal(full.weights) == MeshSize(mesh) as real
    ensures Absolute(PositiveTotal(k.weights) - MeshSize(mesh) as real) <= TOLERANCE
  {
    o := WhenReplaced(k, mesh);
    var grid, path := MeshPoints(mesh, o), Path(k.points, k.weights, LabelsOf(k));
    MeshIsComplete(mesh, o, Point(0.0, 0.0, 0.0));
    CombinedTakenApart(grid, path);
    MeshWeights(|grid|, |path|);
  }

  // Every weighted point of the original list is, up to whole reciprocal-lattice
  // steps and a millionth, a point of the grid that fits it.
  lemma WeightedPointsLieOnTheMesh(points: seq<Point>, weights: seq<real>, mesh: seq<int>, o: Offset, i: nat)
    requires ValidMesh(mesh) && |points| == |weights| && Fits(mesh, o, Weighted(points, weights))
    requires i < |points| && weights[i] > 0.0
    ensures exists q :: q in MeshPoints(mesh, o) && NearPoint(points[i], q)
  {
    WeightedHas(points, weights, i);
    var q :| q in MeshPoints(mesh, o) && PointKey(q) == PointKey(points[i]);
    EqualPointKeysAreNear(points[i], q);
  }

  // The zero-weight path comes through in order, with its labels, and nothing else does.
  lemma ReplacementKeepsThePath(k: Kpoints, mesh: seq<int>) returns (at: seq<nat>)
    requires ReplaceWeighted(k, mesh).Success?
    ensures |mesh| >= 3 && ZeroPlaces(k.weights, at)
    ensures var full, n := ReplaceWeighted(k, mesh).value, MeshSize(mesh);
      && 0 <= n && |full.points| == |full.weights| == |full.labels| == n + |at|
      && forall i :: 0 <= i < |at| ==>
        && at[i] < |k.points| && full.weights[n + i] == 0.0
        && full.points[n + i] == k.points[at[i]] && full.labels[n + i] == LabelsOf(k)[at[i]]
  {
    var o := WhenReplaced(k, mesh);
    MeshIsComplete(mesh, o, Point(0.0, 0.0, 0.0));
    at := PathPlaces(k.points, k.weights, LabelsOf(k));
  }

  ghost predicate SomeGridFits(mesh: seq<int>, weighted: seq<Point>)
    requires ValidMesh(mesh)
  {
    exists o :: Fits(mesh, o, weighted)
  }

  lemma MatchSucceedsExactly(mesh: seq<int>, weighted: seq<Point>)
    requires weighted != [] && (ValidMesh(mesh) ==> Moderate(mesh))
    ensures Match(mesh, weighted).Success? <==> ValidMesh(mesh) && SomeGridFits(mesh, weighted)
  {
    MatchExactly(mesh, weighted);
    if ValidMesh(mesh) {
      forall o | Fits(mesh, o, weighted) ensures OnlyFit(mesh, o, weighted) {
        forall other | Fits(mesh, other, weighted) ensures other == o {
          AtMostOneGrid(mesh, o, other, weighted);
        }
      }
    }
  }

  lemma PathExists(k: Kpoints)
    requires |k.weights| == |k.points|
    ensures Path(k.points, k.weights, LabelsOf(k)) != [] <==> exists i :: 0 <= i < |k.weights| && k.weights[i] == 0.0
  {
    var at := PathPlaces(k.points, k.weights, LabelsOf(k));
    if at != [] { assert k.weights[at[0]] == 0.0; }
  }

  ghost predicate OneGridFits(mesh: seq<int>, weighted: seq<Point>)
    requires ValidMesh(mesh)
  {
    exists o :: OnlyFit(mesh, o, weighted)
  }

  // What the list, the weights and the mesh must be like apart from the fitting grid.
  ghost predicate WellPosed(k: Kpoints, mesh: seq<int>) {
    && |k.weights| == |k.points|
    && (exists i :: 0 <= i < |k.weights| && k.weights[i] > 0.0)
    && (exists i :: 0 <= i < |k.weights| && k.weights[i] == 0.0)
    && ValidMesh(mesh) && MeshSize(mesh) as real - TOLERANCE <= PositiveTotal(k.weights) <= MeshSize(mesh) as real + TOLERANCE
  }

  // When the replacement goes through: for every mesh, when exactly one grid fits; and for
  // meshes whose grids cannot be confused, when any does.
  lemma ReplacementSucceedsExactly(k: Kpoints, mesh: seq<int>)
    ensures ReplaceWeighted(k, mesh).Success? <==>
      WellPosed(k, mesh) && OneGridFits(mesh, Weighted(k.points, k.weights))
    ensures (ValidMesh(mesh) ==> Moderate(mesh)) ==>
      (ReplaceWeighted(k, mesh).Success? <==> WellPosed(k, mesh) && SomeGridFits(mesh, Weighted(k.points, k.weights)))
  {
    if |k.weights| == |k.points| {
      var weighted := Weighted(k.points, k.weights);
      SomeWeighted(k.points, k.weights);
      PathExists(k);
      MatchExactly(mesh, weighted);
      if weighted != [] && (ValidMesh(mesh) ==> Moderate(mesh)) { MatchSucceedsExactly(mesh, weighted); }
    }
  }

  // What it is refused for: the first of these demands that is not met.
  lemma ReplacementRefusedExactly(k: Kpoints, mesh: seq<int>)
    ensures var r := ReplaceWeighted(k, mesh);
      var listed := |k.weights| == |k.points|;
      var some := listed && exists i :: 0 <= i < |k.weights| && k.weights[i] > 0.0;
      var both := some && exists i :: 0 <= i < |k.weights| && k.weights[i] == 0.0;
      var agrees := both && |mesh| >= 3
        && MeshSize(mesh) as real - TOLERANCE <= PositiveTotal(k.weights) <= MeshSize(mesh) as real + TOLERANCE;
      && (r == Failure(WeightsMissing) <==> !listed)
      && (r == Failure(NothingWeighted) <==> listed && !some)
      && (r == Failure(NoPath) <==> some && !both)
      && (r == Failure(MeshTooShort) <==> both && |mesh| < 3)
      && (r == Failure(WrongTotal) <==> both && |mesh| >= 3 && !agrees)
      && (r == Failure(InvalidMesh) <==> agrees && !ValidMesh(mesh))
      && (r == Failure(NoUniqueGrid) <==> agrees && ValidMesh(mesh) && !OneGridFits(mesh, Weighted(k.points, k.weights)))
  {
    if |k.weights| == |k.points| {
      var weighted := Weighted(k.points, k.weights);
      SomeWeighted(k.points, k.weights);
      PathExists(k);
      MatchExactly(mesh, weighted);
    }
  }

  lemma {:induction false} SomeWeighted(points: seq<Point>, weights: seq<real>)
    requires |points| == |weights|
    ensures Weighted(points, weights) != [] <==> exists i :: 0 <= i < |weights| && weights[i] > 0.0
  {
    if points != [] {
      SomeWeighted(points[1..], weights[1..]);
      if i :| 0 <= i < |weights| && weights[i] > 0.0 {
        WeightedHas(points, weights, i);
      }
      if weights[0] <= 0.0 && Weighted(points, weights) != [] {
        var i :| 0 <= i < |weights| - 1 && weights[1..][i] > 0.0;
        assert weights[i + 1] > 0.0;
      }
    }
  }

  // Replacing what is already a full mesh changes nothing.
  lemma ReplacementIsIdempotent(k: Kpoints, mesh: seq<int>)
    requires ReplaceWeighted(k, mesh).Success?
    ensures ReplaceWeighted(ReplaceWeighted(k, mesh).value, mesh) == ReplaceWeighted(k, mesh)
  {
    var o := WhenReplaced(k, mesh);
    var grid, path := MeshPoints(mesh, o), Path(k.points, k.weights, LabelsOf(k));
    var full := Combined(grid, path);
    CombinedTakenApart(grid, path);
    MeshIsComplete(mesh, o, Point(0.0, 0.0, 0.0));
    MeshWeights(|grid|, |path|);
    MeshIsNotEmpty(mesh, o);
    MatchesItself(mesh, o, Weighted(k.points, k.weights));
    assert LabelsOf(full) == full.labels;
  }

  // A grid that fits the whole mesh fits all that lies on the mesh.
  lemma MatchesItself(mesh: seq<int>, o: Offset, weighted: seq<Point>)
    requires ValidMesh(mesh) && OnlyFit(mesh, o, weighted)
    ensures Match(mesh, MeshPoints(mesh, o)) == Success(MeshPoints(mesh, o))
  {
    var grid := MeshPoints(mesh, o);
    forall other | Fits(mesh, other, grid) ensures other == o {
      FitsThrough(mesh, o, other, weighted);
    }
    assert OnlyFit(mesh, o, grid);
    MatchExactly(mesh, grid);
  }

  lemma FitsThrough(mesh: seq<int>, o: Offset, other: Offset, weighted: seq<Point>)
    requires ValidMesh(mesh) && Fits(mesh, o, weighted) && Fits(mesh, other, MeshPoints(mesh, o))
    ensures Fits(mesh, other, weighted)
  {
    forall p | p in weighted ensures PointKey(p) in Keys(MeshPoints(mesh, other)) {
      var q :| q in MeshPoints(mesh, o) && PointKey(q) == PointKey(p);
    }
  }

  lemma MeshIsNotEmpty(mesh: seq<int>, o: Offset)
    requires ValidMesh(mesh)
    ensures MeshPoints(mesh, o) != []
  {
    var p := Point(AxisPoint(mesh[0], o.x, 0), AxisPoint(mesh[1], o.y, 0), AxisPoint(mesh[2], o.z, 0));
    AxisHas(mesh[0], o.x, 0);
    AxisHas(mesh[1], o.y, 0);
    AxisHas(mesh[2], o.z, 0);
    MeshIsComplete(mesh, o, p);
  }
}
