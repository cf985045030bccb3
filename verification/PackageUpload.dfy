/**
 Uploading the runtime package (backend/submission.py:914-950) into a fresh
 directory, and serving imports from it (backend/runtime_package_guard.py).
 */
module PackageUpload {
  import opened Wrappers
  import opened PackageGuard
  import opened PackageTheorems

  // The components of a package-relative path.
  type Path = seq<string>

  const INIT: Path := ["__init__.py"]

  function Join(path: Path): string {
    if path == [] then "" else if |path| == 1 then path[0] else path[0] + "/" + Join(path[1..])
  }

  datatype Upload = Upload(path: Path, digest: Digest)

  // The files to upload and the manifest of exactly those; `empty` is the digest
  // of an empty file.
  function RuntimePackageUpload(sources: seq<Upload>, empty: Digest): (seq<Upload>, Manifest) {
    var files := if exists i :: 0 <= i < |sources| && Join(sources[i].path) == Join(INIT)
                 then sources else [Upload(INIT, empty)] + sources;
    (files, ManifestOf(files))
  }

  function ManifestOf(files: seq<Upload>): Manifest {
    if files == [] then map[]
    else ManifestOf(files[..|files| - 1])[Join(files[|files| - 1].path) := files[|files| - 1].digest]
  }

  // --------------------------------------------------------------- writing

  // The tree after writing one file, its parent directories being created; None
  // when a file stands where a directory is needed, or the other way round.
  function Put(l: Entries, path: Path, digest: Digest): Option<Entries>
    requires path != []
    decreases |path|, l
  {
    match l
    case Nil =>
      if |path| == 1 then Some(Entry(path[0], File(Some(digest)), Nil))
      else
        var inner := Put(Nil, path[1..], digest);
        if inner.None? then None else Some(Entry(path[0], Dir(inner.value), Nil))
    case Entry(name, node, rest) =>
      if name != path[0] then
        var rest' := Put(rest, path, digest);
        if rest'.None? then None else Some(Entry(name, node, rest'.value))
      else if |path| == 1 then
        if IsDir(node) then None else Some(Entry(name, File(Some(digest)), rest))
      else if !node.Dir? then None
      else
        var inner := Put(node.entries, path[1..], digest);
        if inner.None? then None else Some(Entry(name, Dir(inner.value), rest))
  }

  function PutAll(files: seq<Upload>): Option<Entries>
    requires forall i :: 0 <= i < |files| ==> files[i].path != []
  {
    if files == [] then Some(Nil)
    else
      var before := PutAll(files[..|files| - 1]);
      if before.None? then None else Put(before.value, files[|files| - 1].path, files[|files| - 1].digest)
  }

  // Named files in named directories, none of the directories a bytecode cache.
  predicate PackagePath(path: Path) {
    path != [] && forall i :: 0 <= i < |path| - 1 ==> path[i] != CACHE
  }

  lemma PrefixJoin(prefix: string, path: Path)
    requires |path| > 1
    ensures prefix + Join(path) == prefix + path[0] + "/" + Join(path[1..])
  {
  }

  lemma {:induction false} PutAddsOneFile(prefix: string, l: Entries, path: Path, digest: Digest)
    requires PackagePath(path) && Put(l, path, digest).Some? && Plain(l)
    requires prefix + Join(path) !in PathsIn(Files(prefix, l))
    ensures var l' := Put(l, path, digest).value;
      Plain(l') && Files(prefix, l') == Files(prefix, l) + {(prefix + Join(path), digest)}
    decreases |path|, l
  {
    var l' := Put(l, path, digest).value;
    if |path| > 1 { PrefixJoin(prefix, path); }
    match l
    case Nil =>
      if |path| > 1 {
        PutAddsOneFile(prefix + path[0] + "/", Nil, path[1..], digest);
      }
    case Entry(name, node, rest) =>
      if name != path[0] {
        assert PathsIn(Files(prefix, rest)) <= PathsIn(Files(prefix, l));
        PutAddsOneFile(prefix, rest, path, digest);
      } else if |path| > 1 {
        assert PathsIn(Files(prefix + name + "/", node.entries)) <= PathsIn(Files(prefix, l));
        PutAddsOneFile(prefix + name + "/", node.entries, path[1..], digest);
      }
  }

  predicate DistinctTargets(files: seq<Upload>) {
    forall i, j :: 0 <= i < j < |files| ==> Join(files[i].path) != Join(files[j].path)
  }

  predicate PackagePaths(files: seq<Upload>) {
    forall i :: 0 <= i < |files| ==> PackagePath(files[i].path)
  }

  // ------------------------------------------------------ when writing succeeds

  // Nothing but files and readable directories, as writing leaves it.
  predicate Made(l: Entries)
    decreases l
  {
    l.Entry? ==> (l.node.File? || (l.node.Dir? && Made(l.node.entries))) && Made(l.rest)
  }

  predicate FileAt(l: Entries, path: Path)
    decreases |path|, l
  {
    path != [] && l.Entry? &&
    if l.name != path[0] then FileAt(l.rest, path)
    else if |path| == 1 then l.node.File? else l.node.Dir? && FileAt(l.node.entries, path[1..])
  }

  predicate DirAt(l: Entries, path: Path)
    decreases |path|, l
  {
    path != [] && l.Entry? &&
    if l.name != path[0] then DirAt(l.rest, path)
    else if |path| == 1 then l.node.Dir? else l.node.Dir? && DirAt(l.node.entries, path[1..])
  }

  lemma PrefixTail(path: Path, k: nat)
    requires 1 < k <= |path|
    ensures path[..k][1..] == path[1..][..k - 1] && path[..k][0] == path[0]
  {
  }

  // A file can be written exactly if no directory stands in its place and no file in the
  // place of one of its parent directories.
  lemma {:induction false} PutSucceedsExactly(l: Entries, path: Path, digest: Digest)
    requires path != [] && Made(l)
    ensures Put(l, path, digest).Some? <==> !DirAt(l, path) && forall k :: 0 < k < |path| ==> !FileAt(l, path[..k])
    decreases |path|, l
  {
    if l.Nil? {
      if |path| > 1 { PutSucceedsExactly(Nil, path[1..], digest); }
    } else if l.name != path[0] {
      PutSucceedsExactly(l.rest, path, digest);
      forall k | 0 < k < |path| ensures FileAt(l, path[..k]) == FileAt(l.rest, path[..k]) {}
    } else if |path| > 1 {
      assert path[..1] == [path[0]];
      if l.node.Dir? {
        PutSucceedsExactly(l.node.entries, path[1..], digest);
        forall k | 1 < k < |path| ensures FileAt(l, path[..k]) == FileAt(l.node.entries, path[1..][..k - 1]) { PrefixTail(path, k); }
        PrefixesBelow(l, path);
      } else {
        assert FileAt(l, path[..1]);
      }
    }
  }

  lemma PrefixesBelow(l: Entries, path: Path)
    requires |path| > 1 && l.Entry? && l.name == path[0] && l.node.Dir?
    ensures (forall k :: 0 < k < |path| ==> !FileAt(l, path[..k])) <==>
            (forall k :: 0 < k < |path[1..]| ==> !FileAt(l.node.entries, path[1..][..k]))
  {
    assert path[..1] == [path[0]] && !FileAt(l, path[..1]);
    forall k | 1 < k < |path| ensures FileAt(l, path[..k]) == FileAt(l.node.entries, path[1..][..k - 1]) { PrefixTail(path, k); }
    if forall k :: 0 < k < |path| ==> !FileAt(l, path[..k]) {
      forall k | 0 < k < |path[1..]| ensures !FileAt(l.node.entries, path[1..][..k]) { assert !FileAt(l, path[..k + 1]); }
    }
  }

  // What stands where after a file has been written.
  lemma {:induction false} PutLeaves(l: Entries, path: Path, digest: Digest, q: Path)
    requires path != [] && q != [] && Made(l) && Put(l, path, digest).Some?
    ensures var l' := Put(l, path, digest).value;
      && Made(l') && (FileAt(l', q) <==> FileAt(l, q) || q == path) && (DirAt(l', q) <==> DirAt(l, q) || q < path)
    decreases |path|, l
  {
    var l' := Put(l, path, digest).value;
    TailOf(q, path);
    match l
    case Nil =>
      if |path| > 1 {
        if |q| > 1 { PutLeaves(Nil, path[1..], digest, q[1..]); } else { PutLeaves(Nil, path[1..], digest, path[1..]); }
      }
    case Entry(name, node, rest) =>
      if name != path[0] {
        PutLeaves(rest, path, digest, q);
      } else if |path| > 1 {
        if |q| > 1 { PutLeaves(node.entries, path[1..], digest, q[1..]); } else { PutLeaves(node.entries, path[1..], digest, path[1..]); }
      }
  }

  lemma TailOf(q: Path, path: Path)
    requires q != [] && path != []
    ensures q == path <==> q[0] == path[0] && q[1..] == path[1..]
    ensures q < path <==> q[0] == path[0] && q[1..] < path[1..]
    ensures |q| == 1 && |path| > 1 ==> (q < path <==> q[0] == path[0])
  {
    assert q == [q[0]] + q[1..] && path == [path[0]] + path[1..];
  }

  // No file stands where another needs a directory.
  predicate NoneInTheWay(files: seq<Upload>) {
    forall i, j :: 0 <= i < |files| && 0 <= j < |files| ==> !(files[i].path < files[j].path)
  }

  lemma {:induction false} WrittenFiles(files: seq<Upload>, q: Path)
    requires (forall i :: 0 <= i < |files| ==> files[i].path != []) && q != [] && PutAll(files).Some?
    ensures var l := PutAll(files).value;
      && Made(l) && (FileAt(l, q) <==> exists i :: 0 <= i < |files| && files[i].path == q)
      && (DirAt(l, q) <==> exists i :: 0 <= i < |files| && q < files[i].path)
    decreases |files|
  {
    if files != [] {
      var n := |files| - 1;
      WrittenFiles(files[..n], q);
      PutLeaves(PutAll(files[..n]).value, files[n].path, files[n].digest, q);
    }
  }

  // Writing all files succeeds exactly if none stands where another needs a directory.
  lemma {:induction false} UploadSucceedsExactly(files: seq<Upload>)
    requires forall i :: 0 <= i < |files| ==> files[i].path != []
    ensures PutAll(files).Some? <==> NoneInTheWay(files)
    decreases |files|
  {
    if files != [] {
      var n := |files| - 1;
      UploadSucceedsExactly(files[..n]);
      if NoneInTheWay(files) { assert forall i :: 0 <= i < n ==> files[..n][i] == files[i]; }
      if NoneInTheWay(files) { FreeMeansSucceeds(files); } else if PutAll(files).Some? { SucceededMeansFree(files); }
    }
  }

  // What the files before the last one leave in its way.
  lemma BeforeTheLast(files: seq<Upload>)
    requires files != [] && (forall i :: 0 <= i < |files| ==> files[i].path != []) && PutAll(files[..|files| - 1]).Some?
    ensures var n := |files| - 1; var l, path := PutAll(files[..n]).value, files[n].path;
      && Made(l) && (DirAt(l, path) <==> exists i :: 0 <= i < n && path < files[i].path)
      && forall k :: 0 < k < |path| ==> (FileAt(l, path[..k]) <==> exists i :: 0 <= i < n && files[i].path == path[..k])
  {
    var n := |files| - 1;
    var path := files[n].path;
    assert forall i :: 0 <= i < n ==> files[..n][i] == files[i];
    WrittenFiles(files[..n], path);
    forall k | 0 < k < |path|
      ensures FileAt(PutAll(files[..n]).value, path[..k]) <==> exists i :: 0 <= i < n && files[i].path == path[..k]
    {
      WrittenFiles(files[..n], path[..k]);
    }
  }

  lemma ProperPrefix(a: Path, b: Path)
    ensures a != [] && a < b ==> 0 < |a| < |b| && b[..|a|] == a
    ensures forall k :: 0 < k < |b| ==> b[..k] < b
  {
  }

  // No file before the last one stands above it.
  lemma NoneAboveTheLast(files: seq<Upload>, i: nat)
    requires i < |files| - 1 && (forall k :: 0 <= k < |files| ==> files[k].path != []) && PutAll(files).Some?
    ensures !(files[i].path < files[|files| - 1].path)
  {
    var n := |files| - 1;
    var path, l := files[n].path, PutAll(files[..n]).value;
    if files[i].path < path {
      BeforeTheLast(files);
      PutSucceedsExactly(l, path, files[n].digest);
      ProperPrefix(files[i].path, path);
      assert !FileAt(l, path[..|files[i].path|]);
    }
  }

  // Nor does one stand below it.
  lemma NoneBelowTheLast(files: seq<Upload>, j: nat)
    requires j < |files| - 1 && (forall k :: 0 <= k < |files| ==> files[k].path != []) && PutAll(files).Some?
    ensures !(files[|files| - 1].path < files[j].path)
  {
    var n := |files| - 1;
    BeforeTheLast(files);
    PutSucceedsExactly(PutAll(files[..n]).value, files[n].path, files[n].digest);
  }

  lemma NotBelowItself(a: Path)
    ensures !(a < a)
  {
  }

  lemma NoneBefore(files: seq<Upload>, i: nat, j: nat)
    requires i < |files| - 1 && j < |files| - 1 && NoneInTheWay(files[..|files| - 1])
    ensures !(files[i].path < files[j].path)
  {
    var before := files[..|files| - 1];
    assert before[i] == files[i] && before[j] == files[j];
  }

  lemma OneMore(files: seq<Upload>)
    requires files != [] && NoneInTheWay(files[..|files| - 1])
    requires forall i :: 0 <= i < |files| - 1 ==>
      !(files[i].path < files[|files| - 1].path) && !(files[|files| - 1].path < files[i].path)
    ensures NoneInTheWay(files)
  {
    var n := |files| - 1;
    forall i, j | 0 <= i <= n && 0 <= j <= n ensures !(files[i].path < files[j].path) {
      if i < n && j < n { NoneBefore(files, i, j); }
      else if i == n && j == n { NotBelowItself(files[n].path); }
    }
  }

  lemma SucceededMeansFree(files: seq<Upload>)
    requires files != [] && (forall i :: 0 <= i < |files| ==> files[i].path != []) && PutAll(files).Some?
    requires NoneInTheWay(files[..|files| - 1])
    ensures NoneInTheWay(files)
  {
    forall i | 0 <= i < |files| - 1
      ensures !(files[i].path < files[|files| - 1].path) && !(files[|files| - 1].path < files[i].path)
    {
      NoneAboveTheLast(files, i);
      NoneBelowTheLast(files, i);
    }
    OneMore(files);
  }

  lemma FreeMeansSucceeds(files: seq<Upload>)
    requires files != [] && (forall i :: 0 <= i < |files| ==> files[i].path != []) && PutAll(files[..|files| - 1]).Some?
    requires NoneInTheWay(files)
    ensures PutAll(files).Some?
  {
    var n := |files| - 1;
    var path := files[n].path;
    BeforeTheLast(files);
    PutSucceedsExactly(PutAll(files[..n]).value, path, files[n].digest);
    ProperPrefix(path, path);
  }

  lemma NewPair(m: Manifest, path: string, digest: Digest)
    requires path !in m
    ensures Pairs(m[path := digest]) == Pairs(m) + {(path, digest)}
  {
    var m' := m[path := digest];
    assert path in m';
    forall f | f in Pairs(m) ensures f in Pairs(m') { assert f.0 in m'; }
    forall f | f in Pairs(m') ensures f in Pairs(m) + {(path, digest)} {
      if f.0 != path { assert f.0 in m; }
    }
  }

  lemma {:induction false} ManifestHolds(files: seq<Upload>, i: nat)
    requires DistinctTargets(files) && i < |files|
    ensures Join(files[i].path) in ManifestOf(files) && ManifestOf(files)[Join(files[i].path)] == files[i].digest
    decreases |files|
  {
    if i < |files| - 1 { ManifestHolds(files[..|files| - 1], i); }
  }

  lemma {:induction false} ManifestKeys(files: seq<Upload>, key: string) returns (i: nat)
    requires key in ManifestOf(files)
    ensures i < |files| && key == Join(files[i].path)
    decreases |files|
  {
    i := |files| - 1;
    if key != Join(files[i].path) { i := ManifestKeys(files[..i], key); }
  }

  lemma LastIsNew(files: seq<Upload>)
    requires files != [] && DistinctTargets(files)
    ensures Join(files[|files| - 1].path) !in ManifestOf(files[..|files| - 1])
  {
    var n := |files| - 1;
    if Join(files[n].path) in ManifestOf(files[..n]) {
      var i := ManifestKeys(files[..n], Join(files[n].path));
      assert false;
    }
  }

  lemma {:induction false} PutAllIsTheManifest(files: seq<Upload>)
    requires PackagePaths(files) && DistinctTargets(files) && PutAll(files).Some?
    ensures Plain(PutAll(files).value)
    ensures Files("", PutAll(files).value) == Pairs(ManifestOf(files))
    decreases |files|
  {
    if files != [] {
      var n := |files| - 1;
      var before, last := files[..n], files[n];
      PutAllIsTheManifest(before);
      LastIsNew(files);
      forall f | f in Files("", PutAll(before).value) ensures f.0 in ManifestOf(before) {
        assert f in Pairs(ManifestOf(before));
      }
      assert "" + Join(last.path) == Join(last.path);
      PutAddsOneFile("", PutAll(before).value, last.path, last.digest);
      NewPair(ManifestOf(before), Join(last.path), last.digest);
    }
  }

  lemma UploadIsTheManifest(files: seq<Upload>)
    requires PackagePaths(files) && DistinctTargets(files) && PutAll(files).Some?
    ensures Wrong(Dir(PutAll(files).value), ManifestOf(files)) == multiset{}
  {
    PutAllIsTheManifest(files);
    CleanExactly(Dir(PutAll(files).value), ManifestOf(files));
  }

  lemma UploadIsComplete(sources: seq<Upload>, empty: Digest)
    requires PackagePaths(sources) && DistinctTargets(sources)
    ensures var files := RuntimePackageUpload(sources, empty).0;
      && PackagePaths(files) && DistinctTargets(files)
      && (exists i :: 0 <= i < |files| && Join(files[i].path) == Join(INIT))
      && (files == sources || files == [Upload(INIT, empty)] + sources)
  {
    var files := RuntimePackageUpload(sources, empty).0;
    if files != sources {
      assert files[0].path == INIT;
    }
  }

  // A package whose upload succeeded passes the check made from that same
  // upload, whether or not the empty package initializer had to be added.
  lemma UploadVerifies(sources: seq<Upload>, empty: Digest)
    requires PackagePaths(sources) && DistinctTargets(sources)
    requires PutAll(RuntimePackageUpload(sources, empty).0).Some?
    ensures var (files, manifest) := RuntimePackageUpload(sources, empty);
      && Wrong(Dir(PutAll(files).value), manifest) == multiset{}
      && Join(INIT) in manifest
      && (forall i :: 0 <= i < |sources| ==>
            Join(sources[i].path) in manifest && manifest[Join(sources[i].path)] == sources[i].digest)
  {
    var (files, manifest) := RuntimePackageUpload(sources, empty);
    UploadIsComplete(sources, empty);
    UploadIsTheManifest(files);
    var k :| 0 <= k < |files| && Join(files[k].path) == Join(INIT);
    ManifestHolds(files, k);
    forall i | 0 <= i < |sources|
      ensures Join(sources[i].path) in manifest && manifest[Join(sources[i].path)] == sources[i].digest
    {
      ManifestHolds(files, if files == sources then i else i + 1);
    }
  }

  // ------------------------------------------------------ reports of any later tree

  // As the name of a file or directory is.
  predicate ProperName(name: string) { name != "" && name != "." && NoSlash(name) }

  predicate ProperPath(path: Path) {
    path != [] && forall i :: 0 <= i < |path| ==> ProperName(path[i])
  }

  lemma {:induction false} FileNames(path: Path)
    requires ProperPath(path)
    ensures Join(path) != "" && !EndsInSlash(Join(path)) && Join(path) != "."
  {
    if |path| > 1 {
      FileNames(path[1..]);
      assert |Join(path)| > 1;
    }
  }

  // Against the manifest of an upload, whatever has become of the tree since, no offending
  // path is ever reported twice.
  lemma UploadReportsOnce(files: seq<Upload>, package: Node, report: seq<Problem>)
    requires forall i :: 0 <= i < |files| ==> ProperPath(files[i].path)
    requires IsDir(package) && (package.Dir? ==> WellFormed(package.entries))
    requires multiset(report) == Wrong(package, ManifestOf(files))
    ensures DistinctPaths(report)
  {
    var manifest := ManifestOf(files);
    forall path | path in UnreadableDirectories(package) ensures path !in manifest {
      if path in manifest {
        var i := ManifestKeys(files, path);
        FileNames(files[i].path);
        UnreadableExactly(package, manifest, path);
        if package.Dir? {
          UnreadableEndsInSlash("", package.entries, manifest, Problem(UnreadableDirectory, path));
        }
        assert false;
      }
    }
    ReportedOnceExactly(package, manifest, report);
  }

  // ---------------------------------------------------------------- serving

  datatype Module = Module(path: string, isPackage: bool)

  // `parts` are the components of a dotted module name below the package itself.
  function FindSpec(parts: seq<string>, manifest: Manifest): Option<Module> {
    var packagePath := Join(parts + INIT);
    if packagePath in manifest then Some(Module(packagePath, true))
    else if parts != [] && Join(parts) + ".py" in manifest then Some(Module(Join(parts) + ".py", false))
    else None
  }

  // After a clean verdict, every module the finder serves is a regular file of
  // the package with the recorded digest, a package shadows a module of the same
  // name, and a file that the manifest does not list is never served.
  lemma OnlyVerifiedFilesAreServed(package: Node, manifest: Manifest, parts: seq<string>)
    requires IsDir(package) && Wrong(package, manifest) == multiset{}
    ensures var spec := FindSpec(parts, manifest);
      && package.Dir?
      && (spec.Some? ==>
            && (spec.value.path, manifest[spec.value.path]) in Files("", package.entries)
            && spec.value.path == if spec.value.isPackage then Join(parts + INIT) else Join(parts) + ".py")
      && (spec.None? ==> forall f :: f in Files("", package.entries) ==>
            f.0 != Join(parts + INIT) && (parts != [] ==> f.0 != Join(parts) + ".py"))
      && (spec.Some? && !spec.value.isPackage ==>
            forall f :: f in Files("", package.entries) ==> f.0 != Join(parts + INIT))
  {
    CleanExactly(package, manifest);
    var spec := FindSpec(parts, manifest);
    if spec.Some? { assert (spec.value.path, manifest[spec.value.path]) in Pairs(manifest); }
    forall f | f in Files("", package.entries) ensures f.0 in manifest {
      assert f in Pairs(manifest);
    }
  }
}
