/** What a clean verdict of the runtime-package guard means, and who earns one. */
module PackageTheorems {
  import opened Wrappers
  import opened PackageGuard

  // ------------------------------------------------------ exactly the manifest

  // Every file of the tree with its digest, outside `__pycache__` directories.
  function Files(prefix: string, l: Entries): set<(string, Digest)>
    decreases l
  {
    match l
    case Nil => {}
    case Entry(name, node, rest) =>
      (if Skipped(name, node) then {}
       else if node.Dir? then Files(prefix + name + "/", node.entries)
       else if node.File? && node.digest.Some? then {(prefix + name, node.digest.value)}
       else {})
      + Files(prefix, rest)
  }

  // Nothing but readable directories and readable regular files.
  predicate Plain(l: Entries)
    decreases l
  {
    match l
    case Nil => true
    case Entry(name, node, rest) =>
      && (Skipped(name, node) || (node.Dir? && Plain(node.entries)) || (node.File? && node.digest.Some?))
      && Plain(rest)
  }

  function Pairs(manifest: Manifest): set<(string, Digest)> {
    set path | path in manifest :: (path, manifest[path])
  }

  predicate IsExactly(package: Node, manifest: Manifest) {
    package.Dir? && Plain(package.entries) && Files("", package.entries) == Pairs(manifest)
  }

  lemma {:induction false} QuietWalk(prefix: string, l: Entries, manifest: Manifest)
    ensures Walk(prefix, l, manifest) == [] <==> Plain(l) && Files(prefix, l) <= Pairs(manifest)
    decreases l
  {
    if l.Entry? {
      QuietWalk(prefix, l.rest, manifest);
      if l.node.Dir? {
        QuietWalk(prefix + l.name + "/", l.node.entries, manifest);
      } else if l.node.File? && l.node.digest.Some? {
        var pair := (prefix + l.name, l.node.digest.value);
        assert pair in Pairs(manifest) <==> pair.0 in manifest && manifest[pair.0] == pair.1;
      }
    }
  }

  function PathsIn(files: set<(string, Digest)>): set<string> {
    set f | f in files :: f.0
  }

  lemma PathsInUnion(a: set<(string, Digest)>, b: set<(string, Digest)>)
    ensures PathsIn(a + b) == PathsIn(a) + PathsIn(b)
  {
  }

  lemma {:induction false} PlainPaths(prefix: string, l: Entries)
    requires Plain(l)
    ensures Paths(prefix, l) == PathsIn(Files(prefix, l))
    decreases l
  {
    if l.Entry? {
      PlainPaths(prefix, l.rest);
      var head: set<(string, Digest)> := {};
      if l.node.Dir? && l.name != CACHE {
        PlainPaths(prefix + l.name + "/", l.node.entries);
        head := Files(prefix + l.name + "/", l.node.entries);
      } else if l.node.File? {
        head := {(prefix + l.name, l.node.digest.value)};
        assert PathsIn(head) == {prefix + l.name};
      }
      PathsInUnion(head, Files(prefix, l.rest));
    }
  }

  // The check reports nothing exactly when the directory is exactly the manifest.
  lemma CleanExactly(package: Node, manifest: Manifest)
    requires IsDir(package)
    ensures Wrong(package, manifest) == multiset{} <==> IsExactly(package, manifest)
  {
    var walked := WalkNode("", package, manifest);
    var missing := Missing(PathsOf("", package), manifest);
    assert walked != [] ==> walked[0] in Wrong(package, manifest);
    assert forall q :: q in missing ==> q in Wrong(package, manifest);
    if package.Dir? {
      QuietWalk("", package.entries, manifest);
      if Plain(package.entries) {
        PlainPaths("", package.entries);
        var files := Files("", package.entries);
        if Wrong(package, manifest) == multiset{} {
          forall path | path in manifest ensures (path, manifest[path]) in files {
            assert Problem(MissingFile, path) !in missing;
            assert path in Paths("", package.entries);
            var f :| f in files && f.0 == path;
            assert f in Pairs(manifest);
          }
        }
        if files == Pairs(manifest) {
          forall path | path in manifest ensures path in Paths("", package.entries) {
            assert (path, manifest[path]) in files;
          }
          assert missing == {};
        }
      }
    }
  }

  // ------------------------------------------------------- reported only once

  predicate NoSlash(s: string) { forall i :: 0 <= i < |s| ==> s[i] != '/' }

  function Names(l: Entries): set<string> {
    if l.Nil? then {} else {l.name} + Names(l.rest)
  }

  // As in a file system: distinct names, none of them empty or containing a slash.
  predicate WellFormed(l: Entries)
    decreases l
  {
    match l
    case Nil => true
    case Entry(name, node, rest) =>
      name != "" && NoSlash(name) && name !in Names(rest) && (node.Dir? ==> WellFormed(node.entries)) && WellFormed(rest)
  }

  // The path is the entry `name` itself or lies under it.
  predicate Under(prefix: string, name: string, path: string) {
    var stem := prefix + name;
    stem <= path && (|path| == |stem| || path[|stem|] == '/')
  }

  lemma UnderUnique(prefix: string, a: string, b: string, path: string)
    requires NoSlash(a) && NoSlash(b) && Under(prefix, a, path) && Under(prefix, b, path)
    ensures a == b
  {
    assert forall k :: 0 <= k < |a| ==> path[|prefix| + k] == (prefix + a)[|prefix| + k] == a[k];
    assert forall k :: 0 <= k < |b| ==> path[|prefix| + k] == (prefix + b)[|prefix| + k] == b[k];
    if |a| == |b| { assert a == path[|prefix|..|prefix| + |a|] == b; }
  }

  lemma {:induction false} ReportedUnder(prefix: string, l: Entries, manifest: Manifest, q: Problem) returns (name: string)
    requires q in Walk(prefix, l, manifest)
    ensures name in Names(l) && Under(prefix, name, q.path)
    ensures !q.kind.UnreadableDirectory? ==> q.path in Paths(prefix, l)
    ensures !q.kind.MissingFile?
    decreases l
  {
    if q in Walk(prefix, l.rest, manifest) {
      name := ReportedUnder(prefix, l.rest, manifest, q);
    } else {
      name := l.name;
      if l.node.Dir? {
        var inner := ReportedUnder(prefix + l.name + "/", l.node.entries, manifest, q);
        assert prefix + l.name + "/" <= prefix + l.name + "/" + inner <= q.path;
      }
    }
  }

  predicate DistinctPaths(s: seq<Problem>) {
    forall i, j :: 0 <= i < j < |s| ==> s[i].path != s[j].path
  }

  lemma {:induction false} WalkOnce(prefix: string, l: Entries, manifest: Manifest)
    requires WellFormed(l)
    ensures DistinctPaths(Walk(prefix, l, manifest))
    decreases l
  {
    if l.Entry? {
      WalkOnce(prefix, l.rest, manifest);
      var head, tail := HeadProblems(prefix, l, manifest), Walk(prefix, l.rest, manifest);
      if l.node.Dir? && l.name != CACHE { WalkOnce(prefix + l.name + "/", l.node.entries, manifest); }
      assert Walk(prefix, l, manifest) == head + tail;
      forall a, b | a in head && b in tail ensures a.path != b.path {
        var other := ReportedUnder(prefix, l.rest, manifest, b);
        HeadUnder(prefix, l, manifest, a);
        NamesHaveNoSlash(l.rest, other);
        if a.path == b.path { UnderUnique(prefix, l.name, other, a.path); }
      }
    }
  }

  lemma HeadUnder(prefix: string, l: Entries, manifest: Manifest, q: Problem)
    requires l.Entry? && q in HeadProblems(prefix, l, manifest)
    ensures Under(prefix, l.name, q.path)
  {
    if l.node.Dir? {
      var inner := ReportedUnder(prefix + l.name + "/", l.node.entries, manifest, q);
      assert prefix + l.name + "/" <= prefix + l.name + "/" + inner <= q.path;
    }
  }

  lemma {:induction false} NamesHaveNoSlash(l: Entries, name: string)
    requires WellFormed(l) && name in Names(l)
    ensures NoSlash(name)
    decreases l
  {
    if name != l.name { NamesHaveNoSlash(l.rest, name); }
  }

  lemma {:induction false} CountedOnce(s: seq<Problem>, q: Problem)
    requires DistinctPaths(s)
    ensures multiset(s)[q] <= 1
  {
    if s != [] {
      CountedOnce(s[1..], q);
      assert s == [s[0]] + s[1..];
      if s[0] == q { assert q !in s[1..]; }
    }
  }

  lemma CountedTwice(s: seq<Problem>, i: nat, j: nat)
    requires i < j < |s| && s[i] == s[j]
    ensures multiset(s)[s[i]] >= 2
  {
    assert s == s[..j] + [s[j]] + s[j + 1..];
    assert s[i] in s[..j];
  }

  // A missing path was never walked past; whatever is walked past and reported there
  // is a directory that could not be read.
  lemma WalkedButMissing(package: Node, manifest: Manifest, q: Problem)
    requires IsDir(package) && q in WalkNode("", package, manifest)
    ensures !q.kind.MissingFile?
    ensures q.path !in PathsOf("", package) ==> q.kind.UnreadableDirectory?
  {
    if package.Dir? { var _ := ReportedUnder("", package.entries, manifest, q); }
  }

  lemma InReport(package: Node, manifest: Manifest, q: Problem)
    requires IsDir(package)
    ensures q in Wrong(package, manifest) <==>
      q in WalkNode("", package, manifest) || (q.kind.MissingFile? && q in Missing(PathsOf("", package), manifest))
  {
  }

  // What can be said of two different entries of a report about one path.
  lemma SamePath(package: Node, manifest: Manifest, q: Problem, r: Problem)
    requires IsDir(package) && (package.Dir? ==> WellFormed(package.entries))
    requires q in Wrong(package, manifest) && r in Wrong(package, manifest) && q != r && q.path == r.path
    ensures {q.kind, r.kind} == {UnreadableDirectory, MissingFile}
  {
    var walked := WalkNode("", package, manifest);
    InReport(package, manifest, q);
    InReport(package, manifest, r);
    if package.Dir? { WalkOnce("", package.entries, manifest); }
    if q in walked { WalkedButMissing(package, manifest, q); }
    if r in walked { WalkedButMissing(package, manifest, r); }
  }

  // Every offending path is reported exactly once; only a manifest key that
  // spells a directory can be reported next to that directory.
  lemma ReportedOnce(package: Node, manifest: Manifest, report: seq<Problem>)
    requires IsDir(package) && (package.Dir? ==> WellFormed(package.entries))
    requires multiset(report) == Wrong(package, manifest)
    ensures forall i, j :: 0 <= i < j < |report| && report[i].path == report[j].path ==>
      {report[i].kind, report[j].kind} == {UnreadableDirectory, MissingFile}
  {
    var walked := WalkNode("", package, manifest);
    if package.Dir? { WalkOnce("", package.entries, manifest); }
    forall i, j | 0 <= i < j < |report| && report[i].path == report[j].path
      ensures {report[i].kind, report[j].kind} == {UnreadableDirectory, MissingFile}
    {
      var q := report[i];
      assert q in multiset(report) && report[j] in multiset(report);
      if q == report[j] {
        CountedTwice(report, i, j);
        CountedOnce(walked, q);
        if package.Dir? && q in walked { var _ := ReportedUnder("", package.entries, manifest, q); }
      } else {
        SamePath(package, manifest, q, report[j]);
      }
    }
  }

  // ---------------------------------------------- exactly when a path is repeated

  predicate EndsInSlash(path: string) { path != "" && path[|path| - 1] == '/' }

  lemma {:induction false} UnreadableEndsInSlash(prefix: string, l: Entries, manifest: Manifest, q: Problem)
    requires q in Walk(prefix, l, manifest) && q.kind.UnreadableDirectory?
    ensures EndsInSlash(q.path)
    decreases l
  {
    if q in Walk(prefix, l.rest, manifest) {
      UnreadableEndsInSlash(prefix, l.rest, manifest, q);
    } else if l.node.Dir? {
      UnreadableEndsInSlash(prefix + l.name + "/", l.node.entries, manifest, q);
    }
  }

  lemma {:induction false} FilesDoNotEndInSlash(prefix: string, l: Entries, path: string)
    requires WellFormed(l) && path in Paths(prefix, l)
    ensures !EndsInSlash(path)
    decreases l
  {
    if path in Paths(prefix, l.rest) {
      FilesDoNotEndInSlash(prefix, l.rest, path);
    } else if l.node.Dir? {
      FilesDoNotEndInSlash(prefix + l.name + "/", l.node.entries, path);
    } else {
      assert path == prefix + l.name && path[|path| - 1] == l.name[|l.name| - 1];
    }
  }

  // An unreadable directory whose reported name is a key of the manifest is reported a
  // second time, as a missing file.
  lemma UnreadableKeyIsMissing(package: Node, manifest: Manifest, q: Problem)
    requires IsDir(package) && (package.Dir? ==> WellFormed(package.entries))
    requires q in WalkNode("", package, manifest) && q.kind.UnreadableDirectory? && q.path in manifest
    ensures Problem(MissingFile, q.path) in Wrong(package, manifest)
  {
    if package.Dir? {
      UnreadableEndsInSlash("", package.entries, manifest, q);
      if q.path in Paths("", package.entries) { FilesDoNotEndInSlash("", package.entries, q.path); }
    }
    var missing := Problem(MissingFile, q.path);
    assert q.path in manifest.Keys - PathsOf("", package);
    assert missing in Missing(PathsOf("", package), manifest);
  }

  // The directories that cannot be read, as they are named in reports: with a slash at the
  // end, or "." for the package itself.
  function UnreadableIn(prefix: string, l: Entries): set<string>
    decreases l
  {
    match l
    case Nil => {}
    case Entry(name, node, rest) =>
      (if Skipped(name, node) then {}
       else if node.Dir? then UnreadableIn(prefix + name + "/", node.entries)
       else if node.LockedDir? then {prefix + name + "/"}
       else {})
      + UnreadableIn(prefix, rest)
  }

  function UnreadableDirectories(package: Node): set<string>
    requires IsDir(package)
  {
    if package.Dir? then UnreadableIn("", package.entries) else {"."}
  }

  lemma {:induction false} UnreadableReported(prefix: string, l: Entries, manifest: Manifest, path: string)
    ensures Problem(UnreadableDirectory, path) in Walk(prefix, l, manifest) <==> path in UnreadableIn(prefix, l)
    decreases l
  {
    if l.Entry? {
      UnreadableReported(prefix, l.rest, manifest, path);
      if l.node.Dir? { UnreadableReported(prefix + l.name + "/", l.node.entries, manifest, path); }
    }
  }

  lemma UnreadableExactly(package: Node, manifest: Manifest, path: string)
    requires IsDir(package)
    ensures Problem(UnreadableDirectory, path) in WalkNode("", package, manifest) <==> path in UnreadableDirectories(package)
  {
    if package.Dir? { UnreadableReported("", package.entries, manifest, path); }
  }

  // Each offending path is reported exactly once, whatever the tree, exactly when no key of
  // the manifest is the name of a directory that cannot be read.
  lemma ReportedOnceExactly(package: Node, manifest: Manifest, report: seq<Problem>)
    requires IsDir(package) && (package.Dir? ==> WellFormed(package.entries))
    requires multiset(report) == Wrong(package, manifest)
    ensures DistinctPaths(report) <==> UnreadableDirectories(package) !! manifest.Keys
  {
    if path :| path in UnreadableDirectories(package) && path in manifest.Keys {
      var q := Problem(UnreadableDirectory, path);
      UnreadableExactly(package, manifest, path);
      UnreadableKeyIsMissing(package, manifest, q);
      InReport(package, manifest, q);
      TwiceInReport(report, q, Problem(MissingFile, path));
    } else {
      ReportedOnce(package, manifest, report);
      forall i, j | 0 <= i < j < |report| ensures report[i].path != report[j].path {
        OneIsMissing(package, manifest, report[i], report);
        OneIsMissing(package, manifest, report[j], report);
        UnreadableExactly(package, manifest, report[i].path);
      }
    }
  }

  lemma TwiceInReport(report: seq<Problem>, q: Problem, r: Problem)
    requires q in multiset(report) && r in multiset(report) && q != r && q.path == r.path
    ensures !DistinctPaths(report)
  {
    var i :| 0 <= i < |report| && report[i] == q;
    var j :| 0 <= j < |report| && report[j] == r;
    if i < j { assert report[i].path == report[j].path; } else { assert report[j].path == report[i].path; }
  }

  lemma OneIsMissing(package: Node, manifest: Manifest, q: Problem, report: seq<Problem>)
    requires IsDir(package) && multiset(report) == Wrong(package, manifest) && q in report
    ensures q.kind.MissingFile? ==> q.path in manifest
    ensures q.kind.UnreadableDirectory? ==> q in WalkNode("", package, manifest)
  {
    assert q in multiset(report);
    InReport(package, manifest, q);
    if q in WalkNode("", package, manifest) { WalkedButMissing(package, manifest, q); }
  }

  // Such a manifest: the name of an unreadable directory, with its slash, as a key.
  lemma RepeatedPath(report: seq<Problem>)
    requires multiset(report) == Wrong(Dir(Entry("sub", LockedDir, Nil)), map["sub/" := 0])
    ensures !DistinctPaths(report)
  {
    var package, manifest := Dir(Entry("sub", LockedDir, Nil)), map["sub/" := 0];
    var q := Problem(UnreadableDirectory, "sub/");
    assert WalkNode("", package, manifest) == [q] by { assert "" + "sub" + "/" == "sub/"; }
    assert q in WalkNode("", package, manifest);
    ReportedOnceExactly(package, manifest, report);
  }

  // ----------------------------------------------------- what each report means

  // The node stands at the path, outside `__pycache__` directories; readable directories
  // are looked into, unreadable ones stand at their path with a slash.
  predicate Stands(prefix: string, l: Entries, path: string, node: Node)
    decreases l, 1
  {
    l.Entry? && (StandsFirst(prefix, l, path, node) || Stands(prefix, l.rest, path, node))
  }

  predicate StandsFirst(prefix: string, l: Entries, path: string, node: Node)
    requires l.Entry?
    decreases l, 0
  {
    !Skipped(l.name, l.node) &&
    if l.node.Dir? then Stands(prefix + l.name + "/", l.node.entries, path, node)
    else node == l.node && path == if l.node.LockedDir? then prefix + l.name + "/" else prefix + l.name
  }

  // What is wrong with what stands at a path, told from it and from the manifest.
  predicate IsWrong(node: Node, path: string, manifest: Manifest, kind: Kind) {
    match kind
    case UnreadableDirectory => node.LockedDir?
    case SymbolicLink => node.Link?
    case UnexpectedFile => (node.File? || node.Odd?) && path !in manifest
    case NotRegular => node.Odd? && path in manifest
    case UnreadableFile => node.File? && node.digest.None? && path in manifest
    case ModifiedFile => node.File? && node.digest.Some? && path in manifest && manifest[path] != node.digest.value
    case _ => false
  }

  lemma FirstStands(prefix: string, l: Entries, path: string, node: Node)
    requires l.Entry? && !Skipped(l.name, l.node)
    requires if l.node.Dir? then Stands(prefix + l.name + "/", l.node.entries, path, node)
             else node == l.node && path == if l.node.LockedDir? then prefix + l.name + "/" else prefix + l.name
    ensures Stands(prefix, l, path, node)
  {
    assert StandsFirst(prefix, l, path, node);
  }

  lemma {:induction false} ReportedStands(prefix: string, l: Entries, manifest: Manifest, q: Problem) returns (node: Node)
    requires q in Walk(prefix, l, manifest)
    ensures Stands(prefix, l, q.path, node) && IsWrong(node, q.path, manifest, q.kind)
    decreases l
  {
    if q in Walk(prefix, l.rest, manifest) {
      node := ReportedStands(prefix, l.rest, manifest, q);
    } else if l.node.Dir? {
      node := ReportedStands(prefix + l.name + "/", l.node.entries, manifest, q);
      FirstStands(prefix, l, q.path, node);
    } else {
      node := l.node;
      FirstStands(prefix, l, q.path, node);
    }
  }

  lemma {:induction false} StandsReported(prefix: string, l: Entries, manifest: Manifest, q: Problem, node: Node)
    requires Stands(prefix, l, q.path, node) && IsWrong(node, q.path, manifest, q.kind)
    ensures q in Walk(prefix, l, manifest)
    decreases l
  {
    if Stands(prefix, l.rest, q.path, node) {
      StandsReported(prefix, l.rest, manifest, q, node);
    } else if l.node.Dir? {
      StandsReported(prefix + l.name + "/", l.node.entries, manifest, q, node);
    }
  }

  lemma {:induction false} PathStands(prefix: string, l: Entries, path: string) returns (node: Node)
    requires path in Paths(prefix, l)
    ensures Stands(prefix, l, path, node) && !node.LockedDir?
    decreases l
  {
    if path in Paths(prefix, l.rest) {
      node := PathStands(prefix, l.rest, path);
    } else if l.node.Dir? {
      node := PathStands(prefix + l.name + "/", l.node.entries, path);
      FirstStands(prefix, l, path, node);
    } else {
      node := l.node;
      FirstStands(prefix, l, path, node);
    }
  }

  lemma {:induction false} StandsAtPath(prefix: string, l: Entries, path: string, node: Node)
    requires Stands(prefix, l, path, node) && !node.LockedDir?
    ensures path in Paths(prefix, l)
    decreases l
  {
    if Stands(prefix, l.rest, path, node) {
      StandsAtPath(prefix, l.rest, path, node);
    } else if l.node.Dir? {
      StandsAtPath(prefix + l.name + "/", l.node.entries, path, node);
    }
  }

  // Everything that is reported about a package directory, and only that: each thing that
  // stands in it by what it is and what the manifest says of its path, and each path of the
  // manifest at which no file, link or other entry stands, as missing.
  lemma ReportsExactly(entries: Entries, manifest: Manifest, q: Problem)
    ensures q in Wrong(Dir(entries), manifest) <==>
      || (exists node :: Stands("", entries, q.path, node) && IsWrong(node, q.path, manifest, q.kind))
      || (q.kind.MissingFile? && q.path in manifest && forall node :: Stands("", entries, q.path, node) ==> node.LockedDir?)
  {
    InReport(Dir(entries), manifest, q);
    if q in Walk("", entries, manifest) { var _ := ReportedStands("", entries, manifest, q); }
    if node :| Stands("", entries, q.path, node) && IsWrong(node, q.path, manifest, q.kind) {
      StandsReported("", entries, manifest, q, node);
    }
    if node :| Stands("", entries, q.path, node) && !node.LockedDir? { StandsAtPath("", entries, q.path, node); }
    if q.path in Paths("", entries) { var _ := PathStands("", entries, q.path); }
    assert q.kind.MissingFile? ==> (q in Missing(Paths("", entries), manifest) <==> q.path in manifest.Keys - Paths("", entries));
  }
}
