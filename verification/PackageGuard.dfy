/**
 The runtime-package guard (backend/runtime_package_guard.py): a worklist walk
 over the uploaded package directory, against the recursive meaning of "this
 tree is exactly the manifest".
 */
module PackageGuard {
  import opened Wrappers

  type Digest = nat
  type Manifest = map<string, Digest>

  // --------------------------------------------------------- the file tree

  datatype Node =
    | File(digest: Option<Digest>) // None: the bytes cannot be read
    | Link
    | Odd                          // a socket, a pipe, a device
    | LockedDir                    // a directory that cannot be listed
    | Dir(entries: Entries)

  // The entries of a directory, in the order of their names.
  datatype Entries = Nil | Entry(name: string, node: Node, rest: Entries)

  const CACHE := "__pycache__"

  predicate IsDir(node: Node) { node.Dir? || node.LockedDir? }

  predicate Skipped(name: string, node: Node) { IsDir(node) && name == CACHE }

  // -------------------------------------------------------------- problems

  datatype Kind =
    | UnreadableDirectory | SymbolicLink | UnexpectedFile | NotRegular
    | UnreadableFile | ModifiedFile | MissingFile | NoPackage | NotARealDirectory

  datatype Problem = Problem(kind: Kind, path: string)

  // What the walk says about one entry that is not a directory.
  function Verdict(path: string, node: Node, manifest: Manifest): seq<Problem>
    requires !IsDir(node)
  {
    if node.Link? then [Problem(SymbolicLink, path)]
    else if path !in manifest then [Problem(UnexpectedFile, path)]
    else if node.Odd? then [Problem(NotRegular, path)]
    else if node.digest.None? then [Problem(UnreadableFile, path)]
    else if node.digest.value != manifest[path] then [Problem(ModifiedFile, path)]
    else []
  }

  // How an unreadable directory is named in its report.
  function Shown(prefix: string): string { if prefix == "" then "." else prefix }

  // --------------------------------------- the meaning, by recursion on trees

  function WalkNode(prefix: string, dir: Node, manifest: Manifest): seq<Problem>
    decreases dir, 1
  {
    if dir.Dir? then Walk(prefix, dir.entries, manifest) else [Problem(UnreadableDirectory, Shown(prefix))]
  }

  function Walk(prefix: string, l: Entries, manifest: Manifest): seq<Problem>
    decreases l, 0
  {
    match l
    case Nil => []
    case Entry(name, node, rest) =>
      (if Skipped(name, node) then []
       else if IsDir(node) then WalkNode(prefix + name + "/", node, manifest)
       else Verdict(prefix + name, node, manifest))
      + Walk(prefix, rest, manifest)
  }

  // The paths of everything found that is not a directory.
  function PathsOf(prefix: string, dir: Node): set<string>
    decreases dir, 1
  {
    if dir.Dir? then Paths(prefix, dir.entries) else {}
  }

  function Paths(prefix: string, l: Entries): set<string>
    decreases l, 0
  {
    match l
    case Nil => {}
    case Entry(name, node, rest) =>
      (if Skipped(name, node) then {}
       else if IsDir(node) then PathsOf(prefix + name + "/", node)
       else {prefix + name})
      + Paths(prefix, rest)
  }

  function NodeSize(node: Node): nat
    decreases node, 1
  {
    if node.Dir? then 1 + Size(node.entries) else 1
  }

  function Size(l: Entries): nat
    decreases l, 0
  {
    match l
    case Nil => 0
    case Entry(_, node, rest) => NodeSize(node) + Size(rest)
  }

  // ------------------------------------------------------------ the worklist

  type Pending = seq<(string, Node)>

  ghost function PendingSize(p: Pending): nat {
    if p == [] then 0 else PendingSize(p[..|p| - 1]) + NodeSize(p[|p| - 1].1)
  }

  ghost function PendingProblems(p: Pending, manifest: Manifest): multiset<Problem>
  {
    if p == [] then multiset{}
    else PendingProblems(p[..|p| - 1], manifest) + multiset(WalkNode(p[|p| - 1].0, p[|p| - 1].1, manifest))
  }

  ghost function PendingPaths(p: Pending): set<string>
  {
    if p == [] then {} else PendingPaths(p[..|p| - 1]) + PathsOf(p[|p| - 1].0, p[|p| - 1].1)
  }

  lemma PushPending(p: Pending, prefix: string, dir: Node, manifest: Manifest)
    ensures var q := p + [(prefix, dir)];
      && PendingSize(q) == PendingSize(p) + NodeSize(dir)
      && PendingProblems(q, manifest) == PendingProblems(p, manifest) + multiset(WalkNode(prefix, dir, manifest))
      && PendingPaths(q) == PendingPaths(p) + PathsOf(prefix, dir)
  {
    var q := p + [(prefix, dir)];
    assert q[..|q| - 1] == p;
  }

  // What the walk says about the first entry alone, and where it looks.
  function HeadProblems(prefix: string, l: Entries, manifest: Manifest): seq<Problem>
    requires l.Entry?
  {
    if Skipped(l.name, l.node) then []
    else if IsDir(l.node) then WalkNode(prefix + l.name + "/", l.node, manifest)
    else Verdict(prefix + l.name, l.node, manifest)
  }

  function HeadPaths(prefix: string, l: Entries): set<string>
    requires l.Entry?
  {
    if Skipped(l.name, l.node) then {}
    else if IsDir(l.node) then PathsOf(prefix + l.name + "/", l.node)
    else {prefix + l.name}
  }

  lemma HeadFirst(prefix: string, l: Entries, manifest: Manifest)
    requires l.Entry?
    ensures multiset(Walk(prefix, l, manifest))
         == multiset(HeadProblems(prefix, l, manifest)) + multiset(Walk(prefix, l.rest, manifest))
    ensures Paths(prefix, l) == HeadPaths(prefix, l) + Paths(prefix, l.rest)
  {
    assert Walk(prefix, l, manifest) == HeadProblems(prefix, l, manifest) + Walk(prefix, l.rest, manifest);
  }

  lemma RegroupedBags<T>(a: multiset<T>, p: multiset<T>, h: multiset<T>, r: multiset<T>)
    ensures a + p + (h + r) == a + (p + h) + r == (a + h) + p + r
  {
  }

  lemma RegroupedSets<T>(a: set<T>, p: set<T>, h: set<T>, r: set<T>)
    ensures a + p + (h + r) == a + (p + h) + r == (a + h) + p + r
  {
  }

  lemma Joined<T>(a: seq<T>, b: seq<T>)
    ensures multiset(a + b) == multiset(a) + multiset(b)
  {
  }

  // The entries before `l` have been dealt with.
  ghost predicate Scanned(prefix: string, entries: Entries, manifest: Manifest, queued: Pending,
                          l: Entries, found: seq<Problem>, seen: set<string>, pending: Pending)
  {
    && PendingSize(pending) + Size(l) <= PendingSize(queued) + Size(entries)
    && multiset(found) + PendingProblems(pending, manifest) + multiset(Walk(prefix, l, manifest))
       == multiset(Walk(prefix, entries, manifest)) + PendingProblems(queued, manifest)
    && seen + PendingPaths(pending) + Paths(prefix, l) == Paths(prefix, entries) + PendingPaths(queued)
  }

  lemma ScannedOne(prefix: string, entries: Entries, manifest: Manifest, queued: Pending,
                   l: Entries, found: seq<Problem>, seen: set<string>, pending: Pending)
    requires l.Entry? && Scanned(prefix, entries, manifest, queued, l, found, seen, pending)
    ensures var path := prefix + l.name;
      if Skipped(l.name, l.node) then Scanned(prefix, entries, manifest, queued, l.rest, found, seen, pending)
      else if IsDir(l.node) then
        Scanned(prefix, entries, manifest, queued, l.rest, found, seen, pending + [(path + "/", l.node)])
      else
        Scanned(prefix, entries, manifest, queued, l.rest,
                found + Verdict(path, l.node, manifest), seen + {path}, pending)
  {
    HeadFirst(prefix, l, manifest);
    var path, head := prefix + l.name, HeadProblems(prefix, l, manifest);
    RegroupedBags(multiset(found), PendingProblems(pending, manifest), multiset(head), multiset(Walk(prefix, l.rest, manifest)));
    RegroupedSets(seen, PendingPaths(pending), HeadPaths(prefix, l), Paths(prefix, l.rest));
    if IsDir(l.node) {
      PushPending(pending, path + "/", l.node, manifest);
    } else {
      Joined(found, head);
    }
  }

  // One directory: its entries are judged in turn, its subdirectories queued.
  method ScanDirectory(prefix: string, entries: Entries, manifest: Manifest, queued: Pending)
    returns (found: seq<Problem>, seen: set<string>, pending: Pending)
    ensures PendingSize(pending) <= PendingSize(queued) + Size(entries)
    ensures multiset(found) + PendingProblems(pending, manifest)
         == multiset(Walk(prefix, entries, manifest)) + PendingProblems(queued, manifest)
    ensures seen + PendingPaths(pending) == Paths(prefix, entries) + PendingPaths(queued)
  {
    found, seen, pending := [], {}, queued;
    var l := entries;
    while l.Entry?
      invariant Scanned(prefix, entries, manifest, queued, l, found, seen, pending)
      decreases l
    {
      ScannedOne(prefix, entries, manifest, queued, l, found, seen, pending);
      var path := prefix + l.name;
      if IsDir(l.node) {
        if l.name != CACHE { pending := pending + [(path + "/", l.node)]; }
      } else {
        seen, found := seen + {path}, found + Verdict(path, l.node, manifest);
      }
      l := l.rest;
    }
  }

  function Missing(accounted: set<string>, manifest: Manifest): set<Problem> {
    set path | path in manifest.Keys - accounted :: Problem(MissingFile, path)
  }

  // The recursive account of everything wrong with a package directory.
  ghost function Wrong(package: Node, manifest: Manifest): multiset<Problem>
    requires IsDir(package)
  {
    multiset(WalkNode("", package, manifest)) + multiset(Missing(PathsOf("", package), manifest))
  }

  lemma PopPending(p: Pending, manifest: Manifest)
    requires p != []
    ensures var q := p[..|p| - 1]; var (prefix, dir) := p[|p| - 1];
      && PendingSize(p) == PendingSize(q) + NodeSize(dir)
      && PendingProblems(p, manifest) == PendingProblems(q, manifest) + multiset(WalkNode(prefix, dir, manifest))
      && PendingPaths(p) == PendingPaths(q) + PathsOf(prefix, dir)
  {
  }

  // What is still pending makes up for what has not been reported yet.
  ghost predicate Walked(package: Node, manifest: Manifest,
                         problems: seq<Problem>, accounted: set<string>, pending: Pending)
  {
    && multiset(problems) + PendingProblems(pending, manifest) == multiset(WalkNode("", package, manifest))
    && accounted + PendingPaths(pending) == PathsOf("", package)
  }

  lemma WalkedOne(package: Node, manifest: Manifest, problems: seq<Problem>, accounted: set<string>,
                  pending: Pending, found: seq<Problem>, seen: set<string>, queued: Pending)
    requires pending != [] && Walked(package, manifest, problems, accounted, pending)
    requires var rest := pending[..|pending| - 1]; var (prefix, dir) := pending[|pending| - 1];
      && multiset(found) + PendingProblems(queued, manifest)
         == multiset(WalkNode(prefix, dir, manifest)) + PendingProblems(rest, manifest)
      && seen + PendingPaths(queued) == PathsOf(prefix, dir) + PendingPaths(rest)
    ensures Walked(package, manifest, problems + found, accounted + seen, queued)
  {
    PopPending(pending, manifest);
    Joined(problems, found);
    var rest := pending[..|pending| - 1];
    var (prefix, dir) := pending[|pending| - 1];
    Carried(multiset(problems), multiset(found), PendingProblems(queued, manifest),
            multiset(WalkNode(prefix, dir, manifest)), PendingProblems(rest, manifest));
    CarriedSets(accounted, seen, PendingPaths(queued), PathsOf(prefix, dir), PendingPaths(rest));
  }

  lemma Carried<T>(done: multiset<T>, found: multiset<T>, queued: multiset<T>, told: multiset<T>, rest: multiset<T>)
    requires found + queued == told + rest
    ensures done + found + queued == done + (rest + told)
  {
    assert done + found + queued == done + (found + queued);
  }

  lemma CarriedSets<T>(done: set<T>, seen: set<T>, queued: set<T>, told: set<T>, rest: set<T>)
    requires seen + queued == told + rest
    ensures done + seen + queued == done + (rest + told)
  {
    assert done + seen + queued == done + (seen + queued);
  }

  // The worklist itself.
  method WalkPackage(package: Node, manifest: Manifest) returns (problems: seq<Problem>, accounted: set<string>)
    requires IsDir(package)
    ensures multiset(problems) == multiset(WalkNode("", package, manifest))
    ensures accounted == PathsOf("", package)
  {
    problems, accounted := [], {};
    var pending := [("", package)];
    PushPending([], "", package, manifest);
    assert [] + pending == pending;
    while pending != []
      invariant Walked(package, manifest, problems, accounted, pending)
      decreases PendingSize(pending)
    {
      PopPending(pending, manifest);
      var (prefix, directory) := pending[|pending| - 1];
      var rest := pending[..|pending| - 1];
      var found, seen, queued := [Problem(UnreadableDirectory, Shown(prefix))], {}, rest;
      if directory.Dir? {
        found, seen, queued := ScanDirectory(prefix, directory.entries, manifest, rest);
      }
      WalkedOne(package, manifest, problems, accounted, pending, found, seen, queued);
      problems, accounted, pending := problems + found, accounted + seen, queued;
    }
  }

  // ---------------------------------------------------------------- the order

  // The text of a report.
  function Message(q: Problem): string {
    (match q.kind
     case UnreadableDirectory => "unreadable directory: "
     case SymbolicLink => "symbolic link: "
     case UnexpectedFile => "unexpected file: "
     case NotRegular => "not a regular file: "
     case UnreadableFile => "unreadable file: "
     case ModifiedFile => "modified file: "
     case MissingFile => "missing file: "
     case NoPackage => "missing package directory"
     case NotARealDirectory => "package directory is not a real directory")
    + q.path
  }

  // No two reports read alike.
  lemma MessageTells(q: Problem, r: Problem)
    requires Message(q) == Message(r)
    ensures q == r
  {
    SameKind(q, r);
    var n := |Message(q)| - |q.path|;
    assert Message(q)[n..] == q.path && Message(r)[n..] == r.path;
  }

  lemma SameKind(q: Problem, r: Problem)
    requires Message(q) == Message(r)
    ensures q.kind == r.kind
  {
    Characters(q);
    Characters(r);
  }

  // The characters by which the kinds can be told.
  lemma Characters(q: Problem)
    ensures var m := Message(q);
      |m| >= 13 && match q.kind
      case UnreadableDirectory => m[0] == 'u' && m[2] == 'r' && m[11] == 'd'
      case UnreadableFile => m[0] == 'u' && m[2] == 'r' && m[11] == 'f'
      case UnexpectedFile => m[0] == 'u' && m[2] == 'e'
      case SymbolicLink => m[0] == 's'
      case NotRegular => m[0] == 'n'
      case ModifiedFile => m[0] == 'm' && m[1] == 'o'
      case MissingFile => m[0] == 'm' && m[1] == 'i' && m[8] == 'f'
      case NoPackage => m[0] == 'm' && m[1] == 'i' && m[8] == 'p'
      case NotARealDirectory => m[0] == 'p'
  {
  }

  // The order of texts, by their characters.
  predicate NotAfter(a: string, b: string) {
    a == "" || (b != "" && (a[0] < b[0] || (a[0] == b[0] && NotAfter(a[1..], b[1..]))))
  }

  lemma {:induction false} EitherWay(a: string, b: string)
    ensures NotAfter(a, b) || NotAfter(b, a)
  {
    if a != "" && b != "" && a[0] == b[0] { EitherWay(a[1..], b[1..]); }
  }

  lemma {:induction false} Transitive(a: string, b: string, c: string)
    requires NotAfter(a, b) && NotAfter(b, c)
    ensures NotAfter(a, c)
  {
    if a != "" && a[0] == b[0] == c[0] { Transitive(a[1..], b[1..], c[1..]); }
  }

  ghost predicate InOrder<T>(s: seq<T>, text: T -> string) {
    forall i, j :: 0 <= i < j < |s| ==> NotAfter(text(s[i]), text(s[j]))
  }

  function Inserted<T>(x: T, s: seq<T>, text: T -> string): seq<T> {
    if s == [] || NotAfter(text(x), text(s[0])) then [x] + s else [s[0]] + Inserted(x, s[1..], text)
  }

  lemma {:induction false} InsertedHolds<T>(x: T, s: seq<T>, text: T -> string)
    ensures multiset(Inserted(x, s, text)) == multiset{x} + multiset(s)
  {
    if s != [] {
      assert s == [s[0]] + s[1..];
      if !NotAfter(text(x), text(s[0])) { InsertedHolds(x, s[1..], text); }
    }
  }

  lemma {:induction false} InsertedInOrder<T>(x: T, s: seq<T>, text: T -> string)
    requires InOrder(s, text)
    ensures InOrder(Inserted(x, s, text), text)
  {
    if s == [] {
    } else if NotAfter(text(x), text(s[0])) {
      forall j | 0 < j < |s| ensures NotAfter(text(x), text(s[j])) {
        Transitive(text(x), text(s[0]), text(s[j]));
      }
    } else {
      EitherWay(text(x), text(s[0]));
      InsertedInOrder(x, s[1..], text);
      InsertedHolds(x, s[1..], text);
      var rest := Inserted(x, s[1..], text);
      forall j | 0 <= j < |rest| ensures NotAfter(text(s[0]), text(rest[j])) {
        assert rest[j] in multiset(rest);
        assert rest[j] == x || rest[j] in s[1..];
      }
    }
  }

  // The elements in the order of their texts.
  function Sorted<T>(s: seq<T>, text: T -> string): seq<T> {
    if s == [] then [] else Inserted(s[0], Sorted(s[1..], text), text)
  }

  lemma {:induction false} SortedInOrder<T>(s: seq<T>, text: T -> string)
    ensures multiset(Sorted(s, text)) == multiset(s) && InOrder(Sorted(s, text), text)
  {
    if s != [] {
      SortedInOrder(s[1..], text);
      InsertedInOrder(s[0], Sorted(s[1..], text), text);
      InsertedHolds(s[0], Sorted(s[1..], text), text);
      assert s == [s[0]] + s[1..];
    }
  }

  // The whole check; None is a path that does not exist.
  method PackageProblems(package: Option<Node>, manifest: Manifest) returns (report: seq<Problem>)
    ensures package.None? ==> report == [Problem(NoPackage, "")]
    ensures package.Some? && !IsDir(package.value) ==> report == [Problem(NotARealDirectory, "")]
    ensures package.Some? && IsDir(package.value) ==> multiset(report) == Wrong(package.value, manifest) && InOrder(report, Message)
  {
    if package.None? { return [Problem(NoPackage, "")]; }
    if !IsDir(package.value) { return [Problem(NotARealDirectory, "")]; }
    var problems, accounted := WalkPackage(package.value, manifest);
    var missing := Missing(accounted, manifest);
    while missing != {}
      invariant multiset(problems) + multiset(missing) == Wrong(package.value, manifest)
      decreases missing
    {
      var one :| one in missing;
      problems, missing := problems + [one], missing - {one};
    }
    SortedInOrder(problems, Message);
    report := Sorted(problems, Message);
  }
}
