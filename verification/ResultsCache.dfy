/**
 The cache of completed results (backend/results.py:311-371): an ordered
 dictionary of at most four entries, and an index from job ids to keys.
 Job ids and directories are taken after they have been trimmed.
 */
module ResultsCache {
  import opened Wrappers

  datatype Key = Key(job: string, runDir: string, outputDir: string)
  datatype Report = Report(status: string, content: nat)

  const MAX_ENTRIES := 4

  // order: the keys of the ordered dictionary, the next one to go first.
  datatype Cache = Cache(order: seq<Key>, entries: map<Key, Report>, jobIndex: map<string, Key>)

  const EMPTY := Cache([], map[], map[])

  function CacheKey(job: string, runDir: string, outputDir: string): Option<Key> {
    if job == "" || runDir == "" then None else Some(Key(job, runDir, outputDir))
  }

  // -------------------------------------------------------- locked sections

  function Without(order: seq<Key>, key: Key): (rest: seq<Key>) {
    if order == [] then []
    else (if order[0] == key then [] else [order[0]]) + Without(order[1..], key)
  }

  // An ordered dictionary moves a key to its end.
  function Touched(order: seq<Key>, key: Key): seq<Key> { Without(order, key) + [key] }

  function Unindexed(jobIndex: map<string, Key>, key: Key): map<string, Key> {
    map job | job in jobIndex && jobIndex[job] != key :: jobIndex[job]
  }

  function Trimmed(c: Cache): Cache
    decreases |c.order|
  {
    if |c.order| <= MAX_ENTRIES then c
    else Trimmed(Cache(c.order[1..], c.entries - {c.order[0]}, Unindexed(c.jobIndex, c.order[0])))
  }

  function Stored(c: Cache, key: Key, report: Report): Cache {
    Trimmed(Cache(Touched(c.order, key), c.entries[key := report], c.jobIndex[key.job := key]))
  }

  function Fetched(c: Cache, key: Key): Cache {
    if key in c.entries then c.(order := Touched(c.order, key)) else c
  }

  function Found(c: Cache, key: Key): Option<Report> {
    if key in c.entries then Some(c.entries[key]) else None
  }

  function Indexed(c: Cache, job: string): Option<Key> {
    if job in c.jobIndex then Some(c.jobIndex[job]) else None
  }

  // ------------------------------------------------------------- the object

  class CompletedResults {
    var order: seq<Key>
    var entries: map<Key, Report>
    var jobIndex: map<string, Key>

    function Now(): Cache
      reads this
    {
      Cache(order, entries, jobIndex)
    }

    constructor ()
      ensures Now() == EMPTY
    {
      order, entries, jobIndex := [], map[], map[];
    }

    // Drops every job that the index sends to the key.
    method DropFromIndex(key: Key)
      modifies this`jobIndex
      ensures jobIndex == Unindexed(old(jobIndex), key)
    {
      var left := jobIndex.Keys;
      while left != {}
        invariant left <= jobIndex.Keys <= old(jobIndex).Keys
        invariant forall job :: job in jobIndex ==> jobIndex[job] == old(jobIndex)[job]
        invariant forall job :: job in old(jobIndex) && job !in left ==>
          (job in jobIndex <==> old(jobIndex)[job] != key)
        decreases left
      {
        var job :| job in left;
        left := left - {job};
        if jobIndex[job] == key { jobIndex := jobIndex - {job}; }
      }
    }

    method Store(job: string, runDir: string, outputDir: string, report: Report)
      modifies this
      ensures Now() ==
        if job == "" || runDir == "" || report.status != "success" then old(Now())
        else Stored(old(Now()), Key(job, runDir, outputDir), report)
    {
      var key := CacheKey(job, runDir, outputDir);
      if key.None? || report.status != "success" { return; }
      entries := entries[key.value := report];
      order := Touched(order, key.value);
      jobIndex := jobIndex[job := key.value];
      while |order| > MAX_ENTRIES
        invariant Trimmed(Now()) == Stored(old(Now()), Key(job, runDir, outputDir), report)
        decreases |order|
      {
        var removed := order[0];
        order, entries := order[1..], entries - {removed};
        DropFromIndex(removed);
      }
    }

    method Fetch(key: Key) returns (found: Option<Report>)
      modifies this
      ensures found == Found(old(Now()), key) && Now() == Fetched(old(Now()), key)
    {
      if key !in entries { return None; }
      order := Touched(order, key);
      found := Some(entries[key]);
    }

    // Others store, look up and clear, each in a locked section of its own.
    method Others(es: seq<Event>)
      modifies this
      ensures Now() == After(old(Now()), es)
    {
      var c := After(Now(), es);
      order, entries, jobIndex := c.order, c.entries, c.jobIndex;
    }

    // With a run directory the key is looked up. Without one, the last key of the job is
    // read in a first section and looked up in a second one, others acting in between.
    method Lookup(job: string, runDir: string, outputDir: string, between: seq<Event>) returns (found: Option<Report>)
      modifies this
      ensures
        var c := old(Now());
        if job == "" || (runDir == "" && job !in c.jobIndex) then found == None && Now() == c
        else
          var key := if runDir != "" then Key(job, runDir, outputDir) else c.jobIndex[job];
          var now := if runDir != "" then c else After(c, between);
          found == Found(now, key) && Now() == Fetched(now, key)
    {
      var key := CacheKey(job, runDir, outputDir);
      if key.None? {
        if job == "" || job !in jobIndex { return None; }
        key := Some(jobIndex[job]);
        Others(between);
      }
      found := Fetch(key.value);
    }

    method Clear()
      modifies this
      ensures Now() == EMPTY
    {
      order, entries, jobIndex := [], map[], map[];
    }
  }

  // ------------------------------------------------------------ whole runs

  // The locked sections that change the cache. A lookup by job reads the index in
  // one section and fetches in another, so its Fetch may come after other events.
  datatype Event = Store(key: Key, report: Report) | Fetch(key: Key) | Clear

  function Step(c: Cache, e: Event): Cache {
    match e
    case Store(key, report) => Stored(c, key, report)
    case Fetch(key) => Fetched(c, key)
    case Clear => EMPTY
  }

  function After(c: Cache, es: seq<Event>): Cache
    decreases |es|
  {
    if es == [] then c else Step(After(c, es[..|es| - 1]), es[|es| - 1])
  }

  function Run(es: seq<Event>): Cache { After(EMPTY, es) }

  lemma {:induction false} AfterConcat(c: Cache, a: seq<Event>, b: seq<Event>)
    ensures After(c, a + b) == After(After(c, a), b)
    decreases |b|
  {
    if b == [] {
      assert a + b == a;
    } else {
      assert (a + b)[..|a + b| - 1] == a + b[..|b| - 1];
      AfterConcat(c, a, b[..|b| - 1]);
    }
  }

  // ------------------------------------------------- the unbounded reference

  function Last4(keys: seq<Key>): seq<Key> {
    if |keys| <= MAX_ENTRIES then keys else keys[|keys| - MAX_ENTRIES..]
  }

  // Every key ever touched since the last Clear, the latest last. A fetch touches a
  // key that is among the last four; any other fetch is a miss.
  function Recency(es: seq<Event>): seq<Key>
    decreases |es|
  {
    if es == [] then []
    else
      var before := Recency(es[..|es| - 1]);
      match es[|es| - 1]
      case Store(key, _) => Touched(before, key)
      case Fetch(key) => if key in Last4(before) then Touched(before, key) else before
      case Clear => []
  }

  // The report last stored under a key since the last Clear.
  function LastReport(es: seq<Event>, key: Key): Option<Report>
    decreases |es|
  {
    if es == [] || es[|es| - 1].Clear? then None
    else
      var e := es[|es| - 1];
      if e.Store? && e.key == key then Some(e.report) else LastReport(es[..|es| - 1], key)
  }

  // The key under which a job last stored a report since the last Clear.
  function LastKey(es: seq<Event>, job: string): Option<Key>
    decreases |es|
  {
    if es == [] || es[|es| - 1].Clear? then None
    else
      var e := es[|es| - 1];
      if e.Store? && e.key.job == job then Some(e.key) else LastKey(es[..|es| - 1], job)
  }

  // The report that a job last stored, under whatever key, since the last Clear.
  function LastOfJob(es: seq<Event>, job: string): Option<Report>
    decreases |es|
  {
    if es == [] || es[|es| - 1].Clear? then None
    else
      var e := es[|es| - 1];
      if e.Store? && e.key.job == job then Some(e.report) else LastOfJob(es[..|es| - 1], job)
  }

  ghost predicate NoRepeats(keys: seq<Key>) {
    forall i, j :: 0 <= i < j < |keys| ==> keys[i] != keys[j]
  }

  // The cache against the reference: its order, one of its entries, one of its index entries.
  ghost predicate OrderAgrees(c: Cache, es: seq<Event>) {
    NoRepeats(Recency(es)) && c.order == Last4(Recency(es))
  }

  ghost predicate EntryAgrees(c: Cache, es: seq<Event>, key: Key) {
    && (key in c.entries <==> key in c.order)
    && (key in c.order ==> LastReport(es, key) == Found(c, key))
  }

  ghost predicate IndexAgrees(c: Cache, es: seq<Event>, job: string, key: Key) {
    Indexed(c, job) == Some(key) <==> LastKey(es, job) == Some(key) && key in c.order
  }

  ghost predicate Agrees(c: Cache, es: seq<Event>) {
    && OrderAgrees(c, es)
    && (forall key :: EntryAgrees(c, es, key))
    && (forall job, key :: IndexAgrees(c, es, job, key))
  }

  lemma {:induction false} WithoutHas(keys: seq<Key>, key: Key, other: Key)
    ensures other in Without(keys, key) <==> other in keys && other != key
    ensures |Without(keys, key)| <= |keys|
  {
    if keys != [] {
      WithoutHas(keys[1..], key, other);
      assert keys == [keys[0]] + keys[1..];
    }
  }

  lemma {:induction false} WithoutNoRepeats(keys: seq<Key>, key: Key)
    requires NoRepeats(keys)
    ensures NoRepeats(Without(keys, key))
    ensures |Without(keys, key)| == |keys| - if key in keys then 1 else 0
  {
    if keys != [] {
      WithoutNoRepeats(keys[1..], key);
      WithoutHas(keys[1..], key, keys[0]);
      assert keys == [keys[0]] + keys[1..];
    }
  }

  lemma {:induction false} WithoutConcat(a: seq<Key>, b: seq<Key>, key: Key)
    ensures Without(a + b, key) == Without(a, key) + Without(b, key)
  {
    if a == [] {
      assert a + b == b;
    } else {
      WithoutConcat(a[1..], b, key);
      assert (a + b)[1..] == a[1..] + b;
      Regrouped(if a[0] == key then [] else [a[0]], Without(a[1..], key), Without(b, key));
    }
  }

  lemma TouchedNoRepeats(keys: seq<Key>, key: Key)
    requires NoRepeats(keys)
    ensures NoRepeats(Touched(keys, key))
    ensures forall other :: other in Touched(keys, key) <==> other in keys || other == key
  {
    WithoutNoRepeats(keys, key);
    forall other ensures other in Without(keys, key) <==> other in keys && other != key {
      WithoutHas(keys, key, other);
    }
  }

  lemma Last4OfConcat(a: seq<Key>, b: seq<Key>)
    requires |b| >= MAX_ENTRIES
    ensures Last4(a + b) == Last4(b)
  {
  }

  // After touching, the last four keys are all there is to see, whatever came before.
  lemma TouchedBehind(before: seq<Key>, recent: seq<Key>, key: Key)
    requires NoRepeats(recent) && |recent| == MAX_ENTRIES
    ensures Last4(before + Touched(recent, key)) == Last4(Touched(recent, key))
  {
    WithoutNoRepeats(recent, key);
    Last4OfConcat(before, Touched(recent, key));
  }

  // Touching a key and keeping four is the same on the whole history as on the last four of it.
  lemma TouchedLast4(keys: seq<Key>, key: Key)
    requires NoRepeats(keys)
    ensures Last4(Touched(keys, key)) == Last4(Touched(Last4(keys), key))
  {
    if |keys| > MAX_ENTRIES {
      var before, recent := keys[..|keys| - MAX_ENTRIES], Last4(keys);
      assert keys == before + recent;
      WithoutConcat(before, recent, key);
      TouchedBehind(Without(before, key), recent, key);
      Regrouped(Without(before, key), Without(recent, key), [key]);
    }
  }

  lemma {:induction false} LastKeyJob(es: seq<Event>, job: string)
    ensures LastKey(es, job).Some? ==> LastKey(es, job).value.job == job
    decreases |es|
  {
    if es != [] { LastKeyJob(es[..|es| - 1], job); }
  }

  lemma AfterEvent(es: seq<Event>, e: Event)
    ensures (es + [e])[..|es|] == es && (es + [e])[|es|] == e
  {
  }

  lemma LastFourHas(keys: seq<Key>)
    requires NoRepeats(keys)
    ensures NoRepeats(Last4(keys)) && |Last4(keys)| <= MAX_ENTRIES
  {
  }

  // Touching one of the last four keeps those four.
  lemma TouchedSame(order: seq<Key>, key: Key, other: Key)
    requires NoRepeats(order) && |order| <= MAX_ENTRIES && key in order
    ensures Last4(Touched(order, key)) == Touched(order, key)
    ensures other in Touched(order, key) <==> other in order
  {
    WithoutNoRepeats(order, key);
    WithoutHas(order, key, other);
  }

  lemma FetchOrder(c: Cache, es: seq<Event>, key: Key)
    requires OrderAgrees(c, es) && EntryAgrees(c, es, key)
    ensures OrderAgrees(Fetched(c, key), es + [Fetch(key)])
  {
    AfterEvent(es, Fetch(key));
    if key in c.order {
      TouchedNoRepeats(Recency(es), key);
      TouchedLast4(Recency(es), key);
      LastFourHas(Recency(es));
      TouchedSame(c.order, key, key);
    }
  }

  lemma FetchKeeps(c: Cache, es: seq<Event>, key: Key, job: string, k: Key)
    requires OrderAgrees(c, es) && EntryAgrees(c, es, key) && EntryAgrees(c, es, k) && IndexAgrees(c, es, job, k)
    ensures EntryAgrees(Fetched(c, key), es + [Fetch(key)], k)
    ensures IndexAgrees(Fetched(c, key), es + [Fetch(key)], job, k)
  {
    AfterEvent(es, Fetch(key));
    if key in c.order {
      LastFourHas(Recency(es));
      TouchedSame(c.order, key, k);
    }
  }

  lemma TrimmedOnce(c: Cache)
    requires |c.order| == MAX_ENTRIES + 1
    ensures Trimmed(c) == Cache(c.order[1..], c.entries - {c.order[0]}, Unindexed(c.jobIndex, c.order[0]))
  {
    var once := Cache(c.order[1..], c.entries - {c.order[0]}, Unindexed(c.jobIndex, c.order[0]));
    assert |once.order| == MAX_ENTRIES && Trimmed(once) == once;
  }

  // At most one entry has to go when a report is stored.
  lemma StoredShape(c: Cache, key: Key, report: Report)
    requires |c.order| <= MAX_ENTRIES && NoRepeats(c.order)
    ensures var order, s := Touched(c.order, key), Stored(c, key, report);
      && NoRepeats(order) && |order| <= MAX_ENTRIES + 1 && order[|order| - 1] == key
      && s.order == Last4(order)
      && (|order| <= MAX_ENTRIES ==>
            s.entries == c.entries[key := report] && s.jobIndex == c.jobIndex[key.job := key])
      && (|order| > MAX_ENTRIES ==>
            && s.entries == c.entries[key := report] - {order[0]}
            && s.jobIndex == Unindexed(c.jobIndex[key.job := key], order[0]))
  {
    TouchedNoRepeats(c.order, key);
    WithoutNoRepeats(c.order, key);
    var order := Touched(c.order, key);
    if |order| > MAX_ENTRIES {
      TrimmedOnce(Cache(order, c.entries[key := report], c.jobIndex[key.job := key]));
      assert order[1..] == Last4(order);
    }
  }

  lemma LaterOrder(order: seq<Key>, key: Key)
    requires NoRepeats(order) && 0 < |order| <= MAX_ENTRIES + 1
    ensures key in Last4(order) <==> key in order && (|order| > MAX_ENTRIES ==> key != order[0])
    ensures order[|order| - 1] in Last4(order)
  {
    if |order| > MAX_ENTRIES {
      assert order == [order[0]] + Last4(order);
      assert order[|order| - 1] == Last4(order)[3];
    }
  }

  lemma AfterStore(es: seq<Event>, key: Key, report: Report)
    ensures var now := es + [Store(key, report)];
      && Recency(now) == Touched(Recency(es), key) && LastKey(now, key.job) == Some(key)
      && LastOfJob(now, key.job) == Some(report)
      && forall k :: LastReport(now, k) == if k == key then Some(report) else LastReport(es, k)
  {
    AfterEvent(es, Store(key, report));
  }

  lemma StoreOrder(c: Cache, es: seq<Event>, key: Key, report: Report)
    requires OrderAgrees(c, es)
    ensures OrderAgrees(Stored(c, key, report), es + [Store(key, report)])
  {
    AfterEvent(es, Store(key, report));
    TouchedNoRepeats(Recency(es), key);
    TouchedLast4(Recency(es), key);
    LastFourHas(Recency(es));
    StoredShape(c, key, report);
  }

  // Which keys are there after a store.
  lemma StoreLeaves(c: Cache, key: Key, report: Report, k: Key)
    requires |c.order| <= MAX_ENTRIES && NoRepeats(c.order)
    ensures var s, order := Stored(c, key, report), Touched(c.order, key);
      k in s.order <==> (k in c.order || k == key) && (|order| > MAX_ENTRIES ==> k != order[0])
    ensures key in Stored(c, key, report).order
  {
    StoredShape(c, key, report);
    WithoutHas(c.order, key, k);
    LaterOrder(Touched(c.order, key), k);
  }

  lemma StoreEntry(c: Cache, es: seq<Event>, key: Key, report: Report, k: Key)
    requires |c.order| <= MAX_ENTRIES && NoRepeats(c.order) && EntryAgrees(c, es, k)
    ensures EntryAgrees(Stored(c, key, report), es + [Store(key, report)], k)
  {
    AfterStore(es, key, report);
    StoreLeaves(c, key, report, k);
    StoreFinds(c, key, report, k);
  }

  // What is found after a store under a key that is still there.
  lemma StoreFinds(c: Cache, key: Key, report: Report, k: Key)
    requires |c.order| <= MAX_ENTRIES && NoRepeats(c.order) && (k in c.entries <==> k in c.order)
    ensures var s := Stored(c, key, report);
      && (k in s.entries <==> k in s.order)
      && (k in s.order ==> Found(s, k) == if k == key then Some(report) else Found(c, k))
  {
    StoredShape(c, key, report);
    StoreLeaves(c, key, report, k);
  }

  lemma StoreIndex(c: Cache, es: seq<Event>, key: Key, report: Report, job: string, k: Key)
    requires |c.order| <= MAX_ENTRIES && NoRepeats(c.order) && IndexAgrees(c, es, job, k)
    ensures IndexAgrees(Stored(c, key, report), es + [Store(key, report)], job, k)
  {
    AfterEvent(es, Store(key, report));
    StoredShape(c, key, report);
    StoreLeaves(c, key, report, k);
    StoreLeaves(c, key, report, key);
    LastKeyJob(es, job);
  }

  lemma StepAgrees(c: Cache, es: seq<Event>, e: Event)
    requires Agrees(c, es)
    ensures Agrees(Step(c, e), es + [e])
  {
    match e
    case Store(key, report) =>
      StoreOrder(c, es, key, report);
      LastFourHas(Recency(es));
      forall k ensures EntryAgrees(Step(c, e), es + [e], k) { StoreEntry(c, es, key, report, k); }
      forall job, k ensures IndexAgrees(Step(c, e), es + [e], job, k) { StoreIndex(c, es, key, report, job, k); }
    case Fetch(key) =>
      FetchOrder(c, es, key);
      forall job, k ensures EntryAgrees(Step(c, e), es + [e], k) && IndexAgrees(Step(c, e), es + [e], job, k) {
        FetchKeeps(c, es, key, job, k);
      }
      forall k ensures EntryAgrees(Step(c, e), es + [e], k) { FetchKeeps(c, es, key, "", k); }
    case Clear => AfterEvent(es, e);
  }

  // The main theorem. After any run the cache holds exactly the last four keys touched,
  // each with the report last stored under it, and the index sends a job to a key
  // exactly when that key was the job's last and is still there.
  lemma {:induction false} CacheHoldsTheLastFour(es: seq<Event>)
    ensures Agrees(Run(es), es)
    decreases |es|
  {
    if es != [] {
      var before, e := es[..|es| - 1], es[|es| - 1];
      CacheHoldsTheLastFour(before);
      StepAgrees(Run(before), before, e);
      assert es == before + [e];
    }
  }

  // What callers see: at most four entries, every index entry at a live key of its own
  // job, and a hit, by key or by job, gives the report last stored there.
  lemma HitsAreTheLastStored(es: seq<Event>, key: Key, job: string)
    ensures |Run(es).order| <= MAX_ENTRIES
    ensures Found(Run(es), key).Some? <==> key in Last4(Recency(es))
    ensures Found(Run(es), key).Some? ==> Found(Run(es), key) == LastReport(es, key)
    ensures Indexed(Run(es), job).Some? ==>
      var indexed := Indexed(Run(es), job).value;
      && indexed.job == job && LastKey(es, job) == Some(indexed)
      && Found(Run(es), indexed).Some? && Found(Run(es), indexed) == LastReport(es, indexed)
  {
    CacheHoldsTheLastFour(es);
    LastKeyJob(es, job);
    var c := Run(es);
    assert EntryAgrees(c, es, key);
    if Indexed(c, job).Some? {
      assert IndexAgrees(c, es, job, Indexed(c, job).value);
      assert EntryAgrees(c, es, Indexed(c, job).value);
    }
  }

  lemma {:induction false} LastOfLastKey(es: seq<Event>, job: string)
    ensures LastOfJob(es, job) == if LastKey(es, job).Some? then LastReport(es, LastKey(es, job).value) else None
    decreases |es|
  {
    if es != [] && !es[|es| - 1].Clear? {
      LastOfLastKey(es[..|es| - 1], job);
      LastKeyJob(es[..|es| - 1], job);
    }
  }

  // A lookup by job, whose key was read in one section and is fetched in another after any
  // other events: it hits exactly when the key is then among the last four, a hit is the
  // report then last stored under the key, by that very job; and it is the last report of
  // the job as long as the job has not turned to another key. Undisturbed, it always hits.
  lemma LookupByJob(es: seq<Event>, between: seq<Event>, job: string, key: Key)
    requires Indexed(Run(es), job) == Some(key)
    ensures var now := es + between; var found := Found(After(Run(es), between), key);
      && key.job == job
      && (found.Some? <==> key in Last4(Recency(now)))
      && (found.Some? ==> found == LastReport(now, key))
      && (found.Some? && LastKey(now, job) == Some(key) ==> found == LastOfJob(now, job))
      && (between == [] ==> found.Some? && found == LastOfJob(es, job))
  {
    AfterConcat(EMPTY, es, between);
    HitsAreTheLastStored(es, key, job);
    HitsAreTheLastStored(es + between, key, job);
    LastOfLastKey(es + between, job);
    if between == [] { assert es + between == es; }
  }

  // A store of the job under another key, come between, makes the hit an outdated one.
  lemma OutdatedHit(job: string, one: string, other: string, first: Report, second: Report)
    requires one != other && first != second
    ensures var k, l := Key(job, one, ""), Key(job, other, ""); var es, between := [Store(k, first)], [Store(l, second)];
      && Indexed(Run(es), job) == Some(k) && Found(After(Run(es), between), k) == Some(first)
      && LastOfJob(es + between, job) == Some(second)
  {
    var k, l := Key(job, one, ""), Key(job, other, "");
    var es, between := [Store(k, first)], [Store(l, second)];
    AfterStore([], k, first);
    assert [] + es == es;
    AfterStore(es, l, second);
    OneStored(es, job, k, first);
    WithoutHas([k], l, k);
    assert Without([k], l) == [k] by { assert [k][1..] == []; }
    assert [k] + [l] == [k, l];
    LookupByJob(es, between, job, k);
  }

  lemma OneStored(es: seq<Event>, job: string, k: Key, report: Report)
    requires Recency(es) == [k] && LastKey(es, job) == Some(k)
    ensures Indexed(Run(es), job) == Some(k)
  {
    CacheHoldsTheLastFour(es);
    assert IndexAgrees(Run(es), es, job, k);
  }

  // --------------------------------------------------------------- the keys

  const BAR := '|'

  // The text under which the dictionary files a key.
  function Joined(key: Key): string { key.job + [BAR] + key.runDir + [BAR] + key.outputDir }

  function BeforeBar(s: string): string {
    if s == "" || s[0] == BAR then "" else [s[0]] + BeforeBar(s[1..])
  }

  lemma {:induction false} FirstPart(a: string, x: string)
    requires BAR !in a
    ensures BeforeBar(a + [BAR] + x) == a
  {
    if a != "" {
      FirstPart(a[1..], x);
      assert (a + [BAR] + x)[1..] == a[1..] + [BAR] + x;
    }
  }

  lemma SplitAtBar(a: string, x: string, b: string, y: string)
    requires BAR !in a && BAR !in b && a + [BAR] + x == b + [BAR] + y
    ensures a == b && x == y
  {
    FirstPart(a, x);
    FirstPart(b, y);
    assert (a + [BAR] + x)[|a| + 1..] == x && (b + [BAR] + y)[|b| + 1..] == y;
  }

  // Filing keys by their joined text confuses no two of them when neither job ids nor
  // run directories contain a bar.
  lemma JoinedKeysDiffer(k: Key, l: Key)
    requires BAR !in k.job && BAR !in l.job && BAR !in k.runDir && BAR !in l.runDir
    requires Joined(k) == Joined(l)
    ensures k == l
  {
    assert Joined(k) == k.job + [BAR] + (k.runDir + [BAR] + k.outputDir);
    assert Joined(l) == l.job + [BAR] + (l.runDir + [BAR] + l.outputDir);
    SplitAtBar(k.job, k.runDir + [BAR] + k.outputDir, l.job, l.runDir + [BAR] + l.outputDir);
    SplitAtBar(k.runDir, k.outputDir, l.runDir, l.outputDir);
  }

  // A key as CacheKey makes it.
  predicate IsKey(k: Key) { k.job != "" && k.runDir != "" }

  function FirstBar(k: Key): nat { |k.job| }

  function SecondBar(k: Key): nat { |k.job| + 1 + |k.runDir| }

  lemma CharAt(k: Key, x: nat)
    requires x < |Joined(k)|
    ensures Joined(k)[x] ==
      if x < FirstBar(k) then k.job[x]
      else if x == FirstBar(k) || x == SecondBar(k) then BAR
      else if x < SecondBar(k) then k.runDir[x - FirstBar(k) - 1]
      else k.outputDir[x - SecondBar(k) - 1]
  {
  }

  // The key that two bars of a text make, the second at least two places after the first.
  function SplitAt(text: string, i: nat, j: nat): Key
    requires i < j < |text|
  {
    Key(text[..i], text[i + 1..j], text[j + 1..])
  }

  lemma SplitJoined(text: string, i: nat, j: nat)
    requires 0 < i && i + 1 < j < |text| && text[i] == BAR == text[j]
    ensures IsKey(SplitAt(text, i, j)) && Joined(SplitAt(text, i, j)) == text
    ensures FirstBar(SplitAt(text, i, j)) == i && SecondBar(SplitAt(text, i, j)) == j
  {
  }

  lemma SameSplit(k: Key, l: Key)
    requires Joined(k) == Joined(l) && FirstBar(k) == FirstBar(l) && SecondBar(k) == SecondBar(l)
    ensures k == l
  {
    var t, i, j := Joined(k), FirstBar(k), SecondBar(k);
    assert t[..i] == k.job == l.job;
    assert t[i + 1..j] == k.runDir == l.runDir;
    assert t[j + 1..] == k.outputDir == l.outputDir;
  }

  // A bar that some other key could be cut at.
  predicate HasStrayBar(k: Key)
    requires IsKey(k)
  {
    BAR in k.job[1..] || (BAR in k.runDir && k.runDir != [BAR]) || BAR in k.outputDir
  }

  ghost predicate IsConfused(k: Key) {
    exists l :: IsKey(l) && l != k && Joined(l) == Joined(k)
  }

  lemma CutElsewhere(k: Key, i: nat, j: nat)
    requires 0 < i && i + 1 < j < |Joined(k)| && Joined(k)[i] == BAR == Joined(k)[j]
    requires i != FirstBar(k) || j != SecondBar(k)
    ensures IsConfused(k)
  {
    SplitJoined(Joined(k), i, j);
    var l := SplitAt(Joined(k), i, j);
    assert IsKey(l) && l != k && Joined(l) == Joined(k);
  }

  lemma StrayBarConfuses(k: Key)
    requires IsKey(k) && HasStrayBar(k)
    ensures IsConfused(k)
  {
    var i, j := FirstBar(k), SecondBar(k);
    CharAt(k, i);
    CharAt(k, j);
    if BAR in k.outputDir {
      var x :| 0 <= x < |k.outputDir| && k.outputDir[x] == BAR;
      CharAt(k, j + 1 + x);
      CutElsewhere(k, i, j + 1 + x);
    } else if BAR in k.job[1..] {
      var x :| 0 <= x < |k.job[1..]| && k.job[1..][x] == BAR;
      CharAt(k, x + 1);
      CutElsewhere(k, x + 1, j);
    } else {
      var x :| 0 <= x < |k.runDir| && k.runDir[x] == BAR;
      CharAt(k, i + 1 + x);
      if x > 0 {
        CutElsewhere(k, i, i + 1 + x);
      } else {
        assert k.runDir == [k.runDir[0]] + k.runDir[1..];
        CutElsewhere(k, i + 1, j);
      }
    }
  }

  lemma BarAt(k: Key, x: nat)
    requires IsKey(k) && 0 < x < |Joined(k)| && Joined(k)[x] == BAR
    ensures x == FirstBar(k) || x == SecondBar(k) || HasStrayBar(k) || (x == FirstBar(k) + 1 && k.runDir == [BAR])
  {
    CharAt(k, x);
    if x < FirstBar(k) { assert k.job[1..][x - 1] == BAR; }
  }

  lemma OnlySplit(k: Key, l: Key)
    requires IsKey(k) && !HasStrayBar(k) && IsKey(l) && Joined(l) == Joined(k)
    ensures l == k
  {
    CharAt(l, FirstBar(l));
    CharAt(l, SecondBar(l));
    BarAt(k, FirstBar(l));
    BarAt(k, SecondBar(l));
    SameSplit(k, l);
  }

  // The joined text of a key is that of another key too, exactly when there is a bar in its
  // job id after the first character, in its output directory, or in its run directory
  // unless that is a single bar.
  lemma ConfusedExactly(k: Key)
    requires IsKey(k)
    ensures IsConfused(k) <==> HasStrayBar(k)
  {
    if HasStrayBar(k) {
      StrayBarConfuses(k);
    } else {
      forall l | IsKey(l) && Joined(l) == Joined(k) ensures l == k { OnlySplit(k, l); }
    }
  }
}
