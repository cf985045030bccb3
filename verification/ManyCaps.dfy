/**
 Exactly when the caps on active jobs and on submissions in a rolling day hold
 (compute_api/execution.py:344-381; docs/machine_api.md:296-304), over every run of the
 machine of many attempts, and over every run of the ledger. The runs that go past them
 are runs of the machine, from PUT to `sbatch`.
 */
module ManyCaps {
  import opened Wrappers
  import opened SubmissionProtocol
  import L = Ledger
  import opened LedgerTheorems
  import opened LedgerCaps
  import opened MachineExecution
  import opened MachineCounting
  import opened MachineLasting
  import opened ManyAttempts

  // -------------------------------------------- what one attempt does to the ledger

  // Ended: submitted, recorded and reported finished. Dropped: reserved and released, by
  // two overlapping PUTs. Late: submitted although dropped. BackAgain: no longer finished.
  datatype Stage = Untouched | Ended | Dropped | Late | BackAgain

  predicate Follows(from: Stage, to: Stage) {
    match to
    case Ended | Dropped => from.Untouched?
    case Late => from.Dropped?
    case BackAgain => from.Ended?
    case Untouched => false
  }

  // The events that lead attempt k of principal 1 to a stage, all at moment t.
  function StageEvents(to: Stage, k: L.AttemptId, t: nat): seq<L.LedgerEvent> {
    match to
    case Untouched => []
    case Ended => SubmitEvents(k, 1, t, k) + [L.RefreshScheduler(k, L.Scheduler(true, true), t)]
    case Dropped => DropEvents(k, 1, t)
    case Late => [L.RecordRemote(k, Some(Submitted(k)), t)]
    case BackAgain => [L.RefreshScheduler(k, L.Scheduler(true, false), t)]
  }

  predicate Like(stage: Stage, k: L.AttemptId, r: L.AttemptRecord) {
    && r.binding == Fresh(k)
    && match stage
       case Untouched => r.submission == L.Submission(L.NotRequested, None, None) && r.scheduler.None?
       case Ended => r.submission.status.SubmittedToSlurm? && r.submission.jobId.Some? && r.scheduler == Some(L.Scheduler(true, true))
       case Dropped => r.submission.status.Released? && r.scheduler.None?
       case Late => r.submission.status.SubmittedToSlurm? && r.scheduler.None?
       case BackAgain => r.submission.status.SubmittedToSlurm? && r.scheduler == Some(L.Scheduler(true, false))
  }

  // `low` bounds the moments of all reservations from below.
  predicate InStage(s: L.LedgerState, stage: Stage, k: L.AttemptId, low: nat) {
    && k in s.records && Like(stage, k, s.records[k]) && L.Moment(s.records[k].createdAt) <= s.clock
    && (!stage.Untouched? ==>
          && k in s.held && low <= s.held[k] <= s.clock
          && s.records[k].submission.reservedAt == Some(L.WholeSecond(s.held[k])))
  }

  function StageOf(id: L.AttemptId, k: nat, from: Stage, to: Stage): Stage { if id < k then to else from }

  // Of n attempts the first k have come to a stage, the others are still in the one before.
  ghost predicate Midway(s: L.LedgerState, n: nat, k: nat, from: Stage, to: Stage, low: nat) {
    && (forall id: L.AttemptId :: id in s.records <==> id < n)
    && forall id: L.AttemptId :: id < n ==> InStage(s, StageOf(id, k, from, to), id, low)
  }

  // What a stage's events do to the one record.
  lemma StageReached(s: L.LedgerState, p: L.Policy, from: Stage, to: Stage, k: L.AttemptId, low: nat, t: nat)
    requires Follows(from, to) && InStage(s, from, k, low) && s.clock <= t && low <= t
    requires from.Untouched? ==> Grants(s, p, k, t)
    ensures var s' := L.Steps(s, p, StageEvents(to, k, t));
      && InStage(s', to, k, low) && s'.clock == t && s'.records.Keys == s.records.Keys
      && (forall id :: id in s.records && id != k ==> s'.records[id] == s.records[id])
      && (forall id :: id in s.held && id != k ==> id in s'.held && s'.held[id] == s.held[id])
  {
    match to
    case Ended => EndReached(s, p, k, t);
    case Dropped =>
      LedgerReserves(s, p, k, t);
      DropReached(s, p, k, t);
    case Late => OneEvent(NO_SURPRISES, s, p, StageEvents(to, k, t)[0]);
    case BackAgain => OneEvent(NO_SURPRISES, s, p, StageEvents(to, k, t)[0]);
  }

  lemma EndReached(s: L.LedgerState, p: L.Policy, k: L.AttemptId, t: nat)
    requires k in s.records && Like(Untouched, k, s.records[k]) && Grants(s, p, k, t)
    ensures var s' := L.Steps(s, p, StageEvents(Ended, k, t));
      && s'.records.Keys == s.records.Keys && Like(Ended, k, s'.records[k])
      && s'.records[k].createdAt == s.records[k].createdAt && s'.records[k].submission.reservedAt == Some(L.WholeSecond(t))
      && (forall id :: id in s.records && id != k ==> s'.records[id] == s.records[id])
      && s'.held == s.held[k := t] && s'.clock == t
  {
    var e := L.RefreshScheduler(k, L.Scheduler(true, true), t);
    LedgerReserves(s, p, k, t);
    LastRecorded(s, p, k, 1, t, k);
    L.StepsConcat(s, p, SubmitEvents(k, 1, t, k), [e]);
    OneEvent(NO_SURPRISES, L.Steps(s, p, SubmitEvents(k, 1, t, k)), p, e);
  }

  lemma StageStep(s: L.LedgerState, p: L.Policy, n: nat, k: nat, from: Stage, to: Stage, low: nat, t: nat)
    requires Midway(s, n, k, from, to, low) && k < n && Follows(from, to) && s.clock <= t && low <= t
    requires from.Untouched? ==> Grants(s, p, k, t)
    ensures var s' := L.Steps(s, p, StageEvents(to, k, t)); Midway(s', n, k + 1, from, to, low) && s'.clock == t
  {
    assert InStage(s, StageOf(k, k, from, to), k, low);
    StageReached(s, p, from, to, k, low, t);
    var next := k + 1;
    var s' := L.Steps(s, p, StageEvents(to, k, t));
    forall id: L.AttemptId | id < n ensures InStage(s', StageOf(id, next, from, to), id, low) {
      assert InStage(s, StageOf(id, k, from, to), id, low);
    }
  }

  // ---------------------------------------------------------- room for the next

  predicate Positive(p: L.Policy) {
    0 < p.maxActive && 0 < p.maxSubmissions && 0 < p.maxNew && L.MICROS <= p.window
  }

  // Attempts that have ended or been dropped leave room for the next, as long as they are
  // fewer than the submission cap, or their stamps have left the window.
  lemma RoomForNext(s: L.LedgerState, p: L.Policy, n: nat, k: nat, to: Stage, low: nat, t: nat)
    requires Positive(p) && Midway(s, n, k, Untouched, to, low) && k < n && s.clock <= t
    requires to.Ended? || to.Dropped?
    requires to.Dropped? || k < p.maxSubmissions || AllBefore(s, k, t - p.window)
    ensures Grants(s, p, k, t)
  {
    var records := s.records[k := L.WithRemoteState(s.records[k], Some(Prepared), t)];
    var window := L.WindowIds(records, 1, t - p.window);
    forall id | id in records ensures InStage(s, StageOf(id, k, Untouched, to), id, low) {}
    assert L.ActiveIds(records, 1) == {};
    if to.Ended? && k < p.maxSubmissions {
      var ended := set id | id in s.records && id < k;
      BelowCard(ended, k);
      assert window <= ended;
      SubsetCard(window, ended);
    } else {
      assert window == {};
    }
  }

  predicate AllBefore(s: L.LedgerState, k: nat, moment: int) {
    forall id :: id in s.records && id < k && s.records[id].submission.reservedAt.Some? ==>
      L.Moment(s.records[id].submission.reservedAt.value) < moment
  }

  lemma {:induction false} BelowCard(ids: set<L.AttemptId>, k: nat)
    requires forall id: L.AttemptId :: id in ids <==> id < k
    ensures |ids| == k
  {
    if k == 0 {
      assert ids == {};
    } else {
      BelowCard(ids - {k - 1}, k - 1);
    }
  }

  // --------------------------------------------------------- creating attempts

  // Longer after the last event than any stamp is remembered.
  function NextMoment(s: L.LedgerState, p: L.Policy): nat { s.clock + p.window + L.MICROS }

  lemma OneMoreCreated(s: L.LedgerState, p: L.Policy, n: nat, to: Stage, low: nat)
    requires Positive(p) && Midway(s, n, 0, Untouched, to, low)
    ensures var t := NextMoment(s, p); var s' := L.Step(s, p, L.Create(n, Fresh(n), t, t));
      && Midway(s', n + 1, 0, Untouched, to, low) && s'.clock == t
      && s'.records.Keys == s.records.Keys + {n}
  {
    var t := NextMoment(s, p);
    forall id | id in s.records ensures InStage(s, Untouched, id, low) { assert InStage(s, StageOf(id, 0, Untouched, to), id, low); }
    assert L.CreatedIds(s.records, 1, t - p.window) == {};
    assert L.MayCreate(s, p, n, Fresh(n), t);
    var s' := L.Step(s, p, L.Create(n, Fresh(n), t, t));
    forall id: L.AttemptId | id < n + 1 ensures InStage(s', StageOf(id, 0, Untouched, to), id, low) {
      if id < n { assert InStage(s, StageOf(id, 0, Untouched, to), id, low); }
    }
  }

  // By then all stamps are forgotten.
  lemma Forgotten(s: L.LedgerState, p: L.Policy, n: nat, k: nat, from: Stage, to: Stage, low: nat)
    requires Midway(s, n, k, from, to, low) && k <= n && (to.Ended? || to.Dropped?)
    ensures AllBefore(s, k, NextMoment(s, p) - p.window)
  {
    forall id | id in s.records && id < k && s.records[id].submission.reservedAt.Some?
      ensures L.Moment(s.records[id].submission.reservedAt.value) <= s.clock
    {
      assert InStage(s, StageOf(id, k, from, to), id, low);
    }
  }

  // ------------------------------------------------------------------ counting

  lemma AllActive(s: L.LedgerState, n: nat, from: Stage, to: Stage, low: nat)
    requires Midway(s, n, n, from, to, low) && (to.Late? || to.BackAgain?)
    ensures |L.ActiveIds(s.records, 1)| == n
  {
    forall id | id in s.records ensures InStage(s, to, id, low) { assert InStage(s, StageOf(id, n, from, to), id, low); }
    assert L.ActiveIds(s.records, 1) == s.records.Keys;
    BelowCard(s.records.Keys, n);
  }

  lemma AllInStretch(s: L.LedgerState, n: nat, from: Stage, to: Stage, low: nat, length: nat)
    requires Midway(s, n, n, from, to, low) && (to.Late? || to.Ended?) && s.clock <= low + length
    ensures |HeldIn(s, 1, low, length)| == n
  {
    forall id | id in s.records ensures InStage(s, to, id, low) { assert InStage(s, StageOf(id, n, from, to), id, low); }
    assert HeldIn(s, 1, low, length) == s.records.Keys;
    BelowCard(s.records.Keys, n);
  }

  // ------------------------------------------------------ one attempt among many

  function AtAll(id: L.AttemptId, es: seq<WorldEvent>): seq<ManyEvent> {
    seq(|es|, i requires 0 <= i < |es| => At(id, es[i]))
  }

  lemma ViewBack(m: Many, w: World)
    ensures View(Back(m, w), w.attempt) == w
    ensures forall w': World :: w'.attempt == w.attempt ==> Back(Back(m, w), w') == Back(m, w')
  {
    forall w': World | w'.attempt == w.attempt ensures Back(Back(m, w), w').parts == Back(m, w').parts {}
  }

  // The events of one attempt happen among many as they would alone.
  lemma {:induction false} RunsAlone(m: Many, p: L.Policy, limit: nat, takesBack: bool, id: L.AttemptId, es: seq<WorldEvent>)
    requires id in m.parts && id in m.ledger.records && Own(es)
    ensures RunMany(m, p, limit, AtAll(id, es)) == Back(m, RunWorld(View(m, id), p, limit, es))
    ensures RunWorld(View(m, id), p, limit, es).attempt == id
    ensures Orderly(m, p, limit, takesBack, AtAll(id, es))
    decreases |es|
  {
    var w := View(m, id);
    if es == [] {
      assert m.parts[id := m.parts[id]] == m.parts;
    } else {
      var w' := ApplyWorld(w, p, limit, es[0]);
      WrittenExactly(w, p, limit, es[0]);
      if Written(w, es[0]).Some? { StepFrame(w.ledger, p, Written(w, es[0]).value); }
      ViewBack(m, w');
      assert AtAll(id, es)[1..] == AtAll(id, es[1..]);
      assert ApplyMany(m, p, limit, AtAll(id, es)[0]) == Back(m, w');
      RunsAlone(Back(m, w'), p, limit, takesBack, id, es[1..]);
    }
  }

  lemma OneOfMany(m: Many, p: L.Policy, limit: nat, takesBack: bool, e: ManyEvent)
    ensures RunMany(m, p, limit, [e]) == ApplyMany(m, p, limit, e)
    ensures Orderly(m, p, limit, takesBack, [e]) <==> IsOrderly(m, takesBack, e)
  {
    assert [e][1..] == [];
  }

  // ---------------------------------------------------------- stage by stage

  predicate PartIn(part: Part, stage: Stage, id: L.AttemptId, files: nat) {
    && (stage.Untouched? ==> part == NewPart(0, files))
    && (stage.Dropped? ==> 0 in part.lookups && part.lookups[0] == Submitted(id))
  }

  ghost predicate Standing(m: Many, n: nat, k: nat, from: Stage, to: Stage, low: nat, files: nat) {
    && Midway(m.ledger, n, k, from, to, low) && m.parts.Keys == m.ledger.records.Keys
    && forall id: L.AttemptId :: id < n ==> id in m.parts && PartIn(m.parts[id], StageOf(id, k, from, to), id, files)
  }

  // Attempt k goes to its next stage, with the ledger events of that stage and no others.
  lemma StageRun(m: Many, p: L.Policy, limit: nat, takesBack: bool, k: L.AttemptId, from: Stage, to: Stage, low: nat, t: nat, files: nat)
    returns (es: seq<ManyEvent>)
    requires k in m.parts && InStage(m.ledger, from, k, low) && PartIn(m.parts[k], from, k, files) && m.ledger.clock <= t
    requires Follows(from, to) && (from.Untouched? ==> Grants(m.ledger, p, k, t))
    requires (to.Dropped? ==> limit >= 2) && (to.Ended? ==> limit >= 1) && (to.BackAgain? ==> takesBack)
    ensures Orderly(m, p, limit, takesBack, es)
    ensures var m' := RunMany(m, p, limit, es);
      && m'.ledger == L.Steps(m.ledger, p, StageEvents(to, k, t))
      && k in m'.parts && m'.parts == m.parts[k := m'.parts[k]] && PartIn(m'.parts[k], to, k, files)
  {
    var w := View(m, k);
    match to
    case Ended => es := EndRun(m, p, limit, takesBack, k, t, files);
    case Dropped =>
      var own := LateRead(w, p, limit, files, t, k);
      es := AtAll(k, own);
      RunsAlone(m, p, limit, takesBack, k, own);
    case Late =>
      es := [At(k, LookupRecord(0, t))];
      OneOfMany(m, p, limit, takesBack, es[0]);
      OneEvent(NO_SURPRISES, m.ledger, p, StageEvents(to, k, t)[0]);
    case BackAgain =>
      es := [At(k, Elsewhere(StageEvents(to, k, t)[0]))];
      OneOfMany(m, p, limit, takesBack, es[0]);
      OneEvent(NO_SURPRISES, m.ledger, p, StageEvents(to, k, t)[0]);
  }

  lemma EndRun(m: Many, p: L.Policy, limit: nat, takesBack: bool, k: L.AttemptId, t: nat, files: nat)
    returns (es: seq<ManyEvent>)
    requires k in m.parts && k in m.ledger.records && Like(Untouched, k, m.ledger.records[k]) && m.parts[k] == NewPart(0, files)
    requires Grants(m.ledger, p, k, t) && limit >= 1
    ensures Orderly(m, p, limit, takesBack, es)
    ensures var m' := RunMany(m, p, limit, es);
      && m'.ledger == L.Steps(m.ledger, p, StageEvents(Ended, k, t))
      && k in m'.parts && m'.parts == m.parts[k := m'.parts[k]]
  {
    var own := PutWorks(View(m, k), p, limit, files, t, k);
    RunsAlone(m, p, limit, takesBack, k, own);
    var submitted := AtAll(k, own);
    var m1 := RunMany(m, p, limit, submitted);
    var last := [At(k, Elsewhere(L.RefreshScheduler(k, L.Scheduler(true, true), t)))];
    EndLedger(m.ledger, p, k, t);
    OneOfMany(m1, p, limit, takesBack, last[0]);
    es := submitted + last;
    RunManyConcat(m, p, limit, takesBack, submitted, last);
  }

  // The news that ends an attempt is the last of its stage's events.
  lemma EndLedger(s: L.LedgerState, p: L.Policy, k: L.AttemptId, t: nat)
    requires k in s.records && Like(Untouched, k, s.records[k]) && Grants(s, p, k, t)
    ensures var s1 := L.Steps(s, p, SubmitEvents(k, 1, t, k));
      && L.Steps(s, p, StageEvents(Ended, k, t)) == L.Step(s1, p, L.RefreshScheduler(k, L.Scheduler(true, true), t))
      && k in s1.records && s1.records[k].scheduler.None?
  {
    var submit, news := SubmitEvents(k, 1, t, k), L.RefreshScheduler(k, L.Scheduler(true, true), t);
    L.StepsConcat(s, p, submit, [news]);
    OneEvent(NO_SURPRISES, L.Steps(s, p, submit), p, news);
    LedgerReserves(s, p, k, t);
    LastRecorded(s, p, k, 1, t, k);
  }

  lemma NextStage(m: Many, p: L.Policy, limit: nat, takesBack: bool, n: nat, k: nat, from: Stage, to: Stage, low: nat, t: nat, files: nat)
    returns (es: seq<ManyEvent>)
    requires Standing(m, n, k, from, to, low, files) && k < n && Follows(from, to) && m.ledger.clock <= t && low <= t
    requires from.Untouched? ==> Grants(m.ledger, p, k, t)
    requires (to.Dropped? ==> limit >= 2) && (to.Ended? ==> limit >= 1) && (to.BackAgain? ==> takesBack)
    ensures Orderly(m, p, limit, takesBack, es)
    ensures var m' := RunMany(m, p, limit, es); Standing(m', n, k + 1, from, to, low, files) && m'.ledger.clock == t
  {
    assert InStage(m.ledger, StageOf(k, k, from, to), k, low) && PartIn(m.parts[k], StageOf(k, k, from, to), k, files);
    es := StageRun(m, p, limit, takesBack, k, from, to, low, t, files);
    StandsNext(m, RunMany(m, p, limit, es), p, n, k, from, to, low, t, files);
  }

  lemma StandsNext(m: Many, m': Many, p: L.Policy, n: nat, k: nat, from: Stage, to: Stage, low: nat, t: nat, files: nat)
    requires Standing(m, n, k, from, to, low, files) && k < n && Follows(from, to) && m.ledger.clock <= t && low <= t
    requires from.Untouched? ==> Grants(m.ledger, p, k, t)
    requires m'.ledger == L.Steps(m.ledger, p, StageEvents(to, k, t)) && k in m'.parts
    requires m'.parts == m.parts[k := m'.parts[k]] && PartIn(m'.parts[k], to, k, files)
    ensures Standing(m', n, k + 1, from, to, low, files) && m'.ledger.clock == t
  {
    assert InStage(m.ledger, StageOf(k, k, from, to), k, low);
    StageReached(m.ledger, p, from, to, k, low, t);
    StageStep(m.ledger, p, n, k, from, to, low, t);
    PartsNext(m.parts, m'.parts, n, k, from, to, files);
  }

  lemma PartsNext(parts: map<L.AttemptId, Part>, parts': map<L.AttemptId, Part>, n: nat, k: nat, from: Stage, to: Stage, files: nat)
    requires k < n && k in parts' && parts' == parts[k := parts'[k]] && PartIn(parts'[k], to, k, files)
    requires forall id: L.AttemptId :: id < n ==> id in parts && PartIn(parts[id], StageOf(id, k, from, to), id, files)
    ensures forall id: L.AttemptId :: id < n ==> id in parts' && PartIn(parts'[id], StageOf(id, k + 1, from, to), id, files)
  {
    var next := k + 1;
    forall id: L.AttemptId | id < n ensures id in parts' && PartIn(parts'[id], StageOf(id, next, from, to), id, files) {
      assert PartIn(parts[id], StageOf(id, k, from, to), id, files);
    }
  }

  // When the next attempt goes on: at t, or so much later that no stamp counts any more.
  function When(s: L.LedgerState, p: L.Policy, spread: bool, t: nat): nat {
    if spread then NextMoment(s, p) else t
  }

  lemma RoomWhen(s: L.LedgerState, p: L.Policy, n: nat, k: nat, to: Stage, low: nat, spread: bool, t: nat)
    requires Positive(p) && Midway(s, n, k, Untouched, to, low) && k < n && (to.Ended? || to.Dropped?)
    requires spread || (s.clock <= t && (to.Dropped? || k < p.maxSubmissions))
    ensures Grants(s, p, k, When(s, p, spread, t))
  {
    if spread { Forgotten(s, p, n, k, Untouched, to, low); }
    RoomForNext(s, p, n, k, to, low, When(s, p, spread, t));
  }

  // Attempts k, k + 1, ..., upto - 1 go to the next stage one after the other.
  lemma {:induction false} NextStages(m: Many, p: L.Policy, limit: nat, takesBack: bool, n: nat, k: nat, upto: nat,
                                      from: Stage, to: Stage, low: nat, spread: bool, t: nat, files: nat)
    returns (es: seq<ManyEvent>)
    requires Positive(p) && Standing(m, n, k, from, to, low, files) && k <= upto <= n && Follows(from, to)
    requires if spread then low <= m.ledger.clock else m.ledger.clock <= t && low <= t
    requires to.Ended? ==> spread || upto <= p.maxSubmissions
    requires (to.Dropped? ==> limit >= 2) && (to.Ended? ==> limit >= 1) && (to.BackAgain? ==> takesBack)
    ensures Orderly(m, p, limit, takesBack, es)
    ensures var m' := RunMany(m, p, limit, es);
      && Standing(m', n, upto, from, to, low, files) && (!spread ==> m'.ledger.clock == if k < upto then t else m.ledger.clock)
    decreases upto - k
  {
    if k == upto {
      es := [];
    } else {
      var now := When(m.ledger, p, spread, t);
      if from.Untouched? { RoomWhen(m.ledger, p, n, k, to, low, spread, t); }
      var first := NextStage(m, p, limit, takesBack, n, k, from, to, low, now, files);
      var m1 := RunMany(m, p, limit, first);
      var rest := NextStages(m1, p, limit, takesBack, n, k + 1, upto, from, to, low, spread, t, files);
      es := first + rest;
      RunManyConcat(m, p, limit, takesBack, first, rest);
    }
  }

  // Attempts of principal 1 are created one by one, each when the others are forgotten.
  lemma {:induction false} CreateAll(p: L.Policy, limit: nat, takesBack: bool, n: nat, to: Stage, low: nat, files: nat)
    returns (es: seq<ManyEvent>)
    requires Positive(p)
    ensures Orderly(NOTHING, p, limit, takesBack, es)
    ensures Standing(RunMany(NOTHING, p, limit, es), n, 0, Untouched, to, low, files)
  {
    if n == 0 {
      es := [];
    } else {
      var before := CreateAll(p, limit, takesBack, n - 1, to, low, files);
      var m := RunMany(NOTHING, p, limit, before);
      var last := CreateNext(m, p, limit, takesBack, n - 1, to, low, files);
      es := before + last;
      RunManyConcat(NOTHING, p, limit, takesBack, before, last);
    }
  }

  lemma CreateNext(m: Many, p: L.Policy, limit: nat, takesBack: bool, n: nat, to: Stage, low: nat, files: nat)
    returns (es: seq<ManyEvent>)
    requires Positive(p) && Standing(m, n, 0, Untouched, to, low, files)
    ensures Orderly(m, p, limit, takesBack, es) && Standing(RunMany(m, p, limit, es), n + 1, 0, Untouched, to, low, files)
  {
    var t := NextMoment(m.ledger, p);
    es := [Bind(n, Fresh(n), files, t, t)];
    OneOfMany(m, p, limit, takesBack, es[0]);
    OneMoreCreated(m.ledger, p, n, to, low);
    PartsCreated(m.parts, n, to, files);
  }

  lemma PartsCreated(parts: map<L.AttemptId, Part>, n: nat, to: Stage, files: nat)
    requires forall id: L.AttemptId :: id < n ==> id in parts && PartIn(parts[id], StageOf(id, 0, Untouched, to), id, files)
    ensures var parts' := parts[n := NewPart(0, files)];
      forall id: L.AttemptId :: id < n + 1 ==> id in parts' && PartIn(parts'[id], StageOf(id, 0, Untouched, to), id, files)
  {
  }

  lemma Onward(m: Many, n: nat, from: Stage, to: Stage, after: Stage, low: nat, files: nat)
    requires Standing(m, n, n, from, to, low, files)
    ensures Standing(m, n, 0, to, after, low, files)
  {
    forall id: L.AttemptId | id < n
      ensures InStage(m.ledger, StageOf(id, 0, to, after), id, low) && PartIn(m.parts[id], StageOf(id, 0, to, after), id, files)
    {
      assert InStage(m.ledger, StageOf(id, n, from, to), id, low) && PartIn(m.parts[id], StageOf(id, n, from, to), id, files);
    }
  }

  // Nothing has been reserved, so any bound will do.
  lemma AnyLow(m: Many, n: nat, to: Stage, low: nat, after: Stage, low': nat, files: nat)
    requires Standing(m, n, 0, Untouched, to, low, files)
    ensures Standing(m, n, 0, Untouched, after, low', files)
  {
    forall id: L.AttemptId | id < n
      ensures InStage(m.ledger, StageOf(id, 0, Untouched, after), id, low')
        && PartIn(m.parts[id], StageOf(id, 0, Untouched, after), id, files)
    {
      assert InStage(m.ledger, StageOf(id, 0, Untouched, to), id, low)
        && PartIn(m.parts[id], StageOf(id, 0, Untouched, to), id, files);
    }
  }

  // ------------------------------------------------------------ past the caps

  // Of more attempts than either cap allows, each has two overlapping PUTs, of which one
  // releases the reservation under which the other submits; and then lookups record all
  // the jobs. More jobs are active, and were reserved at one moment, than the caps allow.
  lemma OverlapsBreakTheCaps(p: L.Policy, limit: nat, takesBack: bool, files: nat) returns (es: seq<ManyEvent>, from: nat)
    requires Positive(p) && limit >= 2
    ensures Orderly(NOTHING, p, limit, takesBack, es)
    ensures var s := RunMany(NOTHING, p, limit, es).ledger;
      && |L.ActiveIds(s.records, 1)| > p.maxActive
      && forall length: nat :: |HeldIn(s, 1, from, length)| > p.maxSubmissions
  {
    var n := p.maxActive + p.maxSubmissions;
    var e0 := CreateAll(p, limit, takesBack, n, Dropped, 0, files);
    var m0 := RunMany(NOTHING, p, limit, e0);
    from := m0.ledger.clock;
    AnyLow(m0, n, Dropped, 0, Dropped, from, files);
    var e1 := NextStages(m0, p, limit, takesBack, n, 0, n, Untouched, Dropped, from, false, from, files);
    var m1 := RunMany(m0, p, limit, e1);
    Onward(m1, n, Untouched, Dropped, Late, from, files);
    var e2 := NextStages(m1, p, limit, takesBack, n, 0, n, Dropped, Late, from, false, from, files);
    var s := RunMany(m1, p, limit, e2).ledger;
    AllActive(s, n, Dropped, Late, from);
    forall length: nat ensures |HeldIn(s, 1, from, length)| == n { AllInStretch(s, n, Dropped, Late, from, length); }
    es := e0 + e1 + e2;
    RunManyConcat(NOTHING, p, limit, takesBack, e0, e1);
    RunManyConcat(NOTHING, p, limit, takesBack, e0 + e1, e2);
  }

  // One attempt more than may be active, each submitted and reported finished in its turn;
  // and then the scheduler takes all the reports back.
  lemma TakingBackBreaksTheCap(p: L.Policy, limit: nat, files: nat) returns (es: seq<ManyEvent>)
    requires Positive(p) && limit >= 1
    ensures Orderly(NOTHING, p, limit, true, es)
    ensures |L.ActiveIds(RunMany(NOTHING, p, limit, es).ledger.records, 1)| > p.maxActive
  {
    var n := p.maxActive + 1;
    var e0 := CreateAll(p, limit, true, n, Ended, 0, files);
    var m0 := RunMany(NOTHING, p, limit, e0);
    var e1 := NextStages(m0, p, limit, true, n, 0, n, Untouched, Ended, 0, true, 0, files);
    var m1 := RunMany(m0, p, limit, e1);
    Onward(m1, n, Untouched, Ended, BackAgain, 0, files);
    var e2 := NextStages(m1, p, limit, true, n, 0, n, Ended, BackAgain, 0, false, m1.ledger.clock, files);
    AllActive(RunMany(m1, p, limit, e2).ledger, n, Ended, BackAgain, 0);
    es := e0 + e1 + e2;
    RunManyConcat(NOTHING, p, limit, true, e0, e1);
    RunManyConcat(NOTHING, p, limit, true, e0 + e1, e2);
  }

  // The last microsecond of the second that a clock is in.
  function LastMicro(clock: nat): nat { L.Moment(L.WholeSecond(clock)) + (L.MICROS - 1) }

  lemma LastOfItsSecond(clock: nat)
    ensures clock <= LastMicro(clock) && L.Moment(L.WholeSecond(LastMicro(clock))) == LastMicro(clock) - (L.MICROS - 1)
  {
  }

  // As many jobs as the cap allows are submitted and finished in the last microsecond of a
  // second, and one more as soon as their stamps, cut to that second, have left the window.
  lemma OneTooManyInADay(p: L.Policy, limit: nat, takesBack: bool, files: nat, length: nat) returns (es: seq<ManyEvent>, from: nat)
    requires Positive(p) && limit >= 1 && length > p.window - (L.MICROS - 1)
    ensures Orderly(NOTHING, p, limit, takesBack, es)
    ensures |HeldIn(RunMany(NOTHING, p, limit, es).ledger, 1, from, length)| > p.maxSubmissions
  {
    var k := p.maxSubmissions;
    var n := k + 1;
    var e0 := CreateAll(p, limit, takesBack, n, Ended, 0, files);
    var m0 := RunMany(NOTHING, p, limit, e0);
    from := LastMicro(m0.ledger.clock);
    LastOfItsSecond(m0.ledger.clock);
    AnyLow(m0, n, Ended, 0, Ended, from, files);
    var e1 := NextStages(m0, p, limit, takesBack, n, 0, k, Untouched, Ended, from, false, from, files);
    var m1 := RunMany(m0, p, limit, e1);
    var last := from + p.window - (L.MICROS - 2);
    StampedEarly(m1.ledger, n, k, from);
    RoomForNext(m1.ledger, p, n, k, Ended, from, last);
    var e2 := NextStage(m1, p, limit, takesBack, n, k, Untouched, Ended, from, last, files);
    AllInStretch(RunMany(m1, p, limit, e2).ledger, n, Untouched, Ended, from, length);
    es := e0 + e1 + e2;
    RunManyConcat(NOTHING, p, limit, takesBack, e0, e1);
    RunManyConcat(NOTHING, p, limit, takesBack, e0 + e1, e2);
  }

  lemma StampedEarly(s: L.LedgerState, n: nat, k: nat, t: nat)
    requires Midway(s, n, k, Untouched, Ended, t) && k <= n && s.clock == t && L.Moment(L.WholeSecond(t)) == t - (L.MICROS - 1)
    ensures AllBefore(s, k, t - (L.MICROS - 2))
  {
    forall id | id in s.records && id < k && s.records[id].submission.reservedAt.Some?
      ensures L.Moment(s.records[id].submission.reservedAt.value) < t - (L.MICROS - 2)
    {
      assert InStage(s, StageOf(id, k, Untouched, Ended), id, t);
    }
  }

  // --------------------------------------------------------- the machine's caps

  // Over every run of the machine, with any number of attempts, principals, requests and
  // failures, no principal has more active jobs than the cap, exactly when no attempt has
  // two PUTs in flight and the scheduler never takes "finished" back.
  lemma ActiveJobsExactly(p: L.Policy, limit: nat, takesBack: bool)
    requires Positive(p) && limit >= 1
    ensures ManyActiveCap(p, limit, takesBack) <==> limit == 1 && !takesBack
  {
    if limit >= 2 {
      var es, _ := OverlapsBreakTheCaps(p, limit, takesBack, 0);
      assert !WithinActiveCap(RunMany(NOTHING, p, limit, es).ledger, p);
    } else if takesBack {
      var es := TakingBackBreaksTheCap(p, limit, 0);
      assert !WithinActiveCap(RunMany(NOTHING, p, limit, es).ledger, p);
    } else {
      ActiveCapWithoutOverlap(p, limit);
    }
  }

  // Over every run of the machine, every stretch of the given length, wherever it begins,
  // holds no more submissions of one principal than the cap, exactly when no attempt has two
  // PUTs in flight and the length is at least 999999 microseconds short of the window.
  lemma SubmissionsExactly(p: L.Policy, limit: nat, takesBack: bool, length: nat)
    requires Positive(p) && limit >= 1
    ensures ManySubmissionCap(p, limit, takesBack, length) <==> limit == 1 && length <= p.window - (L.MICROS - 1)
  {
    if limit >= 2 {
      var es, from := OverlapsBreakTheCaps(p, limit, takesBack, 0);
      assert |HeldIn(RunMany(NOTHING, p, limit, es).ledger, 1, from, length)| > p.maxSubmissions;
    } else if length > p.window - (L.MICROS - 1) {
      var es, from := OneTooManyInADay(p, limit, takesBack, 0, length);
      assert |HeldIn(RunMany(NOTHING, p, limit, es).ledger, 1, from, length)| > p.maxSubmissions;
    } else {
      SubmissionCapWithoutOverlap(p, limit, takesBack, length);
    }
  }

  // ----------------------------------------------------------- the ledger's caps

  lemma {:induction false} MorePermitted(y: Surprises, x: Surprises, s: L.LedgerState, p: L.Policy, es: seq<L.LedgerEvent>)
    requires PermittedRun(y, s, p, es) && (y.late ==> x.late) && (y.takesBack ==> x.takesBack)
    ensures PermittedRun(x, s, p, es)
    decreases |es|
  {
    if es != [] { MorePermitted(y, x, L.Step(s, p, es[0]), p, es[1..]); }
  }

  // A run of the machine, as a run of the ledger.
  lemma LedgerRun(p: L.Policy, limit: nat, takesBack: bool, x: Surprises, ms: seq<ManyEvent>) returns (es: seq<L.LedgerEvent>)
    requires Orderly(NOTHING, p, limit, takesBack, ms) && (limit > 1 ==> x.late) && (takesBack ==> x.takesBack)
    ensures PermittedRun(x, L.EMPTY, p, es) && L.Steps(L.EMPTY, p, es) == RunMany(NOTHING, p, limit, ms).ledger
  {
    TraceIsPermitted(NOTHING, p, limit, takesBack, ms);
    es := Trace(NOTHING, p, limit, ms);
    MorePermitted(Surprises(limit > 1, takesBack), x, L.EMPTY, p, es);
  }

  // The cap on active jobs holds throughout every run of the ledger exactly when neither
  // kind of surprise can happen.
  lemma ActiveCapExactly(p: L.Policy, x: Surprises)
    requires Positive(p)
    ensures ActiveCapHolds(p, x) <==> x == NO_SURPRISES
  {
    if x == NO_SURPRISES {
      ActiveCapKept(p);
    } else if x.late {
      var ms, _ := OverlapsBreakTheCaps(p, 2, false, 0);
      var es := LedgerRun(p, 2, false, x, ms);
      assert !WithinActiveCap(L.Steps(L.EMPTY, p, es), p);
    } else {
      var ms := TakingBackBreaksTheCap(p, 1, 0);
      var es := LedgerRun(p, 1, true, x, ms);
      assert !WithinActiveCap(L.Steps(L.EMPTY, p, es), p);
    }
  }

  // Over every run of the ledger, every stretch of the given length holds no more submissions
  // than the cap, exactly when no submission is recorded whose reservation was released and
  // the length is at least 999999 microseconds short of the window.
  lemma SubmissionCapExactly(p: L.Policy, x: Surprises, length: nat)
    requires Positive(p)
    ensures SubmissionCapHolds(p, x, length) <==> !x.late && length <= p.window - (L.MICROS - 1)
  {
    if x.late {
      var ms, from := OverlapsBreakTheCaps(p, 2, false, 0);
      var es := LedgerRun(p, 2, false, x, ms);
      assert |HeldIn(L.Steps(L.EMPTY, p, es), 1, from, length)| > p.maxSubmissions;
    } else if length > p.window - (L.MICROS - 1) {
      var ms, from := OneTooManyInADay(p, 1, false, 0, length);
      var es := LedgerRun(p, 1, false, x, ms);
      assert |HeldIn(L.Steps(L.EMPTY, p, es), 1, from, length)| > p.maxSubmissions;
    } else {
      SubmissionCapKept(p, x, length);
    }
  }
}
