/** When a queued job is always counted against its principal's caps. */
module MachineCounting {
  import opened Wrappers
  import opened SubmissionProtocol
  import opened SubmissionSafety
  import T = SubmissionTheorems
  import L = Ledger
  import opened MachineExecution
  import opened MachineTheorems

  // Every queued job's record is RESERVED, UNCERTAIN or SUBMITTED.
  ghost predicate QueuedJobsAreCounted(p: L.Policy, files: nat, limit: nat) {
    forall w, es :: Bound(w, files) && Truthful(es) ==>
      var w' := RunWorld(w, p, limit, es);
      w'.attempt in w'.ledger.records
      && (w'.remote.jobs != [] ==> L.Counted(Submission(w').status))
  }

  lemma {:induction false} RunWorldConcat(w: World, p: L.Policy, limit: nat, a: seq<WorldEvent>, b: seq<WorldEvent>)
    ensures RunWorld(w, p, limit, a + b) == RunWorld(RunWorld(w, p, limit, a), p, limit, b)
    decreases |a|
  {
    if a == [] {
      assert a + b == b;
    } else {
      assert (a + b)[1..] == a[1..] + b;
      RunWorldConcat(ApplyWorld(w, p, limit, a[0]), p, limit, a[1..], b);
    }
  }

  // What happens to this attempt alone.
  predicate Own(es: seq<WorldEvent>) {
    Truthful(es) && forall i :: 0 <= i < |es| ==> !es[i].Elsewhere?
  }

  function Lift(es: seq<Event>): seq<WorldEvent> {
    seq(|es|, i requires 0 <= i < |es| => Remote(es[i]))
  }

  // While a PUT waits for a remote process, that process can run undisturbed.
  lemma {:induction false} LiftedRun(w: World, p: L.Policy, limit: nat, es: seq<Event>, q: Pid)
    requires w.attempt in w.ledger.records && Waits(w, q)
    requires forall i :: 0 <= i < |es| ==> es[i].Go? && es[i].p == q
    ensures RunWorld(w, p, limit, Lift(es)) == w.(remote := Run(w.remote, es))
    decreases |es|
  {
    if es == [] {
      assert w.(remote := w.remote) == w;
    } else {
      assert Lift(es)[1..] == Lift(es[1..]);
      var w' := w.(remote := Apply(w.remote, es[0]));
      assert ApplyWorld(w, p, limit, Lift(es)[0]) == w';
      LiftedRun(w', p, limit, es[1..], q);
    }
  }

  lemma TwoSteps(w: World, p: L.Policy, limit: nat, a: WorldEvent, b: WorldEvent)
    ensures RunWorld(w, p, limit, [a, b]) == ApplyWorld(ApplyWorld(w, p, limit, a), p, limit, b)
  {
    var both, one := [a, b], [b];
    assert both[1..] == one && one[1..] == [];
    var w1 := ApplyWorld(w, p, limit, a);
    assert RunWorld(w, p, limit, both) == RunWorld(w1, p, limit, one);
    assert RunWorld(w1, p, limit, one) == RunWorld(ApplyWorld(w1, p, limit, b), p, limit, []);
  }

  lemma OneStep(w: World, p: L.Policy, limit: nat, a: WorldEvent)
    ensures RunWorld(w, p, limit, [a]) == ApplyWorld(w, p, limit, a)
  {
    assert [a][1..] == [];
    assert RunWorld(w, p, limit, [a]) == RunWorld(ApplyWorld(w, p, limit, a), p, limit, [a][1..]);
  }

  // A world in which PUT i has just started its remote Submit of a prepared attempt.
  predicate AboutToSubmit(w: World, i: PutId) {
    && w.attempt in w.ledger.records
    && i in w.puts && w.puts[i] == Put(SubmittingJob, true)
    && w.remote.file == Holds(w.fp, Prepared) && w.remote.lock.None? && w.remote.jobs == []
    && SubmitPid(i) in w.remote.procs && w.remote.procs[SubmitPid(i)] == Process(w.fp, SubmitRead)
  }

  // A Submit that has been started runs to its end, sbatch answering as given.
  lemma StartedSubmitRuns(s: State, q: Pid, fp: Fingerprint, answer: Outcome)
    requires s.file == Holds(fp, Prepared) && s.lock.None? && s.jobs == []
    requires q in s.procs && s.procs[q] == Process(fp, SubmitRead) && (answer.Accepts? || answer.Refuses?)
    ensures var s' := Run(s, T.SubmitScript(q, fp, answer)[1..]);
      && s'.lock.None? && Over(s', q) && s'.procs.Keys == s.procs.Keys
      && (answer.Refuses? ==> s'.file == Holds(fp, Prepared) && s'.jobs == [])
      && (answer.Accepts? ==> s'.jobs != [] && s'.file == Holds(fp, Submitted(answer.job)))
  {
    var script := T.SubmitScript(q, fp, answer);
    var before := s.(procs := map k | k in s.procs && k != q :: s.procs[k]);
    assert Apply(before, script[0]) == s by {
      assert before.procs[q := Process(fp, SubmitRead)] == s.procs;
    }
    T.SubmitWorks(before, q, fp, answer);
    assert Run(before, script) == Run(s, script[1..]);
  }

  // The Submit of PUT i does.
  lemma SubmitRuns(w: World, p: L.Policy, limit: nat, i: PutId, answer: Outcome) returns (es: seq<WorldEvent>)
    requires AboutToSubmit(w, i) && (answer.Accepts? || answer.Refuses?)
    ensures Own(es)
    ensures var w' := RunWorld(w, p, limit, es);
      && w' == w.(remote := w'.remote)
      && w'.remote.lock.None? && Over(w'.remote, SubmitPid(i))
      && (answer.Refuses? ==> w'.remote.file == Holds(w.fp, Prepared) && w'.remote.jobs == [])
      && (answer.Accepts? ==> w'.remote.jobs != [] && w'.remote.file == Holds(w.fp, Submitted(answer.job)))
      && w'.remote.procs.Keys == w.remote.procs.Keys
  {
    var q := SubmitPid(i);
    var script := T.SubmitScript(q, w.fp, answer)[1..];
    StartedSubmitRuns(w.remote, q, w.fp, answer);
    es := Lift(script);
    LiftedRun(w, p, limit, script, q);
  }

  // --------------------------------------------- one PUT, undisturbed

  // PUT 0 prepares the freshly bound attempt.
  lemma FirstPrepares(w: World, p: L.Policy, limit: nat, files: nat) returns (es: seq<WorldEvent>)
    requires limit >= 1 && Bound(w, files)
    ensures Own(es)
    ensures var w' := RunWorld(w, p, limit, es); w' == w.(remote := w'.remote, puts := w'.puts) && FirstPrepared(w')
  {
    var script := T.PrepareScript(0, w.fp, files, Works);
    var start := [StartPut(0, true), PutStep(0, true, 0)];
    var w1 := w.(remote := Apply(w.remote, script[0]), puts := map[0 := Put(Preparing, true)]);
    TwoSteps(w, p, limit, start[0], start[1]);
    assert LivePuts(w) == {};
    assert ApplyWorld(w, p, limit, start[0]) == w.(puts := map[0 := Put(FirstRead, true)]);
    assert RunWorld(w, p, limit, start) == w1;
    T.PrepareWorks(w.remote, 0, w.fp, Works);
    assert Run(w.remote, script) == Run(w1.remote, script[1..]);
    assert forall k :: 0 <= k < |script[1..]| ==> script[1..][k] == Go(0, Works);
    LiftedRun(w1, p, limit, script[1..], 0);
    es := start + Lift(script[1..]);
    RunWorldConcat(w, p, limit, start, Lift(script[1..]));
  }

  predicate FirstPrepared(w: World) {
    && w.attempt in w.ledger.records && w.puts == map[0 := Put(Preparing, true)]
    && w.remote.file == Holds(w.fp, Prepared) && w.remote.lock.None? && w.remote.jobs == []
    && w.remote.procs.Keys == {0} && Over(w.remote, 0)
  }

  // Recording PREPARED and asking for a reservation, at moment t.
  function ReserveEvents(id: L.AttemptId, principal: L.Principal, t: nat): seq<L.LedgerEvent> {
    [L.RecordRemote(id, Some(Prepared), t), L.Reserve(id, principal, t, t)]
  }

  // The reservation that is asked for at moment t will be granted.
  predicate Grants(s: L.LedgerState, p: L.Policy, id: L.AttemptId, t: nat) {
    && id in s.records && s.clock <= t
    && var prepared := L.WithRemoteState(s.records[id], Some(Prepared), t);
       L.ReserveVerdict(s.records[id := prepared], p, id, s.records[id].binding.principal, t).Granted?
  }

  lemma LedgerReserves(s: L.LedgerState, p: L.Policy, id: L.AttemptId, t: nat)
    requires Grants(s, p, id, t)
    ensures var es := ReserveEvents(id, s.records[id].binding.principal, t);
      var r := L.WithReservation(L.WithRemoteState(s.records[id], Some(Prepared), t), t);
      && L.Steps(s, p, es) == L.Step(L.Step(s, p, es[0]), p, es[1])
      && L.Steps(s, p, es) == s.(records := s.records[id := r], clock := t, held := s.held[id := t])
  {
    var es := ReserveEvents(id, s.records[id].binding.principal, t);
    var s1 := L.Step(s, p, es[0]);
    assert L.Steps(s, p, es) == L.Steps(s1, p, es[1..]);
    assert L.Steps(s1, p, es[1..]) == L.Steps(L.Step(s1, p, es[1]), p, es[1..][1..]);
  }

  // It reads what it has prepared ...
  lemma FirstReadsBack(w: World, p: L.Policy, limit: nat, t: nat)
    requires FirstPrepared(w)
    ensures RunWorld(w, p, limit, [PutStep(0, true, t), PutStep(0, true, t)]) == w.(puts := map[0 := Put(RecordPrepared, true)])
  {
    var a := PutStep(0, true, t);
    TwoSteps(w, p, limit, a, a);
    assert ApplyWorld(w, p, limit, a) == w.(puts := map[0 := Put(ReadPrepared, true)]);
  }

  // ... records it, and asks for a reservation ...
  lemma FirstAsks(w: World, p: L.Policy, limit: nat, t: nat)
    requires FirstPrepared(w) && Grants(w.ledger, p, w.attempt, t)
    ensures var id, a := w.attempt, PutStep(0, true, t);
      var es := ReserveEvents(id, w.ledger.records[id].binding.principal, t);
      var w1 := w.(puts := map[0 := Put(RecordPrepared, true)]);
      var w2 := w.(ledger := L.Step(w.ledger, p, es[0]), puts := map[0 := Put(Reserving, true)]);
      && ApplyWorld(w1, p, limit, a) == w2
      && ApplyWorld(w2, p, limit, a)
         == w.(remote := Apply(w.remote, StartSubmit(1, w.fp)), ledger := L.Steps(w.ledger, p, es),
               puts := map[0 := Put(SubmittingJob, true)])
  {
    LedgerReserves(w.ledger, p, w.attempt, t);
    var w1 := w.(puts := map[0 := Put(RecordPrepared, true)]);
    assert w1.puts[0 := Put(Reserving, true)] == map[0 := Put(Reserving, true)];
    assert map[0 := Put(Reserving, true)][0 := Put(SubmittingJob, true)] == map[0 := Put(SubmittingJob, true)];
  }

  // ... and starts its Submit.
  lemma FirstReserves(w: World, p: L.Policy, limit: nat, t: nat) returns (es: seq<WorldEvent>)
    requires FirstPrepared(w) && Grants(w.ledger, p, w.attempt, t)
    ensures Own(es)
    ensures var w' := RunWorld(w, p, limit, es);
      && AboutToSubmit(w', 0) && w' == w.(remote := w'.remote, puts := map[0 := Put(SubmittingJob, true)], ledger := w'.ledger)
      && w'.ledger == L.Steps(w.ledger, p, ReserveEvents(w.attempt, w.ledger.records[w.attempt].binding.principal, t))
      && w'.remote.procs.Keys == {0, 1}
  {
    var a := PutStep(0, true, t);
    FirstReadsBack(w, p, limit, t);
    FirstAsks(w, p, limit, t);
    TwoSteps(w.(puts := map[0 := Put(RecordPrepared, true)]), p, limit, a, a);
    LedgerReserves(w.ledger, p, w.attempt, t);
    es := [a, a] + [a, a];
    RunWorldConcat(w, p, limit, [a, a], [a, a]);
  }

  // Its Submit having ended with a job, it reads SUBMITTED ...
  lemma FirstReadsSubmitted(w: World, p: L.Policy, limit: nat, t: nat, job: JobId)
    requires w.attempt in w.ledger.records && w.puts == map[0 := Put(SubmittingJob, true)]
    requires Over(w.remote, 1) && w.remote.file == Holds(w.fp, Submitted(job))
    ensures RunWorld(w, p, limit, [PutStep(0, true, t), PutStep(0, true, t)])
         == w.(puts := map[0 := Put(RecordFinal(Submitted(job)), true)])
  {
    var a := PutStep(0, true, t);
    TwoSteps(w, p, limit, a, a);
    assert ApplyWorld(w, p, limit, a) == w.(puts := map[0 := Put(ReadSubmitted(true), true)]);
  }

  // ... and records it.
  lemma FirstRecords(w: World, p: L.Policy, limit: nat, t: nat, job: JobId)
    requires w.attempt in w.ledger.records && w.puts == map[0 := Put(SubmittingJob, true)]
    requires Over(w.remote, 1) && w.remote.file == Holds(w.fp, Submitted(job))
    ensures var a := PutStep(0, true, t); var w' := RunWorld(w, p, limit, [a, a] + [a]);
      w'.ledger == L.Step(w.ledger, p, L.RecordRemote(w.attempt, Some(Submitted(job)), t))
  {
    var a := PutStep(0, true, t);
    FirstReadsSubmitted(w, p, limit, t, job);
    var w1 := w.(puts := map[0 := Put(RecordFinal(Submitted(job)), true)]);
    RunWorldConcat(w, p, limit, [a, a], [a]);
    OneStep(w1, p, limit, a);
  }

  // All the ledger events of a PUT that submits its job.
  function SubmitEvents(id: L.AttemptId, principal: L.Principal, t: nat, job: JobId): seq<L.LedgerEvent> {
    ReserveEvents(id, principal, t) + [L.RecordRemote(id, Some(Submitted(job)), t)]
  }

  // It prepares, reserves and submits, and sbatch answers as given.
  lemma FirstIsAnswered(w: World, p: L.Policy, limit: nat, files: nat, t: nat, answer: Outcome) returns (es: seq<WorldEvent>)
    requires limit >= 1 && Bound(w, files) && Grants(w.ledger, p, w.attempt, t) && (answer.Accepts? || answer.Refuses?)
    ensures Own(es)
    ensures var w' := RunWorld(w, p, limit, es);
      && w' == w.(remote := w'.remote, puts := map[0 := Put(SubmittingJob, true)], ledger := w'.ledger)
      && w'.ledger == L.Steps(w.ledger, p, ReserveEvents(w.attempt, w.ledger.records[w.attempt].binding.principal, t))
      && w'.remote.lock.None? && Over(w'.remote, 1) && w'.remote.procs.Keys == {0, 1}
      && (answer.Refuses? ==> w'.remote.file == Holds(w.fp, Prepared) && w'.remote.jobs == [])
      && (answer.Accepts? ==> w'.remote.file == Holds(w.fp, Submitted(answer.job)))
  {
    var e1 := FirstPrepares(w, p, limit, files);
    var w1 := RunWorld(w, p, limit, e1);
    var e2 := FirstReserves(w1, p, limit, t);
    var w2 := RunWorld(w1, p, limit, e2);
    var e3 := SubmitRuns(w2, p, limit, 0, answer);
    es := e1 + e2 + e3;
    RunWorldConcat(w, p, limit, e1, e2);
    RunWorldConcat(w, p, limit, e1 + e2, e3);
  }

  // A PUT that is not disturbed, and is granted its reservation, queues its job and records it.
  lemma PutWorks(w: World, p: L.Policy, limit: nat, files: nat, t: nat, job: JobId) returns (es: seq<WorldEvent>)
    requires limit >= 1 && Bound(w, files) && Grants(w.ledger, p, w.attempt, t)
    ensures Own(es)
    ensures RunWorld(w, p, limit, es).ledger
         == L.Steps(w.ledger, p, SubmitEvents(w.attempt, w.ledger.records[w.attempt].binding.principal, t, job))
  {
    var before := FirstIsAnswered(w, p, limit, files, t, Accepts(job));
    var a := PutStep(0, true, t);
    LedgerReserves(w.ledger, p, w.attempt, t);
    FirstRecords(RunWorld(w, p, limit, before), p, limit, t, job);
    es := before + ([a, a] + [a]);
    RunWorldConcat(w, p, limit, before, [a, a] + [a]);
    LastRecorded(w.ledger, p, w.attempt, w.ledger.records[w.attempt].binding.principal, t, job);
  }

  lemma LastRecorded(s: L.LedgerState, p: L.Policy, id: L.AttemptId, principal: L.Principal, t: nat, job: JobId)
    ensures L.Steps(s, p, SubmitEvents(id, principal, t, job))
         == L.Step(L.Steps(s, p, ReserveEvents(id, principal, t)), p, L.RecordRemote(id, Some(Submitted(job)), t))
  {
    var e := L.RecordRemote(id, Some(Submitted(job)), t);
    L.StepsConcat(s, p, ReserveEvents(id, principal, t), [e]);
    var s1 := L.Steps(s, p, ReserveEvents(id, principal, t));
    assert L.Steps(s1, p, [e]) == L.Steps(L.Step(s1, p, e), p, [e][1..]);
  }

  // ------------------------------------------ two PUTs on one attempt

  // A world in which PUT 0 holds a reservation and its Submit is over, nothing being queued.
  predicate Refused(w: World, first: PutPc, t: nat) {
    && w.attempt in w.ledger.records && Submission(w).status.Reserved? && w.ledger.clock == t
    && w.ledger.records[w.attempt].state == L.IsPrepared
    && w.remote.procs.Keys == {0, 1} && Over(w.remote, 1)
    && w.remote.file == Holds(w.fp, Prepared) && w.remote.lock.None? && w.remote.jobs == []
    && 0 in w.puts && w.puts[0] == Put(first, true)
  }

  lemma FirstReadsPrepared(w: World, p: L.Policy, limit: nat, t: nat)
    requires Refused(w, SubmittingJob, t)
    ensures RunWorld(w, p, limit, [PutStep(0, true, t), PutStep(0, true, t)])
         == w.(puts := w.puts[0 := Put(Releasing, true)])
  {
    var a := PutStep(0, true, t);
    TwoSteps(w, p, limit, a, a);
    assert ApplyWorld(w, p, limit, a) == w.(puts := w.puts[0 := Put(ReadSubmitted(true), true)]);
    assert w.puts[0 := Put(ReadSubmitted(true), true)][0 := Put(Releasing, true)] == w.puts[0 := Put(Releasing, true)];
  }

  lemma SecondStarts(w: World, p: L.Policy, limit: nat, t: nat)
    requires Refused(w, Releasing, t) && w.puts == map[0 := Put(Releasing, true)] && limit >= 2
    ensures RunWorld(w, p, limit, [StartPut(1, true), PutStep(1, true, t)])
         == w.(puts := w.puts[1 := Put(RecordPrepared, true)])
  {
    TwoSteps(w, p, limit, StartPut(1, true), PutStep(1, true, t));
    assert LivePuts(w) == {0};
    assert ApplyWorld(w, p, limit, StartPut(1, true)) == w.(puts := w.puts[1 := Put(FirstRead, true)]);
    assert w.puts[1 := Put(FirstRead, true)][1 := Put(RecordPrepared, true)] == w.puts[1 := Put(RecordPrepared, true)];
  }

  // Recording PREPARED again, and asking again for a reservation, changes nothing.
  lemma AskedAgain(s: L.LedgerState, p: L.Policy, id: L.AttemptId, principal: L.Principal)
    requires id in s.records && s.records[id].state == L.IsPrepared && s.records[id].submission.status.Reserved?
    ensures L.Step(s, p, L.RecordRemote(id, Some(Prepared), s.clock)) == s
    ensures L.Step(s, p, L.Reserve(id, principal, s.clock, s.clock)) == s
  {
    assert s.records[id := s.records[id]] == s.records;
  }

  lemma SecondReserves(w: World, p: L.Policy, limit: nat, t: nat)
    requires Refused(w, Releasing, t) && 1 in w.puts && w.puts[1] == Put(RecordPrepared, true)
    ensures var w' := RunWorld(w, p, limit, [PutStep(1, true, t), PutStep(1, true, t)]);
      AboutToSubmit(w', 1) && w' == w.(remote := w'.remote, puts := w'.puts) && 0 in w'.puts && w'.puts[0].pc.Releasing?
  {
    var b := PutStep(1, true, t);
    TwoSteps(w, p, limit, b, b);
    AskedAgain(w.ledger, p, w.attempt, w.ledger.records[w.attempt].binding.principal);
    var w1 := ApplyWorld(w, p, limit, b);
    assert w1.puts == w.puts[1 := Put(Reserving, true)] && w1.remote == w.remote && w1.ledger == w.ledger;
  }

  // sbatch refuses; the first PUT reads PREPARED and is about to release its
  // reservation, when a second PUT finds the attempt prepared and reserved.
  lemma SecondJoins(w: World, p: L.Policy, limit: nat, t: nat) returns (es: seq<WorldEvent>)
    requires limit >= 2 && Refused(w, SubmittingJob, t) && w.puts == map[0 := Put(SubmittingJob, true)]
    ensures Own(es)
    ensures var w' := RunWorld(w, p, limit, es);
      AboutToSubmit(w', 1) && w' == w.(remote := w'.remote, puts := w'.puts) && 0 in w'.puts && w'.puts[0].pc.Releasing?
  {
    var a, start, b := PutStep(0, true, t), StartPut(1, true), PutStep(1, true, t);
    FirstReadsPrepared(w, p, limit, t);
    var w1 := w.(puts := map[0 := Put(Releasing, true)]);
    assert w1.puts == w.puts[0 := Put(Releasing, true)];
    SecondStarts(w1, p, limit, t);
    var w2 := w1.(puts := w1.puts[1 := Put(RecordPrepared, true)]);
    SecondReserves(w2, p, limit, t);
    es := [a, a] + [start, b] + [b, b];
    RunWorldConcat(w, p, limit, [a, a], [start, b]);
    RunWorldConcat(w, p, limit, [a, a] + [start, b], [b, b]);
  }

  // The first PUT is granted a reservation and refused by sbatch.
  lemma FirstIsRefused(w: World, p: L.Policy, limit: nat, files: nat, t: nat) returns (es: seq<WorldEvent>)
    requires limit >= 1 && Bound(w, files) && Grants(w.ledger, p, w.attempt, t)
    ensures Own(es)
    ensures var w' := RunWorld(w, p, limit, es);
      && Refused(w', SubmittingJob, t) && w' == w.(remote := w'.remote, puts := map[0 := Put(SubmittingJob, true)], ledger := w'.ledger)
      && w'.ledger == L.Steps(w.ledger, p, ReserveEvents(w.attempt, w.ledger.records[w.attempt].binding.principal, t))
  {
    es := FirstIsAnswered(w, p, limit, files, t, Refuses);
    LedgerReserves(w.ledger, p, w.attempt, t);
  }

  // The first PUT releases, and then the Submit of the second queues a job.
  lemma ReleasedThenQueued(w: World, p: L.Policy, limit: nat, t: nat, job: JobId) returns (es: seq<WorldEvent>)
    requires AboutToSubmit(w, 1) && 0 in w.puts && w.puts[0].pc.Releasing?
    ensures Own(es)
    ensures var w' := RunWorld(w, p, limit, es);
      && w' == w.(remote := w'.remote, puts := w'.puts, ledger := w'.ledger)
      && w'.ledger == L.Step(w.ledger, p, L.ReleaseReservation(w.attempt, t))
      && w'.remote.jobs != [] && w'.remote.file == Holds(w'.fp, Submitted(job))
  {
    var release := [PutStep(0, true, t)];
    var w1 := ApplyWorld(w, p, limit, release[0]);
    OneStep(w, p, limit, release[0]);
    var rest := SubmitRuns(w1, p, limit, 1, Accepts(job));
    es := release + rest;
    RunWorldConcat(w, p, limit, release, rest);
  }

  // The ledger events of a reservation that is released.
  function DropEvents(id: L.AttemptId, principal: L.Principal, t: nat): seq<L.LedgerEvent> {
    ReserveEvents(id, principal, t) + [L.ReleaseReservation(id, t)]
  }

  // The first PUT's release falls between the second PUT's look at the
  // reservation and its sbatch: a job is queued that nothing counts.
  lemma UncountedJob(w: World, p: L.Policy, limit: nat, files: nat, t: nat, job: JobId) returns (es: seq<WorldEvent>)
    requires limit >= 2 && Bound(w, files) && Grants(w.ledger, p, w.attempt, t)
    ensures Own(es)
    ensures var w' := RunWorld(w, p, limit, es);
      && w' == w.(remote := w'.remote, puts := w'.puts, ledger := w'.ledger)
      && w'.ledger == L.Steps(w.ledger, p, DropEvents(w.attempt, w.ledger.records[w.attempt].binding.principal, t))
      && w'.remote.jobs != [] && w'.remote.file == Holds(w'.fp, Submitted(job))
      && w'.attempt in w'.ledger.records && Submission(w').status.Released?
  {
    var e1 := FirstIsRefused(w, p, limit, files, t);
    var w1 := RunWorld(w, p, limit, e1);
    var e2 := SecondJoins(w1, p, limit, t);
    var e3 := ReleasedThenQueued(RunWorld(w1, p, limit, e2), p, limit, t, job);
    es := e1 + e2 + e3;
    RunWorldConcat(w, p, limit, e1, e2);
    RunWorldConcat(w, p, limit, e1 + e2, e3);
    DropReached(w.ledger, p, w.attempt, t);
  }

  lemma DropReached(s: L.LedgerState, p: L.Policy, id: L.AttemptId, t: nat)
    requires Grants(s, p, id, t)
    ensures var principal := s.records[id].binding.principal;
      var s1 := L.Steps(s, p, ReserveEvents(id, principal, t));
      && L.Steps(s, p, DropEvents(id, principal, t)) == L.Step(s1, p, L.ReleaseReservation(id, t))
      && id in s1.records && L.Step(s1, p, L.ReleaseReservation(id, t)).records[id] == L.WithRelease(s1.records[id])
      && s1.records[id].submission.status.Reserved?
  {
    var principal := s.records[id].binding.principal;
    var e := L.ReleaseReservation(id, t);
    LedgerReserves(s, p, id, t);
    L.StepsConcat(s, p, ReserveEvents(id, principal, t), [e]);
    var s1 := L.Steps(s, p, ReserveEvents(id, principal, t));
    assert L.Steps(s1, p, [e]) == L.Steps(L.Step(s1, p, e), p, [e][1..]);
  }

  // A PUT that is not disturbed, and whose job sbatch refuses, gives its reservation back.
  lemma RefusedPutReleases(w: World, p: L.Policy, limit: nat, files: nat, t: nat) returns (es: seq<WorldEvent>)
    requires limit >= 1 && Bound(w, files) && Grants(w.ledger, p, w.attempt, t)
    ensures Own(es)
    ensures var w' := RunWorld(w, p, limit, es);
      && w'.ledger == L.Steps(w.ledger, p, DropEvents(w.attempt, w.ledger.records[w.attempt].binding.principal, t))
      && w'.attempt in w'.ledger.records && Submission(w').status.Released?
      && w'.remote.jobs == [] && LivePuts(w') == {}
  {
    var before := FirstIsRefused(w, p, limit, files, t);
    var w1 := RunWorld(w, p, limit, before);
    var a := PutStep(0, true, t);
    FirstReadsPrepared(w1, p, limit, t);
    var w2 := w1.(puts := w1.puts[0 := Put(Releasing, true)]);
    OneStep(w2, p, limit, a);
    DropReached(w.ledger, p, w.attempt, t);
    es := before + [a, a] + [a];
    RunWorldConcat(w, p, limit, before, [a, a]);
    RunWorldConcat(w, p, limit, before + [a, a], [a]);
  }

  // ------------------------------------------------- when sbatch is not heard of

  // A PUT that will not give its reservation back.
  predicate IsQuiet(pc: PutPc) { pc == ReadSubmitted(false) || pc.RecordFinal? || pc.Answered? }

  predicate AllQuiet(w: World) {
    w.attempt in w.ledger.records && L.Counted(Submission(w).status) && forall i :: i in w.puts ==> IsQuiet(w.puts[i].pc)
  }

  lemma QuietStep(w: World, p: L.Policy, limit: nat, e: WorldEvent)
    requires AllQuiet(w) && !e.StartPut?
    ensures AllQuiet(ApplyWorld(w, p, limit, e))
  {
    match e
    case PutStep(i, ok, now) =>
      if i in w.puts && w.puts[i].pc.RecordFinal? { CountedKept(w, p, L.RecordRemote(w.attempt, Some(w.puts[i].pc.seen), now)); }
    case LookupRecord(k, now) =>
      if k in w.lookups { CountedKept(w, p, L.RecordRemote(w.attempt, Some(w.lookups[k]), now)); }
    case Elsewhere(le) => if le.id != w.attempt || le.RefreshScheduler? { CountedKept(w, p, le); }
    case _ =>
  }

  // When the remote call of a PUT ended without an exit code, whether a job was queued is not
  // known, and the reservation stays counted, whatever is read, looked up or refreshed later:
  // as long as no new PUT is made.
  lemma {:induction false} UnheardKeepsReservation(w: World, p: L.Policy, limit: nat, es: seq<WorldEvent>)
    requires AllQuiet(w) && forall k :: 0 <= k < |es| ==> !es[k].StartPut?
    ensures AllQuiet(RunWorld(w, p, limit, es))
    decreases |es|
  {
    if es != [] {
      QuietStep(w, p, limit, es[0]);
      UnheardKeepsReservation(ApplyWorld(w, p, limit, es[0]), p, limit, es[1..]);
    }
  }

  // The remote call of the only live PUT ends at this step, without an exit code.
  lemma UnheardIsQuiet(w: World, p: L.Policy, limit: nat, i: PutId, now: nat)
    requires w.attempt in w.ledger.records && CountedInv(w) && i in w.puts && w.puts[i].pc.SubmittingJob? && Over(w.remote, SubmitPid(i))
    ensures AllQuiet(ApplyWorld(w, p, limit, PutStep(i, false, now)))
  {
  }

  const BINDING := L.Binding(1, 0, 0, 7, 1)

  // A ledger of one attempt, just bound.
  function NewWorld(files: nat): World {
    World(0, 7, Init(files),
          L.LedgerState(map[0 := L.NewRecord(BINDING, 0)], 0, map[0 := 0], map[]), map[], map[])
  }

  lemma NewWorldGrants(p: L.Policy, files: nat)
    requires 0 < p.maxActive && 0 < p.maxSubmissions
    ensures Bound(NewWorld(files), files) && Grants(NewWorld(files).ledger, p, 0, 0)
  {
    var records := NewWorld(files).ledger.records[0 := L.WithRemoteState(L.NewRecord(BINDING, 0), Some(Prepared), 0)];
    assert L.WindowIds(records, 1, 0 - p.window) == {} && L.ActiveIds(records, 1) == {};
  }

  // A queued job is counted in every run, from every freshly bound attempt,
  // exactly when PUTs of one attempt do not overlap. Lookups may.
  lemma CountedExactlyWithoutOverlap(p: L.Policy, files: nat, limit: nat)
    requires 0 < p.maxActive && 0 < p.maxSubmissions
    ensures QueuedJobsAreCounted(p, files, limit) <==> limit <= 1
  {
    if limit <= 1 {
      forall w, es | Bound(w, files) && Truthful(es)
        ensures var w' := RunWorld(w, p, limit, es);
          w'.attempt in w'.ledger.records && (w'.remote.jobs != [] ==> L.Counted(Submission(w').status))
      {
        BoundInv(w, files);
        WorldRun(w, p, limit, es);
      }
    } else {
      NewWorldGrants(p, files);
      var es := UncountedJob(NewWorld(files), p, limit, files, 0, 9);
      assert !QueuedJobsAreCounted(p, files, limit);
    }
  }
}
