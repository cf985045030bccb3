/** What the ledger can be relied on to say about the remote attempt. */
module MachineTheorems {
  import opened Wrappers
  import opened SubmissionProtocol
  import opened SubmissionSafety
  import T = SubmissionTheorems
  import L = Ledger
  import opened MachineExecution

  predicate IsSubmit(pc: Pc) {
    || pc.SubmitRead? || pc.SubmitClaim? || pc.SubmitReread? || pc.Sbatch? || pc.Wait?
    || ((pc.WriteBegin? || pc.WriteEnd?) && !pc.goal.ToPrepared?)
  }

  predicate ProcInv(w: World, p: Pid)
    requires p in w.remote.procs
  {
    && w.remote.procs[p].fp == w.fp && p / 2 in w.puts
    && (p % 2 == 0 ==> !IsSubmit(w.remote.procs[p].pc))
    && (Over(w.remote, p) || Waits(w, p))
  }

  // A reading is genuine: the job it announces has been queued.
  predicate Genuine(remote: State, seen: Phase, fp: Fingerprint) {
    seen.Submitted? ==> Names(remote, seen.job, fp)
  }

  predicate ReadingsInv(w: World) {
    && (forall k :: k in w.lookups ==> Genuine(w.remote, w.lookups[k], w.fp))
    && (forall i :: i in w.puts && w.puts[i].pc.RecordFinal? ==> Genuine(w.remote, w.puts[i].pc.seen, w.fp))
  }

  predicate RecordInv(w: World) {
    && w.attempt in w.ledger.records
    && (Submission(w).status.SubmittedToSlurm? ==>
          Submission(w).jobId.Some? && Names(w.remote, Submission(w).jobId.value, w.fp))
  }

  // Holds for any number of concurrent PUTs.
  predicate WorldInv(w: World) {
    && Inv(w.remote)
    && (forall p :: p in w.remote.procs ==> ProcInv(w, p))
    && ReadingsInv(w) && RecordInv(w)
  }

  lemma ReadIsGenuine(w: World)
    requires WorldInv(w) && w.remote.file.Holds? && w.remote.file.fp == w.fp
    ensures Genuine(w.remote, w.remote.file.phase, w.fp)
  {
  }

  lemma GoToInv(w: World, i: PutId, pc: PutPc)
    requires WorldInv(w) && i in w.puts
    requires pc.RecordFinal? ==> Genuine(w.remote, pc.seen, w.fp)
    requires pc.Preparing? || Over(w.remote, PreparePid(i))
    requires pc.SubmittingJob? || Over(w.remote, SubmitPid(i))
    ensures WorldInv(GoTo(w, i, pc))
  {
    var w' := GoTo(w, i, pc);
    forall p | p in w'.remote.procs ensures ProcInv(w', p) {
      assert ProcInv(w, p);
      assert p == if p % 2 == 0 then PreparePid(p / 2) else SubmitPid(p / 2);
    }
  }

  lemma OwnProcesses(w: World, i: PutId)
    requires WorldInv(w) && i in w.puts
    ensures w.puts[i].pc.Preparing? || Over(w.remote, PreparePid(i))
    ensures w.puts[i].pc.SubmittingJob? || Over(w.remote, SubmitPid(i))
  {
    assert PreparePid(i) in w.remote.procs ==> ProcInv(w, PreparePid(i));
    assert SubmitPid(i) in w.remote.procs ==> ProcInv(w, SubmitPid(i));
  }

  lemma LedgerInvKept(w: World, p: L.Policy, e: L.LedgerEvent)
    requires WorldInv(w)
    requires e.RecordRemote? && e.id == w.attempt && e.seen.Some? ==> Genuine(w.remote, e.seen.value, w.fp)
    ensures WorldInv(Recorded(w, p, e))
  {
    var w' := Recorded(w, p, e);
    assert RecordInv(w');
    forall q | q in w'.remote.procs ensures ProcInv(w', q) { assert ProcInv(w, q); }
  }

  lemma StartedInv(w: World, i: PutId, prepare: bool)
    requires WorldInv(w) && i in w.puts && Over(w.remote, PreparePid(i)) && Over(w.remote, SubmitPid(i))
    ensures var e := if prepare then StartPrepare(PreparePid(i), w.fp) else StartSubmit(SubmitPid(i), w.fp);
      var w' := w.(remote := Apply(w.remote, e));
      WorldInv(GoTo(w', i, if prepare then Preparing else SubmittingJob))
  {
    if prepare {
      StepInv(w.remote, StartPrepare(PreparePid(i), w.fp));
      StartedAs(w, i, PreparePid(i), PrepareCheck, Preparing, Apply(w.remote, StartPrepare(PreparePid(i), w.fp)));
    } else {
      StepInv(w.remote, StartSubmit(SubmitPid(i), w.fp));
      StartedAs(w, i, SubmitPid(i), SubmitRead, SubmittingJob, Apply(w.remote, StartSubmit(SubmitPid(i), w.fp)));
    }
  }

  // Process q of PUT i has been started, and the PUT waits for it.
  lemma StartedAs(w: World, i: PutId, q: Pid, start: Pc, pc: PutPc, remote: State)
    requires WorldInv(w) && i in w.puts && Over(w.remote, PreparePid(i)) && Over(w.remote, SubmitPid(i))
    requires q / 2 == i && pc == (if q % 2 == 0 then Preparing else SubmittingJob) && (q % 2 == 0 ==> !IsSubmit(start))
    requires Inv(remote) && remote.jobs == w.remote.jobs
    requires remote.procs == if q in w.remote.procs then w.remote.procs else w.remote.procs[q := Process(w.fp, start)]
    ensures WorldInv(GoTo(w.(remote := remote), i, pc))
  {
    var w' := GoTo(w.(remote := remote), i, pc);
    forall p | p in w'.remote.procs ensures ProcInv(w', p) {
      assert p in w.remote.procs ==> ProcInv(w, p);
      assert p == if p % 2 == 0 then PreparePid(p / 2) else SubmitPid(p / 2);
    }
  }

  lemma ReadStep(w: World, i: PutId, ok: bool, ifPrepared: PutPc)
    requires WorldInv(w) && i in w.puts && !w.puts[i].pc.Preparing? && !w.puts[i].pc.SubmittingJob?
    requires ifPrepared.RecordPrepared? || ifPrepared.Releasing? || ifPrepared.Answered?
    ensures WorldInv(GoTo(w, i, if ok then AfterRead(w, Answered, ifPrepared) else Answered))
  {
    OwnProcesses(w, i);
    if w.remote.file.Holds? && w.remote.file.fp == w.fp { ReadIsGenuine(w); }
    GoToInv(w, i, if ok then AfterRead(w, Answered, ifPrepared) else Answered);
  }

  lemma PutStepInv(w: World, p: L.Policy, i: PutId, ok: bool, now: nat)
    requires WorldInv(w) && i in w.puts
    ensures WorldInv(StepPut(w, p, i, ok, now))
  {
    OwnProcesses(w, i);
    match w.puts[i].pc
    case FirstRead =>
      if ok && w.remote.file.Absent? { StartedInv(w, i, true); } else {
        assert AfterRead(w, Preparing, RecordPrepared) == AfterRead(w, Answered, RecordPrepared) || !ok;
        ReadStep(w, i, ok, RecordPrepared);
      }
    case Preparing => if Over(w.remote, PreparePid(i)) { GoToInv(w, i, ReadPrepared); }
    case ReadPrepared => ReadStep(w, i, ok, RecordPrepared);
    case RecordPrepared =>
      LedgerInvKept(w, p, L.RecordRemote(w.attempt, Some(Prepared), now));
      var w' := if ok then Recorded(w, p, L.RecordRemote(w.attempt, Some(Prepared), now)) else w;
      GoToInv(w', i, if ok && w.puts[i].wantsJob then Reserving else Answered);
    case Reserving =>
      var e := L.Reserve(w.attempt, w.ledger.records[w.attempt].binding.principal, now, now);
      LedgerInvKept(w, p, e);
      var w' := Recorded(w, p, e);
      if L.Counted(Submission(w').status) { StartedInv(w', i, false); } else { GoToInv(w', i, Answered); }
    case SubmittingJob => if Over(w.remote, SubmitPid(i)) { GoToInv(w, i, ReadSubmitted(ok)); }
    case ReadSubmitted(sbatchRan) => ReadStep(w, i, ok, if sbatchRan then Releasing else Answered);
    case Releasing =>
      LedgerInvKept(w, p, L.ReleaseReservation(w.attempt, now));
      GoToInv(Recorded(w, p, L.ReleaseReservation(w.attempt, now)), i, Answered);
    case RecordFinal(seen) =>
      LedgerInvKept(w, p, L.RecordRemote(w.attempt, Some(seen), now));
      GoToInv(Recorded(w, p, L.RecordRemote(w.attempt, Some(seen), now)), i, Answered);
    case Answered =>
  }

  // Prepare never turns into Submit, and queues nothing.
  lemma PrepareStaysPrepare(s: State, p: Pid, o: Outcome)
    requires p in s.procs && !IsSubmit(s.procs[p].pc)
    ensures p in Act(s, p, o).procs && !IsSubmit(Act(s, p, o).procs[p].pc) && Act(s, p, o).jobs == s.jobs
  {
    var pc := s.procs[p].pc;
    if pc.WriteBegin? { assert pc.goal == ToPrepared; }
    if pc.WriteEnd? { assert pc.goal == ToPrepared; }
  }

  // A remote step of a process whose PUT is waiting for it.
  lemma GoInv(w: World, p: Pid, o: Outcome)
    requires WorldInv(w) && Allowed(TRUTHFUL, Go(p, o)) && Waits(w, p)
    ensures WorldInv(w.(remote := Apply(w.remote, Go(p, o))))
  {
    var w' := w.(remote := Apply(w.remote, Go(p, o)));
    StepInv(w.remote, Go(p, o));
    if p in w.remote.procs {
      assert ProcInv(w, p);
      T.ActFrame(w.remote, p, o);
      if p % 2 == 0 { PrepareStaysPrepare(w.remote, p, o); }
      forall q | q in w'.remote.procs ensures ProcInv(w', q) { assert ProcInv(w, q); }
    }
    if w.remote.jobs != [] { T.QueuedStep(w.remote, Go(p, o)); }
  }

  lemma CrashFrame(s: State, p: Pid)
    ensures var s' := Apply(s, Crash(p));
      && s'.procs.Keys == s.procs.Keys && s'.jobs == s.jobs && Over(s', p)
      && (forall q :: q in s.procs ==>
            s'.procs[q] == s.procs[q] || (s'.procs[q].pc.Crashed? && s'.procs[q].fp == s.procs[q].fp))
  {
  }

  lemma CrashProcInv(w: World, p: Pid)
    requires WorldInv(w)
    ensures WorldInv(w.(remote := Apply(w.remote, Crash(p))))
  {
    var w' := w.(remote := Apply(w.remote, Crash(p)));
    StepInv(w.remote, Crash(p));
    CrashFrame(w.remote, p);
    forall q | q in w'.remote.procs ensures ProcInv(w', q) { assert ProcInv(w, q); }
  }

  lemma CrashedInv(w: World, i: PutId)
    requires WorldInv(w) && i in w.puts
    ensures WorldInv(GoTo(w.(remote := Apply(Apply(w.remote, Crash(PreparePid(i))), Crash(SubmitPid(i)))), i, Answered))
  {
    var w1 := w.(remote := Apply(w.remote, Crash(PreparePid(i))));
    var w2 := w1.(remote := Apply(w1.remote, Crash(SubmitPid(i))));
    CrashProcInv(w, PreparePid(i));
    CrashProcInv(w1, SubmitPid(i));
    CrashFrame(w.remote, PreparePid(i));
    CrashFrame(w1.remote, SubmitPid(i));
    GoToInv(w2, i, Answered);
  }

  lemma WorldStep(w: World, p: L.Policy, limit: nat, e: WorldEvent)
    requires WorldInv(w) && (e.Remote? ==> Allowed(TRUTHFUL, e.e))
    ensures WorldInv(ApplyWorld(w, p, limit, e))
  {
    match e
    case StartPut(i, wantsJob) =>
      var w' := ApplyWorld(w, p, limit, e);
      forall q | q in w'.remote.procs ensures ProcInv(w', q) { assert ProcInv(w, q); }
    case PutStep(i, ok, now) => if i in w.puts { PutStepInv(w, p, i, ok, now); }
    case Remote(re) => if re.Go? && Waits(w, re.p) { GoInv(w, re.p, re.o); }
    case CrashPut(i) => if i in w.puts { CrashedInv(w, i); }
    case LookupRead(k) =>
      if w.remote.file.Holds? && w.remote.file.fp == w.fp {
        ReadIsGenuine(w);
        var w' := ApplyWorld(w, p, limit, e);
        forall q | q in w'.remote.procs ensures ProcInv(w', q) { assert ProcInv(w, q); }
      }
    case LookupRecord(k, now) =>
      if k in w.lookups { LedgerInvKept(w, p, L.RecordRemote(w.attempt, Some(w.lookups[k]), now)); }
    case Elsewhere(le) =>
      if le.id != w.attempt || le.RefreshScheduler? { LedgerInvKept(w, p, le); }
  }

  // ------------------------------------------------ one PUT at a time

  // Two live PUTs are the same PUT.
  predicate OnePut(w: World) {
    forall i, j :: i in w.puts && j in w.puts && !w.puts[i].pc.Answered? && !w.puts[j].pc.Answered? ==> i == j
  }

  predicate CountedInv(w: World)
    requires w.attempt in w.ledger.records
  {
    && OnePut(w)
    && (w.remote.jobs != [] ==> L.Counted(Submission(w).status))
    && (forall i :: i in w.puts && w.puts[i].pc.SubmittingJob? ==> L.Counted(Submission(w).status))
    && (forall i :: i in w.puts && w.puts[i].pc.Releasing? ==> w.remote.jobs == [])
  }

  // Only a release can take a counted record out of the count.
  lemma CountedKept(w: World, p: L.Policy, e: L.LedgerEvent)
    requires w.attempt in w.ledger.records && L.Counted(Submission(w).status)
    requires e.id == w.attempt ==> !e.ReleaseReservation?
    ensures w.attempt in Recorded(w, p, e).ledger.records && L.Counted(Submission(Recorded(w, p, e)).status)
  {
  }

  // The one live PUT moves on, the count being kept unless nothing is queued.
  lemma CountedGoTo(w: World, w': World, i: PutId, pc: PutPc)
    requires w.attempt in w.ledger.records && CountedInv(w) && i in w.puts && !w.puts[i].pc.Answered?
    requires w'.attempt in w'.ledger.records
    requires w'.puts == w.puts[i := w.puts[i].(pc := pc)] && w'.remote.jobs == w.remote.jobs
    requires L.Counted(Submission(w).status) ==> L.Counted(Submission(w').status) || w.remote.jobs == []
    requires pc.SubmittingJob? ==> L.Counted(Submission(w').status)
    requires pc.Releasing? ==> w.remote.jobs == []
    ensures CountedInv(w')
  {
  }

  lemma PreparedMeansUnqueued(w: World)
    requires WorldInv(w) && w.remote.file.Holds? && w.remote.file.phase.Prepared?
    ensures w.remote.jobs == []
  {
  }

  // A step of PUT i that only records what it read.
  lemma CountedRecord(w: World, p: L.Policy, i: PutId, seen: Phase, now: nat, pc: PutPc)
    requires w.attempt in w.ledger.records && CountedInv(w) && i in w.puts && !w.puts[i].pc.Answered?
    requires pc.Reserving? || pc.Answered?
    ensures var w' := GoTo(Recorded(w, p, L.RecordRemote(w.attempt, Some(seen), now)), i, pc);
      w'.attempt in w'.ledger.records && CountedInv(w')
  {
    var e := L.RecordRemote(w.attempt, Some(seen), now);
    if L.Counted(Submission(w).status) { CountedKept(w, p, e); }
    CountedGoTo(w, GoTo(Recorded(w, p, e), i, pc), i, pc);
  }

  lemma CountedReserving(w: World, p: L.Policy, i: PutId, ok: bool, now: nat)
    requires w.attempt in w.ledger.records && CountedInv(w) && i in w.puts && w.puts[i].pc.Reserving?
    ensures var w' := StepPut(w, p, i, ok, now); w'.attempt in w'.ledger.records && CountedInv(w')
  {
    var e := L.Reserve(w.attempt, w.ledger.records[w.attempt].binding.principal, now, now);
    if L.Counted(Submission(w).status) { CountedKept(w, p, e); }
    var w' := StepPut(w, p, i, ok, now);
    CountedGoTo(w, w', i, w'.puts[i].pc);
  }

  lemma CountedRead(w: World, i: PutId, ok: bool, ifAbsent: PutPc, ifPrepared: PutPc)
    requires w.attempt in w.ledger.records && CountedInv(w) && i in w.puts && !w.puts[i].pc.Answered?
    requires w.remote.file.Holds? && w.remote.file.phase.Prepared? ==> w.remote.jobs == []
    requires ifAbsent.Preparing? || ifAbsent.Answered?
    requires !ifPrepared.SubmittingJob?
    ensures CountedInv(GoTo(w, i, if ok then AfterRead(w, ifAbsent, ifPrepared) else Answered))
  {
    var pc := if ok then AfterRead(w, ifAbsent, ifPrepared) else Answered;
    CountedGoTo(w, GoTo(w, i, pc), i, pc);
  }

  lemma CountedPutStep(w: World, p: L.Policy, i: PutId, ok: bool, now: nat)
    requires w.attempt in w.ledger.records && CountedInv(w) && i in w.puts
    requires w.remote.file.Holds? && w.remote.file.phase.Prepared? ==> w.remote.jobs == []
    ensures var w' := StepPut(w, p, i, ok, now); w'.attempt in w'.ledger.records && CountedInv(w')
  {
    var w' := StepPut(w, p, i, ok, now);
    match w.puts[i].pc
    case FirstRead =>
      CountedRead(w, i, ok, Preparing, RecordPrepared);
      CountedGoTo(w, w', i, w'.puts[i].pc);
    case Preparing => if Over(w.remote, PreparePid(i)) { CountedGoTo(w, w', i, ReadPrepared); }
    case ReadPrepared => CountedRead(w, i, ok, Answered, RecordPrepared);
    case RecordPrepared =>
      if ok { CountedRecord(w, p, i, Prepared, now, w'.puts[i].pc); } else { CountedGoTo(w, w', i, Answered); }
    case Reserving => CountedReserving(w, p, i, ok, now);
    case SubmittingJob => if Over(w.remote, SubmitPid(i)) { CountedGoTo(w, w', i, ReadSubmitted(ok)); }
    case ReadSubmitted(sbatchRan) => CountedRead(w, i, ok, Answered, if sbatchRan then Releasing else Answered);
    case Releasing => CountedGoTo(w, w', i, Answered);
    case RecordFinal(seen) => CountedRecord(w, p, i, seen, now, Answered);
    case Answered =>
  }

  lemma CountedRemote(w: World, p: L.Policy, limit: nat, e: Event)
    requires WorldInv(w) && CountedInv(w) && Allowed(TRUTHFUL, e)
    ensures var w' := ApplyWorld(w, p, limit, Remote(e)); w'.attempt in w'.ledger.records && CountedInv(w')
  {
    if e.Go? && Waits(w, e.p) && e.p in w.remote.procs {
      assert ProcInv(w, e.p);
      if e.p % 2 == 0 { PrepareStaysPrepare(w.remote, e.p, e.o); }
      assert !w.puts[e.p / 2].pc.Answered?;
    }
  }

  // Everything but PUT steps and remote steps leaves queued jobs as they are.
  lemma CountedOther(w: World, p: L.Policy, limit: nat, e: WorldEvent)
    requires w.attempt in w.ledger.records && CountedInv(w) && limit <= 1
    requires e.CrashPut? || e.LookupRead? || e.LookupRecord? || e.Elsewhere?
    ensures var w' := ApplyWorld(w, p, limit, e); w'.attempt in w'.ledger.records && CountedInv(w')
  {
    match e
    case CrashPut(i) =>
      CrashFrame(w.remote, PreparePid(i));
      CrashFrame(Apply(w.remote, Crash(PreparePid(i))), SubmitPid(i));
    case LookupRead(k) =>
    case LookupRecord(k, now) =>
      if k in w.lookups && L.Counted(Submission(w).status) {
        CountedKept(w, p, L.RecordRemote(w.attempt, Some(w.lookups[k]), now));
      }
    case Elsewhere(le) =>
      if L.Counted(Submission(w).status) && (le.id != w.attempt || le.RefreshScheduler?) { CountedKept(w, p, le); }
  }

  lemma CountedStep(w: World, p: L.Policy, limit: nat, e: WorldEvent)
    requires WorldInv(w) && CountedInv(w) && limit <= 1 && (e.Remote? ==> Allowed(TRUTHFUL, e.e))
    ensures var w' := ApplyWorld(w, p, limit, e); w'.attempt in w'.ledger.records && CountedInv(w')
  {
    if e.StartPut? {
      if ApplyWorld(w, p, limit, e) != w {
        assert LivePuts(w) == {};
        forall k | k in w.puts ensures w.puts[k].pc.Answered? { assert k !in LivePuts(w); }
      }
    } else if e.PutStep? {
      if w.remote.file.Holds? && w.remote.file.phase.Prepared? { PreparedMeansUnqueued(w); }
      if e.i in w.puts { CountedPutStep(w, p, e.i, e.ok, e.now); }
    } else if e.Remote? {
      CountedRemote(w, p, limit, e.e);
    } else {
      CountedOther(w, p, limit, e);
    }
  }

  lemma {:induction false} WorldRun(w: World, p: L.Policy, limit: nat, es: seq<WorldEvent>)
    requires WorldInv(w) && Truthful(es)
    ensures WorldInv(RunWorld(w, p, limit, es))
    ensures CountedInv(w) && limit <= 1 ==> CountedInv(RunWorld(w, p, limit, es))
    decreases |es|
  {
    if es != [] {
      WorldStep(w, p, limit, es[0]);
      if CountedInv(w) && limit <= 1 { CountedStep(w, p, limit, es[0]); }
      WorldRun(ApplyWorld(w, p, limit, es[0]), p, limit, es[1..]);
    }
  }

  lemma BoundInv(w: World, files: nat)
    requires Bound(w, files)
    ensures WorldInv(w) && CountedInv(w)
  {
  }

  // Whatever the number of concurrent PUTs and lookups, however stale their
  // readings: at most one job is queued, and a record that says SUBMITTED names
  // exactly that job.
  lemma SubmittedRecordNamesTheJob(w: World, files: nat, p: L.Policy, limit: nat, es: seq<WorldEvent>)
    requires Bound(w, files) && Truthful(es)
    ensures var w' := RunWorld(w, p, limit, es);
      && |w'.remote.jobs| <= 1 && w'.attempt in w'.ledger.records
      && (Submission(w').status.SubmittedToSlurm? ==>
            |w'.remote.jobs| == 1 && Submission(w').jobId == Some(w'.remote.jobs[0].id))
  {
    BoundInv(w, files);
    WorldRun(w, p, limit, es);
  }

  // ------------------------------------------------- PUTs that stop before sbatch

  // A read of the remote state that fails ends the PUT and changes nothing else.
  lemma FailedReadEndsThePut(w: World, p: L.Policy, i: PutId, now: nat)
    requires w.attempt in w.ledger.records && i in w.puts
    requires w.puts[i].pc.FirstRead? || w.puts[i].pc.ReadPrepared? || w.puts[i].pc.ReadSubmitted?
    ensures StepPut(w, p, i, false, now) == w.(puts := w.puts[i := w.puts[i].(pc := Answered)])
  {
  }

  // A PUT that only prepares asks for no reservation and has no Submit.
  predicate OnlyPreparing(w: World, i: PutId) {
    i in w.puts && !w.puts[i].wantsJob ==>
      && !w.puts[i].pc.Reserving? && !w.puts[i].pc.SubmittingJob? && !w.puts[i].pc.ReadSubmitted? && !w.puts[i].pc.Releasing?
      && SubmitPid(i) !in w.remote.procs
  }

  // A step of PUT j starts at most its own Prepare or, from a reservation, its own Submit.
  lemma PutRemote(w: World, p: L.Policy, j: PutId, ok: bool, now: nat)
    requires j in w.puts && w.attempt in w.ledger.records
    ensures var s' := StepPut(w, p, j, ok, now).remote;
      || s' == w.remote || s' == Apply(w.remote, StartPrepare(PreparePid(j), w.fp))
      || (w.puts[j].pc.Reserving? && s' == Apply(w.remote, StartSubmit(SubmitPid(j), w.fp)))
  {
  }

  // It moves PUT j alone, and to the steps of a submission only from a reservation, to which
  // it comes only if a job is wanted.
  lemma PutMoves(w: World, p: L.Policy, j: PutId, ok: bool, now: nat)
    requires j in w.puts && w.attempt in w.ledger.records
    ensures var w' := StepPut(w, p, j, ok, now);
      && w'.attempt == w.attempt && w'.puts.Keys == w.puts.Keys && w'.puts[j].wantsJob == w.puts[j].wantsJob
      && (forall i :: i in w.puts && i != j ==> w'.puts[i] == w.puts[i])
  {
  }

  lemma PutGoes(w: World, p: L.Policy, j: PutId, ok: bool, now: nat)
    requires j in w.puts && w.attempt in w.ledger.records
    ensures j in StepPut(w, p, j, ok, now).puts
    ensures var was, pc := w.puts[j], StepPut(w, p, j, ok, now).puts[j].pc;
      && (pc.Reserving? && !was.pc.Reserving? ==> was.wantsJob)
      && (pc.SubmittingJob? ==> was.pc.SubmittingJob? || was.pc.Reserving?)
      && (pc.ReadSubmitted? ==> was.pc.SubmittingJob? || was.pc.ReadSubmitted?)
      && (pc.Releasing? ==> was.pc.ReadSubmitted? || was.pc.Releasing?)
  {
    PutMoves(w, p, j, ok, now);
  }

  lemma StartKeys(s: State, q: Pid, fp: Fingerprint)
    ensures Apply(s, StartPrepare(q, fp)).procs.Keys == s.procs.Keys + {q}
    ensures Apply(s, StartSubmit(q, fp)).procs.Keys == s.procs.Keys + {q}
  {
  }

  lemma OnlyPreparingKept(w: World, w': World, i: PutId, j: PutId)
    requires OnlyPreparing(w, i) && j in w.puts && w'.puts.Keys == w.puts.Keys && w'.puts[j].wantsJob == w.puts[j].wantsJob
    requires forall k :: k in w.puts && k != j ==> w'.puts[k] == w.puts[k]
    requires w'.remote.procs.Keys <= w.remote.procs.Keys + {PreparePid(j)} + (if w.puts[j].pc.Reserving? then {SubmitPid(j)} else {})
    requires var was, pc := w.puts[j], w'.puts[j].pc;
      && (pc.Reserving? && !was.pc.Reserving? ==> was.wantsJob)
      && (pc.SubmittingJob? ==> was.pc.SubmittingJob? || was.pc.Reserving?)
      && (pc.ReadSubmitted? ==> was.pc.SubmittingJob? || was.pc.ReadSubmitted?)
      && (pc.Releasing? ==> was.pc.ReadSubmitted? || was.pc.Releasing?)
    ensures OnlyPreparing(w', i)
  {
    assert PreparePid(j) != SubmitPid(i) && (i != j ==> SubmitPid(j) != SubmitPid(i));
  }

  lemma OnlyPreparingPut(w: World, p: L.Policy, j: PutId, ok: bool, now: nat, i: PutId)
    requires WorldInv(w) && OnlyPreparing(w, i) && j in w.puts
    ensures OnlyPreparing(StepPut(w, p, j, ok, now), i)
  {
    PutMoves(w, p, j, ok, now);
    PutGoes(w, p, j, ok, now);
    PutRemote(w, p, j, ok, now);
    StartKeys(w.remote, PreparePid(j), w.fp);
    StartKeys(w.remote, SubmitPid(j), w.fp);
    OnlyPreparingKept(w, StepPut(w, p, j, ok, now), i, j);
  }

  lemma OnlyPreparingStep(w: World, p: L.Policy, limit: nat, e: WorldEvent, i: PutId)
    requires WorldInv(w) && OnlyPreparing(w, i)
    ensures OnlyPreparing(ApplyWorld(w, p, limit, e), i)
  {
    match e
    case StartPut(j, wantsJob) => if SubmitPid(i) in w.remote.procs { assert ProcInv(w, SubmitPid(i)); }
    case PutStep(j, ok, now) => if j in w.puts { OnlyPreparingPut(w, p, j, ok, now, i); }
    case Remote(re) => if re.Go? && Waits(w, re.p) && re.p in w.remote.procs { T.ActFrame(w.remote, re.p, re.o); }
    case CrashPut(j) =>
      CrashFrame(w.remote, PreparePid(j));
      CrashFrame(Apply(w.remote, Crash(PreparePid(j))), SubmitPid(j));
    case _ =>
  }

  lemma {:induction false} OnlyPreparingRun(w: World, p: L.Policy, limit: nat, es: seq<WorldEvent>, i: PutId)
    requires WorldInv(w) && OnlyPreparing(w, i) && Truthful(es)
    ensures OnlyPreparing(RunWorld(w, p, limit, es), i)
    decreases |es|
  {
    if es != [] {
      WorldStep(w, p, limit, es[0]);
      OnlyPreparingStep(w, p, limit, es[0], i);
      OnlyPreparingRun(ApplyWorld(w, p, limit, es[0]), p, limit, es[1..], i);
    }
  }

  // In every run, whatever overlaps, a PUT that does not want a job asks for no reservation
  // and has no remote Submit.
  lemma PreparingPutsDoNotSubmit(w: World, files: nat, p: L.Policy, limit: nat, es: seq<WorldEvent>, i: PutId)
    requires Bound(w, files) && Truthful(es)
    ensures OnlyPreparing(RunWorld(w, p, limit, es), i)
  {
    BoundInv(w, files);
    OnlyPreparingRun(w, p, limit, es, i);
  }

  // ------------------------------------------------------------------ crashes

  // A PUT that is over, and whose remote processes are.
  predicate IsSilent(w: World, i: PutId) {
    i in w.puts && w.puts[i].pc.Answered? && Over(w.remote, PreparePid(i)) && Over(w.remote, SubmitPid(i))
  }

  lemma StartLeavesOver(s: State, q: Pid, fp: Fingerprint, p: Pid)
    requires Over(s, p) && p != q
    ensures Over(Apply(s, StartPrepare(q, fp)), p) && Over(Apply(s, StartSubmit(q, fp)), p)
  {
  }

  lemma CrashLeavesOver(s: State, q: Pid, p: Pid)
    requires Over(s, p)
    ensures Over(Apply(s, Crash(q)), p)
  {
  }

  lemma SilentPut(w: World, p: L.Policy, j: PutId, ok: bool, now: nat, i: PutId)
    requires IsSilent(w, i) && j in w.puts && w.attempt in w.ledger.records
    ensures IsSilent(StepPut(w, p, j, ok, now), i)
  {
    if j != i {
      PutMoves(w, p, j, ok, now);
      PutRemote(w, p, j, ok, now);
      forall q | q == PreparePid(i) || q == SubmitPid(i) ensures Over(StepPut(w, p, j, ok, now).remote, q) {
        assert q != PreparePid(j) && q != SubmitPid(j);
        StartLeavesOver(w.remote, PreparePid(j), w.fp, q);
        StartLeavesOver(w.remote, SubmitPid(j), w.fp, q);
      }
    }
  }

  lemma SilentStep(w: World, p: L.Policy, limit: nat, e: WorldEvent, i: PutId)
    requires IsSilent(w, i)
    ensures IsSilent(ApplyWorld(w, p, limit, e), i)
  {
    match e
    case PutStep(j, ok, now) => if j in w.puts && w.attempt in w.ledger.records { SilentPut(w, p, j, ok, now, i); }
    case Remote(re) => if re.Go? && Waits(w, re.p) && re.p in w.remote.procs { T.ActFrame(w.remote, re.p, re.o); }
    case CrashPut(j) =>
      var s := Apply(w.remote, Crash(PreparePid(j)));
      forall q | q == PreparePid(i) || q == SubmitPid(i) ensures Over(Apply(s, Crash(SubmitPid(j))), q) {
        CrashLeavesOver(w.remote, PreparePid(j), q);
        CrashLeavesOver(s, SubmitPid(j), q);
      }
    case _ =>
  }

  lemma {:induction false} SilentRun(w: World, p: L.Policy, limit: nat, es: seq<WorldEvent>, i: PutId)
    requires IsSilent(w, i)
    ensures IsSilent(RunWorld(w, p, limit, es), i)
    decreases |es|
  {
    if es != [] {
      SilentStep(w, p, limit, es[0], i);
      SilentRun(ApplyWorld(w, p, limit, es[0]), p, limit, es[1..], i);
    }
  }

  // When a PUT crashes, the ledger, the state file, the lock, the uploaded files and the queue
  // stay as they are, and it does nothing more, nor do its remote processes, whatever happens.
  lemma CrashedPutIsSilent(w: World, p: L.Policy, limit: nat, i: PutId, es: seq<WorldEvent>)
    requires w.attempt in w.ledger.records && i in w.puts
    ensures var w' := ApplyWorld(w, p, limit, CrashPut(i));
      && w' == w.(puts := w'.puts, remote := w.remote.(procs := w'.remote.procs))
      && IsSilent(w', i) && IsSilent(RunWorld(w', p, limit, es), i)
  {
    SilentRun(ApplyWorld(w, p, limit, CrashPut(i)), p, limit, es, i);
  }
}
