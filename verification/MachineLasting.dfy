/**
 What the ledger says of an attempt over whole runs of the composed machine: SUBMITTED is
 for ever, and no recording comes late while PUTs do not overlap.
 */
module MachineLasting {
  import opened Wrappers
  import opened SubmissionProtocol
  import opened SubmissionSafety
  import T = SubmissionTheorems
  import L = Ledger
  import opened LedgerCaps
  import opened MachineExecution
  import opened MachineTheorems
  import opened MachineCounting

  // ------------------------------------------------------- SUBMITTED is for ever

  lemma StartKeepsJobs(s: State, p: Pid, fp: Fingerprint)
    ensures Apply(s, StartPrepare(p, fp)).jobs == s.jobs && Apply(s, StartSubmit(p, fp)).jobs == s.jobs
    ensures Apply(s, Crash(p)).jobs == s.jobs
  {
  }

  lemma PutKeepsJobs(w: World, p: L.Policy, i: PutId, ok: bool, now: nat)
    requires i in w.puts && w.attempt in w.ledger.records
    ensures StepPut(w, p, i, ok, now).remote.jobs == w.remote.jobs
  {
    StartKeepsJobs(w.remote, PreparePid(i), w.fp);
    StartKeepsJobs(w.remote, SubmitPid(i), w.fp);
  }

  lemma JobsKept(w: World, p: L.Policy, limit: nat, e: WorldEvent)
    requires WorldInv(w) && w.remote.jobs != [] && (e.Remote? ==> Allowed(TRUTHFUL, e.e))
    ensures ApplyWorld(w, p, limit, e).remote.jobs == w.remote.jobs
  {
    match e
    case PutStep(i, ok, now) => if i in w.puts { PutKeepsJobs(w, p, i, ok, now); }
    case Remote(re) => T.QueuedStep(w.remote, re);
    case CrashPut(i) =>
      StartKeepsJobs(w.remote, PreparePid(i), w.fp);
      StartKeepsJobs(Apply(w.remote, Crash(PreparePid(i))), SubmitPid(i), w.fp);
    case _ =>
  }

  // No update of the ledger takes SUBMITTED away.
  lemma LedgerKeepsSubmitted(s: L.LedgerState, p: L.Policy, e: L.LedgerEvent, id: L.AttemptId)
    requires id in s.records && s.records[id].submission.status.SubmittedToSlurm?
    ensures id in L.Step(s, p, e).records && L.Step(s, p, e).records[id].submission.status.SubmittedToSlurm?
  {
  }

  lemma StatusKept(w: World, p: L.Policy, limit: nat, e: WorldEvent)
    requires w.attempt in w.ledger.records && Submission(w).status.SubmittedToSlurm?
    ensures var w' := ApplyWorld(w, p, limit, e);
      w'.attempt == w.attempt && w'.attempt in w'.ledger.records && Submission(w').status.SubmittedToSlurm?
  {
    match e
    case PutStep(i, ok, now) => if i in w.puts { PutKeepsStatus(w, p, i, ok, now); }
    case LookupRecord(k, now) =>
      if k in w.lookups { LedgerKeepsSubmitted(w.ledger, p, L.RecordRemote(w.attempt, Some(w.lookups[k]), now), w.attempt); }
    case Elsewhere(le) => LedgerKeepsSubmitted(w.ledger, p, le, w.attempt);
    case _ =>
  }

  lemma PutKeepsStatus(w: World, p: L.Policy, i: PutId, ok: bool, now: nat)
    requires w.attempt in w.ledger.records && Submission(w).status.SubmittedToSlurm? && i in w.puts
    ensures var w' := StepPut(w, p, i, ok, now);
      w'.attempt == w.attempt && w'.attempt in w'.ledger.records && Submission(w').status.SubmittedToSlurm?
  {
    var principal := w.ledger.records[w.attempt].binding.principal;
    LedgerKeepsSubmitted(w.ledger, p, L.RecordRemote(w.attempt, Some(Prepared), now), w.attempt);
    LedgerKeepsSubmitted(w.ledger, p, L.Reserve(w.attempt, principal, now, now), w.attempt);
    LedgerKeepsSubmitted(w.ledger, p, L.ReleaseReservation(w.attempt, now), w.attempt);
    if w.puts[i].pc.RecordFinal? {
      LedgerKeepsSubmitted(w.ledger, p, L.RecordRemote(w.attempt, Some(w.puts[i].pc.seen), now), w.attempt);
    }
  }

  // A record that says SUBMITTED says so for ever, and names the same job: with any number of
  // overlapping PUTs and lookups, however stale their readings.
  lemma {:induction false} SubmittedIsForever(w: World, p: L.Policy, limit: nat, es: seq<WorldEvent>)
    requires WorldInv(w) && Truthful(es) && Submission(w).status.SubmittedToSlurm?
    ensures var w' := RunWorld(w, p, limit, es);
      && w'.attempt in w'.ledger.records
      && Submission(w').status.SubmittedToSlurm? && Submission(w').jobId == Submission(w).jobId
    decreases |es|
  {
    if es != [] {
      var w1 := ApplyWorld(w, p, limit, es[0]);
      WorldStep(w, p, limit, es[0]);
      StatusKept(w, p, limit, es[0]);
      JobsKept(w, p, limit, es[0]);
      assert Submission(w1).jobId == Submission(w).jobId;
      SubmittedIsForever(w1, p, limit, es[1..]);
    }
  }

  // From a freshly bound attempt on.
  lemma OnceSubmittedAlwaysSubmitted(w: World, files: nat, p: L.Policy, limit: nat, before: seq<WorldEvent>, after: seq<WorldEvent>)
    requires Bound(w, files) && Truthful(before) && Truthful(after)
    requires var m := RunWorld(w, p, limit, before); m.attempt in m.ledger.records && Submission(m).status.SubmittedToSlurm?
    ensures var m, w' := RunWorld(w, p, limit, before), RunWorld(w, p, limit, before + after);
      && w'.attempt in w'.ledger.records
      && Submission(w').status.SubmittedToSlurm? && Submission(w').jobId == Submission(m).jobId
  {
    BoundInv(w, files);
    WorldRun(w, p, limit, before);
    SubmittedIsForever(RunWorld(w, p, limit, before), p, limit, after);
    RunWorldConcat(w, p, limit, before, after);
  }

  // ------------------------------------------------------------ late recordings

  // The ledger event that an event of the machine carries out, if any.
  function Written(w: World, e: WorldEvent): Option<L.LedgerEvent>
    requires w.attempt in w.ledger.records
  {
    match e
    case PutStep(i, ok, now) =>
      if i !in w.puts then None
      else (match w.puts[i].pc
            case RecordPrepared => if ok then Some(L.RecordRemote(w.attempt, Some(Prepared), now)) else None
            case Reserving => Some(L.Reserve(w.attempt, w.ledger.records[w.attempt].binding.principal, now, now))
            case Releasing => Some(L.ReleaseReservation(w.attempt, now))
            case RecordFinal(seen) => Some(L.RecordRemote(w.attempt, Some(seen), now))
            case _ => None)
    case LookupRecord(k, now) =>
      if k in w.lookups then Some(L.RecordRemote(w.attempt, Some(w.lookups[k]), now)) else None
    case Elsewhere(le) => if le.id != w.attempt || le.RefreshScheduler? then Some(le) else None
    case _ => None
  }

  lemma WrittenExactly(w: World, p: L.Policy, limit: nat, e: WorldEvent)
    requires w.attempt in w.ledger.records
    ensures var w' := ApplyWorld(w, p, limit, e);
      && w'.attempt == w.attempt && w'.fp == w.fp
      && w'.ledger == if Written(w, e).Some? then L.Step(w.ledger, p, Written(w, e).value) else w.ledger
  {
  }

  predicate OnlyPrepared(s: State) {
    && (forall q :: q in s.procs ==> q % 2 == 0)
    && (s.file.Holds? ==> s.file.phase.Prepared?)
  }

  // Before any reservation there is no Submit, and nobody has read anything but PREPARED.
  predicate RequestedInv(w: World) {
    w.attempt in w.ledger.records &&
    (Submission(w).status.NotRequested? ==>
      && OnlyPrepared(w.remote)
      && (forall k :: k in w.lookups ==> w.lookups[k].Prepared?)
      && (forall i :: i in w.puts ==> !w.puts[i].pc.RecordFinal? && !w.puts[i].pc.SubmittingJob?))
  }

  // Preparing leads to PREPARED and nothing else.
  lemma PrepareOnlyPrepares(s: State, q: Pid, o: Outcome)
    requires q in s.procs && !IsSubmit(s.procs[q].pc) && OnlyPrepared(s)
    ensures OnlyPrepared(Act(s, q, o))
  {
  }

  lemma LedgerKeepsRequested(s: L.LedgerState, p: L.Policy, e: L.LedgerEvent, id: L.AttemptId)
    requires id in s.records
    ensures id in L.Step(s, p, e).records
    ensures L.Step(s, p, e).records[id].submission.status.NotRequested? ==> s.records[id].submission.status.NotRequested?
  {
  }

  lemma RequestedGoTo(w: World, w': World, i: PutId, pc: PutPc)
    requires RequestedInv(w) && i in w.puts && w'.attempt in w'.ledger.records && w'.lookups == w.lookups
    requires w'.puts == w.puts[i := w.puts[i].(pc := pc)]
    requires Submission(w').status.NotRequested? ==>
      && Submission(w).status.NotRequested? && OnlyPrepared(w'.remote)
      && !pc.RecordFinal? && !pc.SubmittingJob?
    ensures RequestedInv(w')
  {
  }

  lemma RequestedRead(w: World, i: PutId, ok: bool, ifAbsent: PutPc, ifPrepared: PutPc)
    requires RequestedInv(w) && i in w.puts && (ifAbsent.Preparing? || ifAbsent.Answered?)
    requires ifPrepared.RecordPrepared? || ifPrepared.Releasing? || ifPrepared.Answered?
    ensures RequestedInv(GoTo(w, i, if ok then AfterRead(w, ifAbsent, ifPrepared) else Answered))
  {
    RequestedGoTo(w, GoTo(w, i, if ok then AfterRead(w, ifAbsent, ifPrepared) else Answered), i,
                  if ok then AfterRead(w, ifAbsent, ifPrepared) else Answered);
  }

  lemma RequestedRecord(w: World, p: L.Policy, i: PutId, e: L.LedgerEvent, pc: PutPc)
    requires RequestedInv(w) && i in w.puts && !pc.RecordFinal? && !pc.SubmittingJob?
    ensures RequestedInv(GoTo(Recorded(w, p, e), i, pc))
  {
    LedgerKeepsRequested(w.ledger, p, e, w.attempt);
    RequestedGoTo(w, GoTo(Recorded(w, p, e), i, pc), i, pc);
  }

  lemma RequestedFirst(w: World, p: L.Policy, i: PutId, ok: bool, now: nat)
    requires RequestedInv(w) && i in w.puts && w.puts[i].pc.FirstRead?
    ensures RequestedInv(StepPut(w, p, i, ok, now))
  {
    var pc := if ok then AfterRead(w, Preparing, RecordPrepared) else Answered;
    if pc.Preparing? {
      assert PreparePid(i) % 2 == 0;
      RequestedGoTo(w, StepPut(w, p, i, ok, now), i, pc);
    } else {
      RequestedRead(w, i, ok, Preparing, RecordPrepared);
    }
  }

  lemma RequestedReserving(w: World, p: L.Policy, i: PutId, ok: bool, now: nat)
    requires RequestedInv(w) && i in w.puts && w.puts[i].pc.Reserving?
    ensures RequestedInv(StepPut(w, p, i, ok, now))
  {
    var e := L.Reserve(w.attempt, w.ledger.records[w.attempt].binding.principal, now, now);
    var w1 := Recorded(w, p, e);
    LedgerKeepsRequested(w.ledger, p, e, w.attempt);
    RequestedGoTo(w, StepPut(w, p, i, ok, now), i, if L.Counted(Submission(w1).status) then SubmittingJob else Answered);
  }

  lemma RequestedPut(w: World, p: L.Policy, i: PutId, ok: bool, now: nat)
    requires RequestedInv(w) && i in w.puts
    ensures RequestedInv(StepPut(w, p, i, ok, now))
  {
    match w.puts[i].pc
    case FirstRead => RequestedFirst(w, p, i, ok, now);
    case Preparing => if Over(w.remote, PreparePid(i)) { RequestedGoTo(w, GoTo(w, i, ReadPrepared), i, ReadPrepared); }
    case ReadPrepared => RequestedRead(w, i, ok, Answered, RecordPrepared);
    case RecordPrepared =>
      if ok {
        RequestedRecord(w, p, i, L.RecordRemote(w.attempt, Some(Prepared), now), if w.puts[i].wantsJob then Reserving else Answered);
      } else {
        RequestedGoTo(w, GoTo(w, i, Answered), i, Answered);
      }
    case Reserving => RequestedReserving(w, p, i, ok, now);
    case SubmittingJob => if Over(w.remote, SubmitPid(i)) { RequestedGoTo(w, GoTo(w, i, ReadSubmitted(ok)), i, ReadSubmitted(ok)); }
    case ReadSubmitted(ran) => RequestedRead(w, i, ok, Answered, if ran then Releasing else Answered);
    case Releasing => RequestedRecord(w, p, i, L.ReleaseReservation(w.attempt, now), Answered);
    case RecordFinal(seen) => RequestedRecord(w, p, i, L.RecordRemote(w.attempt, Some(seen), now), Answered);
    case Answered =>
  }

  lemma RequestedStep(w: World, p: L.Policy, limit: nat, e: WorldEvent)
    requires WorldInv(w) && RequestedInv(w)
    ensures RequestedInv(ApplyWorld(w, p, limit, e))
  {
    match e
    case PutStep(i, ok, now) => if i in w.puts { RequestedPut(w, p, i, ok, now); }
    case Remote(re) =>
      if re.Go? && Waits(w, re.p) && Submission(w).status.NotRequested? && re.p in w.remote.procs {
        assert ProcInv(w, re.p);
        PrepareOnlyPrepares(w.remote, re.p, re.o);
      }
    case LookupRecord(k, now) =>
      if k in w.lookups {
        LedgerKeepsRequested(w.ledger, p, L.RecordRemote(w.attempt, Some(w.lookups[k]), now), w.attempt);
      }
    case Elsewhere(le) => LedgerKeepsRequested(w.ledger, p, le, w.attempt);
    case _ =>
  }

  lemma {:induction false} RequestedRun(w: World, p: L.Policy, limit: nat, es: seq<WorldEvent>)
    requires WorldInv(w) && RequestedInv(w) && Truthful(es)
    ensures RequestedInv(RunWorld(w, p, limit, es))
    decreases |es|
  {
    if es != [] {
      WorldStep(w, p, limit, es[0]);
      RequestedStep(w, p, limit, es[0]);
      RequestedRun(ApplyWorld(w, p, limit, es[0]), p, limit, es[1..]);
    }
  }

  // The recordings on the attempt itself.
  predicate Records(w: World, e: WorldEvent)
    requires w.attempt in w.ledger.records
  {
    Written(w, e).Some? && Written(w, e).value.RecordRemote? && Written(w, e).value.id == w.attempt && !e.Elsewhere?
  }

  lemma AskedBefore(w: World, e: WorldEvent)
    requires RequestedInv(w) && Records(w, e)
    ensures !IsUnasked(w.ledger, Written(w, e).value)
  {
  }

  // Whatever overlaps, nothing but PREPARED is ever recorded on an attempt for which no
  // reservation has been asked: no submission is recorded that nobody requested.
  lemma UnaskedReadsPrepared(w: World, files: nat, p: L.Policy, limit: nat, es: seq<WorldEvent>, e: WorldEvent)
    requires Bound(w, files) && Truthful(es)
    ensures var w' := RunWorld(w, p, limit, es);
      w'.attempt in w'.ledger.records && (Records(w', e) ==> !IsUnasked(w'.ledger, Written(w', e).value))
  {
    BoundInv(w, files);
    WorldRun(w, p, limit, es);
    RequestedRun(w, p, limit, es);
    if Records(RunWorld(w, p, limit, es), e) { AskedBefore(RunWorld(w, p, limit, es), e); }
  }

  lemma RecordingIsNotLate(w: World, e: WorldEvent)
    requires WorldInv(w) && CountedInv(w) && Records(w, e)
    ensures !IsLate(w.ledger, Written(w, e).value)
  {
    assert Genuine(w.remote, Written(w, e).value.seen.value, w.fp);
  }

  predicate IsTimely(w: World, e: WorldEvent) {
    w.attempt in w.ledger.records && (Records(w, e) ==> !IsLate(w.ledger, Written(w, e).value))
  }

  ghost predicate RecordingsAreNeverLate(p: L.Policy, files: nat, limit: nat) {
    forall w, es, e :: Bound(w, files) && Truthful(es) ==> IsTimely(RunWorld(w, p, limit, es), e)
  }

  // With two PUTs, a lookup reads the job that nothing counts.
  lemma LateRead(w: World, p: L.Policy, limit: nat, files: nat, t: nat, job: JobId) returns (es: seq<WorldEvent>)
    requires limit >= 2 && Bound(w, files) && Grants(w.ledger, p, w.attempt, t)
    ensures Own(es)
    ensures var w' := RunWorld(w, p, limit, es);
      && w'.ledger == L.Steps(w.ledger, p, DropEvents(w.attempt, w.ledger.records[w.attempt].binding.principal, t))
      && w'.attempt == w.attempt && w'.attempt in w'.ledger.records && Submission(w').status.Released?
      && 0 in w'.lookups && w'.lookups[0] == Submitted(job)
  {
    var before := UncountedJob(w, p, limit, files, t, job);
    var read := [LookupRead(0)];
    var w1 := RunWorld(w, p, limit, before);
    assert RunWorld(w1, p, limit, read) == RunWorld(ApplyWorld(w1, p, limit, read[0]), p, limit, read[1..]);
    es := before + read;
    RunWorldConcat(w, p, limit, before, read);
  }

  // And then it is recorded on the released record.
  lemma LateLookup(w: World, p: L.Policy, limit: nat, files: nat, t: nat) returns (es: seq<WorldEvent>, e: WorldEvent)
    requires limit >= 2 && Bound(w, files) && Grants(w.ledger, p, w.attempt, t)
    ensures Truthful(es)
    ensures var w' := RunWorld(w, p, limit, es);
      w'.attempt in w'.ledger.records && Records(w', e) && IsLate(w'.ledger, Written(w', e).value)
  {
    es := LateRead(w, p, limit, files, t, 9);
    e := LookupRecord(0, t);
  }

  // No recording on an attempt ever comes late, so its submissions are always reserved
  // first, exactly when PUTs of the attempt do not overlap. Lookups may, however stale.
  lemma NeverLateExactly(p: L.Policy, files: nat, limit: nat)
    requires 0 < p.maxActive && 0 < p.maxSubmissions
    ensures RecordingsAreNeverLate(p, files, limit) <==> limit <= 1
  {
    if limit <= 1 {
      forall w, es, e | Bound(w, files) && Truthful(es) ensures IsTimely(RunWorld(w, p, limit, es), e) {
        BoundInv(w, files);
        WorldRun(w, p, limit, es);
        if Records(RunWorld(w, p, limit, es), e) { RecordingIsNotLate(RunWorld(w, p, limit, es), e); }
      }
    } else {
      NewWorldGrants(p, files);
      var w := NewWorld(files);
      var es, e := LateLookup(w, p, limit, files, 0);
      assert Bound(w, files) && Truthful(es) && !IsTimely(RunWorld(w, p, limit, es), e);
    }
  }
}
