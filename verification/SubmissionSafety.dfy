/** What every run of the submission-attempt protocol keeps. */
module SubmissionSafety {
  import opened Wrappers
  import opened SubmissionProtocol

  // The counters between a successful claim and the release of the claim.
  predicate Holding(pc: Pc) {
    || pc.PrepareRecheck? || pc.Upload? || pc.Confirm? || pc.SubmitReread? || pc.Sbatch?
    || pc.WriteBegin? || pc.WriteEnd? || pc.Release?
  }

  // Where the submitter of a queued job can be while the state file does not
  // yet say SUBMITTED.
  predicate AfterQueueing(pc: Pc, id: JobId) {
    match pc
    case WriteBegin(g) => g == StillUncertain || g == ToSubmitted(id)
    case WriteEnd(g) => g == StillUncertain || g == ToSubmitted(id)
    case Finished(_) => true
    case Crashed => true
    case _ => false
  }

  predicate AllFrom(artifacts: seq<Artifact>, fp: Fingerprint) {
    forall k :: 0 <= k < |artifacts| ==> artifacts[k].Uploaded? && artifacts[k].fp == fp
  }

  predicate OpenTo(file: StateFile, fp: Fingerprint) {
    file.Absent? || file == Holds(fp, Prepared)
  }

  predicate QueuedBy(s: State, p: Pid, id: JobId) {
    |s.jobs| == 1 && s.jobs[0].owner == p && s.jobs[0].id == id
  }

  predicate Names(s: State, id: JobId, fp: Fingerprint) {
    s.jobs != [] && s.jobs[0].id == id && s.jobs[0].fp == fp
  }

  predicate Announced(file: StateFile) {
    file.Holds? && file.phase.Submitted?
  }

  // What holds while process p is at its counter.
  predicate WriteInv(s: State, p: Pid, fp: Fingerprint, g: Goal, begun: bool) {
    && (begun ==> s.file == Torn)
    && match g
       case ToPrepared =>
         && s.jobs == [] && AllFrom(s.artifacts, fp)
         && (if begun then s.bound.None? || s.bound == Some(fp) else OpenTo(s.file, fp))
       case ToSubmitting =>
         s.jobs == [] && s.bound == Some(fp) && (!begun ==> s.file == Holds(fp, Prepared))
       case BackToPrepared =>
         s.jobs == [] && s.bound == Some(fp) && (!begun ==> s.file == Holds(fp, Submitting))
       case StillUncertain =>
         && s.bound == Some(fp) && (!begun ==> s.file == Holds(fp, Submitting))
         && (s.jobs != [] ==> s.jobs[0].owner == p)
       case ToSubmitted(j) =>
         && s.bound == Some(fp) && (!begun ==> s.file == Holds(fp, Submitting))
         && QueuedBy(s, p, j)
  }

  predicate ProcessInv(s: State, p: Pid, fp: Fingerprint, pc: Pc) {
    match pc
    case Upload(k) =>
      && OpenTo(s.file, fp) && k <= |s.artifacts|
      && forall i :: 0 <= i < k ==> s.artifacts[i].Uploaded? && s.artifacts[i].fp == fp
    case Confirm => OpenTo(s.file, fp) && AllFrom(s.artifacts, fp)
    case Sbatch => s.jobs == [] && s.file == Holds(fp, Submitting)
    case WriteBegin(g) => WriteInv(s, p, fp, g, false)
    case WriteEnd(g) => WriteInv(s, p, fp, g, true)
    case Release(reply) =>
      && (s.jobs == [] || Announced(s.file))
      && (reply.Record? ==> Names(s, reply.job, fp))
    case Finished(reply) => reply.Record? ==> Names(s, reply.job, fp)
    case _ => true
  }

  predicate JobInv(s: State, j: Job) {
    && s.bound == Some(j.fp)
    && j.owner in s.procs && s.procs[j.owner].fp == j.fp
    && s.artifacts == j.inputs
    && !s.file.Absent? && (s.file.Holds? ==> !s.file.phase.Prepared?)
    && (Announced(s.file) ==> s.file.phase.job == j.id)
    && (!Announced(s.file) ==> s.lock == Some(j.owner) && AfterQueueing(s.procs[j.owner].pc, j.id))
  }

  predicate SharedInv(s: State) {
    && |s.jobs| <= 1
    && (s.jobs != [] ==> JobInv(s, s.jobs[0]))
    && (Announced(s.file) ==> s.jobs != [])
    && (s.file.Holds? ==> s.bound == Some(s.file.fp))
    && (s.bound.Some? ==> AllFrom(s.artifacts, s.bound.value))
    && (s.file.Absent? ==> s.bound.None?)
  }

  predicate Inv(s: State) {
    && SharedInv(s)
    && (forall p :: p in s.procs && Holding(s.procs[p].pc) ==> s.lock == Some(p))
    && (forall p :: p in s.procs ==> ProcessInv(s, p, s.procs[p].fp, s.procs[p].pc))
  }

  lemma InitInv(n: nat)
    ensures Inv(Init(n))
  {
  }

  predicate SameShared(s: State, s': State) {
    s'.(procs := s.procs) == s
  }

  // Everything an operation of p has to show: the shared part, p's own counter,
  // and that it changed shared state only when no other process held the claim.
  predicate Moved(s: State, s': State, p: Pid) {
    && p in s.procs && p in s'.procs
    && s'.procs == s.procs[p := Process(s.procs[p].fp, s'.procs[p].pc)]
    && s.jobs <= s'.jobs
    && (SameShared(s, s') || s.lock == Some(p) || s.lock.None?)
    && SharedInv(s')
    && ProcessInv(s', p, s'.procs[p].fp, s'.procs[p].pc)
    && (Holding(s'.procs[p].pc) ==> s'.lock == Some(p))
  }

  lemma MovedInv(s: State, s': State, p: Pid)
    requires Inv(s) && Moved(s, s', p)
    ensures Inv(s')
  {
    forall q | q in s'.procs && Holding(s'.procs[q].pc) ensures s'.lock == Some(q) {
      if q != p { assert s.lock == Some(q); }
    }
    forall q | q in s'.procs ensures ProcessInv(s', q, s'.procs[q].fp, s'.procs[q].pc) {
      if q != p {
        assert s'.procs[q] == s.procs[q];
        assert ProcessInv(s, q, s.procs[q].fp, s.procs[q].pc);
      }
    }
  }

  // An operation that only moves p's counter.
  lemma CounterMoved(s: State, p: Pid, pc: Pc)
    requires Inv(s) && p in s.procs && !AfterQueued(s, p)
    requires Holding(pc) ==> s.lock == Some(p)
    requires ProcessInv(s, p, s.procs[p].fp, pc)
    ensures Inv(At(s, p, pc))
  {
    MovedInv(s, At(s, p, pc), p);
  }

  // p is the submitter of a job that the state file does not announce.
  predicate AfterQueued(s: State, p: Pid) {
    s.jobs != [] && s.jobs[0].owner == p && !Announced(s.file)
  }

  lemma ReadInv(s: State, p: Pid, o: Outcome)
    requires Inv(s) && p in s.procs && Allowed(TRUTHFUL, Go(p, o))
    requires var pc := s.procs[p].pc;
      pc.PrepareCheck? || pc.PrepareRecheck? || pc.Confirm? || pc.SubmitRead? || pc.SubmitReread? || pc.Wait?
    ensures Inv(Act(s, p, o))
  {
    CounterMoved(s, p, Act(s, p, o).procs[p].pc);
  }

  lemma ClaimInv(s: State, p: Pid, o: Outcome)
    requires Inv(s) && p in s.procs
    requires s.procs[p].pc.PrepareClaim? || s.procs[p].pc.SubmitClaim?
    ensures Inv(Act(s, p, o))
  {
    if TakesEffect(o) && s.lock.None? {
      MovedInv(s, Act(s, p, o), p);
    } else {
      CounterMoved(s, p, Act(s, p, o).procs[p].pc);
    }
  }

  lemma UploadInv(s: State, p: Pid, o: Outcome)
    requires Inv(s) && p in s.procs && s.procs[p].pc.Upload?
    ensures Inv(Act(s, p, o))
  {
    MovedInv(s, Act(s, p, o), p);
  }

  lemma SbatchInv(s: State, p: Pid, o: Outcome)
    requires Inv(s) && p in s.procs && s.procs[p].pc.Sbatch? && Allowed(TRUTHFUL, Go(p, o))
    ensures Inv(Act(s, p, o))
  {
    MovedInv(s, Act(s, p, o), p);
  }

  lemma WriteBeginInv(s: State, p: Pid, o: Outcome)
    requires Inv(s) && p in s.procs && s.procs[p].pc.WriteBegin?
    ensures Inv(Act(s, p, o))
  {
    MovedInv(s, Act(s, p, o), p);
  }

  lemma WriteEndMoved(s: State, p: Pid, g: Goal, o: Outcome)
    requires Inv(s) && p in s.procs && s.procs[p].pc == WriteEnd(g)
    ensures Moved(s, EndWrite(s, p, g, o), p)
  {
    assert WriteInv(s, p, s.procs[p].fp, g, true) && s.lock == Some(p);
  }

  lemma WriteEndInv(s: State, p: Pid, o: Outcome)
    requires Inv(s) && p in s.procs && s.procs[p].pc.WriteEnd?
    ensures Inv(Act(s, p, o))
  {
    WriteEndMoved(s, p, s.procs[p].pc.goal, o);
    MovedInv(s, EndWrite(s, p, s.procs[p].pc.goal, o), p);
  }

  lemma ReleaseInv(s: State, p: Pid, o: Outcome)
    requires Inv(s) && p in s.procs && s.procs[p].pc.Release?
    ensures Inv(Act(s, p, o))
  {
    MovedInv(s, Act(s, p, o), p);
  }

  lemma StartInv(s: State, p: Pid, fp: Fingerprint, pc: Pc)
    requires Inv(s) && p !in s.procs && (pc.PrepareCheck? || pc.SubmitRead?)
    ensures Inv(s.(procs := s.procs[p := Process(fp, pc)]))
  {
    var s' := s.(procs := s.procs[p := Process(fp, pc)]);
    forall q | q in s'.procs ensures ProcessInv(s', q, s'.procs[q].fp, s'.procs[q].pc) {
      if q != p { assert ProcessInv(s, q, s.procs[q].fp, s.procs[q].pc); }
    }
  }

  lemma CrashInv(s: State, p: Pid)
    requires Inv(s)
    ensures Inv(Apply(s, Crash(p)))
  {
    if p in s.procs && !s.procs[p].pc.Finished? { MovedInv(s, At(s, p, Crashed), p); }
  }

  lemma StepInv(s: State, e: Event)
    requires Inv(s) && Allowed(TRUTHFUL, e)
    ensures Inv(Apply(s, e))
  {
    match e
    case StartPrepare(p, fp) => if p !in s.procs { StartInv(s, p, fp, PrepareCheck); }
    case StartSubmit(p, fp) => if p !in s.procs { StartInv(s, p, fp, SubmitRead); }
    case Crash(p) => CrashInv(s, p);
    case Go(p, o) =>
      if p in s.procs {
        var pc := s.procs[p].pc;
        if pc.PrepareClaim? || pc.SubmitClaim? { ClaimInv(s, p, o); }
        else if pc.Upload? { UploadInv(s, p, o); }
        else if pc.Sbatch? { SbatchInv(s, p, o); }
        else if pc.WriteBegin? { WriteBeginInv(s, p, o); }
        else if pc.WriteEnd? { WriteEndInv(s, p, o); }
        else if pc.Release? { ReleaseInv(s, p, o); }
        else if !pc.Finished? && !pc.Crashed? { ReadInv(s, p, o); }
      }
  }

  lemma {:induction false} RunInv(s: State, es: seq<Event>)
    requires Inv(s) && AllAllowed(TRUTHFUL, es)
    ensures Inv(Run(s, es))
    decreases |es|
  {
    if es != [] {
      StepInv(s, es[0]);
      RunInv(Apply(s, es[0]), es[1..]);
    }
  }
}
