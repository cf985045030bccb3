/** The promises of the submission-attempt protocol, over all runs. */
module SubmissionTheorems {
  import opened Wrappers
  import opened SubmissionProtocol
  import opened SubmissionSafety

  lemma {:induction false} RunConcat(s: State, a: seq<Event>, b: seq<Event>)
    ensures Run(s, a + b) == Run(Run(s, a), b)
    decreases |a|
  {
    if a == [] {
      assert a + b == b;
    } else {
      assert (a + b)[1..] == a[1..] + b;
      RunConcat(Apply(s, a[0]), a[1..], b);
    }
  }

  lemma ReachableInv(n: nat, es: seq<Event>)
    requires AllAllowed(TRUTHFUL, es)
    ensures Inv(Run(Init(n), es))
  {
    InitInv(n);
    RunInv(Init(n), es);
  }

  // ------------------------------------------------------- one step at a time

  // s' differs from s in p's counter and in the shared state only.
  predicate OnlyMoves(s: State, s': State, p: Pid) {
    && s'.procs.Keys == s.procs.Keys
    && (p in s.procs ==> s'.procs[p].fp == s.procs[p].fp)
    && (forall q :: q in s.procs && q != p ==> s'.procs[q] == s.procs[q])
  }

  lemma AtFrame(s: State, x: State, p: Pid, pc: Pc)
    requires p in s.procs && x.procs == s.procs
    ensures OnlyMoves(s, At(x, p, pc), p)
  {
  }

  lemma ActFrame(s: State, p: Pid, o: Outcome)
    requires p in s.procs
    ensures OnlyMoves(s, Act(s, p, o), p)
  {
    var s' := Act(s, p, o);
    var x := s'.(procs := s.procs);
    var pc := s.procs[p].pc;
    if !pc.Finished? && !pc.Crashed? {
      assert s' == At(x, p, s'.procs[p].pc) by {
        if pc.PrepareClaim? || pc.SubmitClaim? { }
        else if pc.Upload? { }
        else if pc.Sbatch? { }
        else if pc.WriteBegin? || pc.WriteEnd? { }
        else { }
      }
      AtFrame(s, x, p, s'.procs[p].pc);
    }
  }

  // File k was uploaded, whole or in part, from a specification with fingerprint fp.
  predicate Rewrites(a: seq<Artifact>, a': seq<Artifact>, k: nat, fp: Fingerprint) {
    k < |a| && (a' == a[k := Uploaded(fp, true)] || a' == a[k := Uploaded(fp, false)])
  }

  // ------------------------------------------- what one step can never do

  // Only the holder of the claim writes run artifacts, only from its own
  // specification, and only while the state is absent or PREPARED with that
  // specification's fingerprint and nothing has been queued.
  lemma ArtifactWritesAreGuarded(n: nat, es: seq<Event>, e: Event)
    requires AllAllowed(TRUTHFUL, es)
    requires Apply(Run(Init(n), es), e).artifacts != Run(Init(n), es).artifacts
    ensures var s := Run(Init(n), es);
      && e.Go? && e.p in s.procs && s.lock == Some(e.p)
      && OpenTo(s.file, s.procs[e.p].fp) && s.jobs == []
      && exists k :: Rewrites(s.artifacts, Apply(s, e).artifacts, k, s.procs[e.p].fp)
  {
    ReachableInv(n, es);
    var s := Run(Init(n), es);
    assert s.procs[e.p].pc.Upload?;
    assert ProcessInv(s, e.p, s.procs[e.p].fp, s.procs[e.p].pc);
    assert Rewrites(s.artifacts, Apply(s, e).artifacts, s.procs[e.p].pc.next, s.procs[e.p].fp);
  }

  lemma QueuedStep(s: State, e: Event)
    requires Inv(s) && Allowed(TRUTHFUL, e) && s.jobs != []
    ensures Apply(s, e).jobs == s.jobs && Apply(s, e).artifacts == s.artifacts
  {
    if e.Go? && e.p in s.procs {
      assert ProcessInv(s, e.p, s.procs[e.p].fp, s.procs[e.p].pc);
    }
  }

  lemma {:induction false} QueuedRun(s: State, es: seq<Event>)
    requires Inv(s) && AllAllowed(TRUTHFUL, es) && s.jobs != []
    ensures Run(s, es).jobs == s.jobs && Run(s, es).artifacts == s.artifacts
    decreases |es|
  {
    if es != [] {
      QueuedStep(s, es[0]);
      StepInv(s, es[0]);
      QueuedRun(Apply(s, es[0]), es[1..]);
    }
  }

  // From the moment a job is queued: it stays the only one, no run artifact
  // changes again, the state file is never again absent or PREPARED, and while
  // it does not announce this job, the claim is the submitter's for good.
  lemma QueuedIsForever(n: nat, before: seq<Event>, after: seq<Event>)
    requires AllAllowed(TRUTHFUL, before + after) && Run(Init(n), before).jobs != []
    ensures var s := Run(Init(n), before); var s' := Run(Init(n), before + after);
      && |s.jobs| == 1 && s'.jobs == s.jobs && s'.artifacts == s.artifacts
      && !s'.file.Absent? && (s'.file.Holds? ==> s'.file.fp == s.jobs[0].fp && !s'.file.phase.Prepared?)
      && (s'.file == Holds(s.jobs[0].fp, Submitted(s.jobs[0].id))
         || (&& s'.lock == Some(s.jobs[0].owner)
             && s.jobs[0].owner in s'.procs
             && AfterQueueing(s'.procs[s.jobs[0].owner].pc, s.jobs[0].id)))
  {
    var s := Run(Init(n), before);
    assert before == (before + after)[..|before|] && after == (before + after)[|before|..];
    ReachableInv(n, before);
    ReachableInv(n, before + after);
    RunConcat(Init(n), before, after);
    QueuedRun(s, after);
    assert JobInv(Run(s, after), s.jobs[0]);
  }

  // ------------------------------------------------------- the fingerprint

  lemma {:induction false} BoundRun(s: State, es: seq<Event>)
    requires s.bound.Some?
    ensures Run(s, es).bound == s.bound
    decreases |es|
  {
    if es != [] {
      BoundRun(Apply(s, es[0]), es[1..]);
    }
  }

  // Two complete state files of one attempt, however far apart and whatever
  // half-finished writes lie between them, carry the same fingerprint.
  lemma FingerprintNeverChanges(n: nat, before: seq<Event>, after: seq<Event>)
    requires AllAllowed(TRUTHFUL, before + after)
    requires Run(Init(n), before).file.Holds? && Run(Init(n), before + after).file.Holds?
    ensures Run(Init(n), before).file.fp == Run(Init(n), before + after).file.fp
  {
    assert before == (before + after)[..|before|] && after == (before + after)[|before|..];
    ReachableInv(n, before);
    ReachableInv(n, before + after);
    RunConcat(Init(n), before, after);
    BoundRun(Run(Init(n), before), after);
  }

  // Every record handed to a client names the one queued job, whose
  // specification has the client's fingerprint, and whose run files were all
  // uploaded from a specification with that fingerprint.
  lemma RecordsNameTheJob(n: nat, es: seq<Event>, p: Pid, id: JobId, already: bool)
    requires AllAllowed(TRUTHFUL, es)
    requires p in Run(Init(n), es).procs
    requires Run(Init(n), es).procs[p].pc == Finished(Record(id, already))
    ensures var s := Run(Init(n), es);
      && |s.jobs| == 1 && s.jobs[0].id == id && s.jobs[0].fp == s.procs[p].fp
      && |s.jobs[0].inputs| == |s.artifacts| && AllFrom(s.jobs[0].inputs, s.procs[p].fp)
  {
    ReachableInv(n, es);
    var s := Run(Init(n), es);
    assert ProcessInv(s, p, s.procs[p].fp, s.procs[p].pc);
  }

  // ---------------------------------------------------- undisturbed requests

  function Uploads(p: Pid, k: nat): seq<Event> { seq(k, _ => Go(p, Works)) }

  // A Prepare in which every operation works; `look` is how it reads the state.
  function PrepareHead(p: Pid, fp: Fingerprint, look: Outcome): seq<Event> {
    [StartPrepare(p, fp), Go(p, look), Go(p, Works), Go(p, look)]
  }

  function PrepareTail(p: Pid, look: Outcome): seq<Event> {
    [Go(p, Works), Go(p, look), Go(p, Works), Go(p, Works), Go(p, Works)]
  }

  function PrepareScript(p: Pid, fp: Fingerprint, files: nat, look: Outcome): seq<Event> {
    PrepareHead(p, fp, look) + Uploads(p, files) + PrepareTail(p, look)
  }

  // A Submit in which every operation works and sbatch answers `answer`.
  function SubmitScript(p: Pid, fp: Fingerprint, answer: Outcome): seq<Event> {
    [StartSubmit(p, fp), Go(p, Works), Go(p, Works), Go(p, Works), Go(p, Works), Go(p, Works),
     Go(p, answer), Go(p, Works), Go(p, Works), Go(p, Works)]
  }

  lemma {:induction false} UploadsAll(s: State, p: Pid, k: nat)
    requires p in s.procs && s.procs[p].pc == Upload(k) && k <= |s.artifacts|
    ensures var s' := Run(s, Uploads(p, |s.artifacts| - k));
      && |s'.artifacts| == |s.artifacts|
      && s' == At(s, p, Upload(|s.artifacts|)).(artifacts := s'.artifacts)
    decreases |s.artifacts| - k
  {
    if k < |s.artifacts| {
      var es := Uploads(p, |s.artifacts| - k);
      assert es[1..] == Uploads(p, |s.artifacts| - (k + 1));
      UploadsAll(Apply(s, es[0]), p, k + 1);
    } else {
      assert At(s, p, Upload(k)) == s;
    }
  }

  lemma RunFive(s: State, es: seq<Event>)
    requires |es| >= 5
    ensures Run(s, es) ==
      Run(Apply(Apply(Apply(Apply(Apply(s, es[0]), es[1]), es[2]), es[3]), es[4]), es[5..])
  {
    assert es[1..][1..] == es[2..] && es[2..][1..] == es[3..] && es[3..][1..] == es[4..] && es[4..][1..] == es[5..];
    assert Run(s, es) == Run(Apply(s, es[0]), es[1..]);
    assert Run(Apply(s, es[0]), es[1..]) == Run(Apply(Apply(s, es[0]), es[1]), es[2..]);
    var s2 := Apply(Apply(s, es[0]), es[1]);
    assert Run(s2, es[2..]) == Run(Apply(s2, es[2]), es[3..]);
    var s3 := Apply(s2, es[2]);
    assert Run(s3, es[3..]) == Run(Apply(s3, es[3]), es[4..]);
    assert Run(Apply(s3, es[3]), es[4..]) == Run(Apply(Apply(s3, es[3]), es[4]), es[5..]);
  }

  lemma PrepareHeadWorks(s: State, p: Pid, fp: Fingerprint, look: Outcome)
    requires p !in s.procs && s.lock.None?
    requires look.ReportsMissing? || (look.Works? && OpenTo(s.file, fp))
    ensures Run(s, PrepareHead(p, fp, look)) ==
      s.(lock := Some(p), procs := s.procs[p := Process(fp, Upload(0))])
  {
    var head := PrepareHead(p, fp, look);
    assert head[1..][1..] == head[2..] && head[2..][1..] == head[3..] && head[3..][1..] == [];
    var s1 := Apply(s, head[0]);
    var s2 := Apply(s1, head[1]);
    assert s2 == s.(procs := s.procs[p := Process(fp, PrepareClaim)]);
    var s3 := Apply(s2, head[2]);
    assert s3 == s.(lock := Some(p), procs := s.procs[p := Process(fp, PrepareRecheck)]);
    var s4 := Apply(s3, head[3]);
    assert s4 == s.(lock := Some(p), procs := s.procs[p := Process(fp, Upload(0))]);
    assert Run(s1, head[1..]) == Run(s2, head[2..]);
    assert Run(s2, head[2..]) == Run(s3, head[3..]);
    assert Run(s3, head[3..]) == Run(s4, []);
  }

  lemma PreparedWriteWorks(s: State, p: Pid)
    requires p in s.procs && s.procs[p].pc == WriteBegin(ToPrepared)
    ensures var go := Go(p, Works); var s' := Apply(Apply(Apply(s, go), go), go); var fp := s.procs[p].fp;
      && s'.file == Holds(fp, Prepared) && s'.lock.None? && s'.jobs == s.jobs && s'.artifacts == s.artifacts
      && s'.procs == s.procs[p := Process(fp, Finished(DryRun))]
  {
    var go, fp := Go(p, Works), s.procs[p].fp;
    var s1 := Apply(s, go);
    assert s1.procs == s.procs[p := Process(fp, WriteEnd(ToPrepared))];
    var s2 := Apply(s1, go);
    assert s2.procs == s.procs[p := Process(fp, Release(DryRun))];
  }

  lemma PrepareTailWorks(s: State, p: Pid, look: Outcome)
    requires p in s.procs && s.procs[p].pc == Upload(|s.artifacts|)
    requires look.ReportsMissing? || (look.Works? && OpenTo(s.file, s.procs[p].fp))
    ensures var s' := Run(s, PrepareTail(p, look)); var fp := s.procs[p].fp;
      && s'.file == Holds(fp, Prepared) && s'.lock.None? && s'.jobs == s.jobs && s'.artifacts == s.artifacts
      && s'.procs == s.procs[p := Process(fp, Finished(DryRun))]
  {
    var es, fp := PrepareTail(p, look), s.procs[p].fp;
    RunFive(s, es);
    var s1 := Apply(s, es[0]);
    assert s1 == At(s, p, Confirm);
    var s2 := Apply(s1, es[1]);
    assert s2 == At(s, p, WriteBegin(ToPrepared));
    PreparedWriteWorks(s2, p);
    assert s2.procs[p := Process(fp, Finished(DryRun))] == s.procs[p := Process(fp, Finished(DryRun))];
    assert es[5..] == [];
  }

  // An undisturbed Prepare of an attempt that looks preparable marks it PREPARED.
  lemma PrepareWorks(s: State, p: Pid, fp: Fingerprint, look: Outcome)
    requires p !in s.procs && s.lock.None?
    requires look.ReportsMissing? || (look.Works? && OpenTo(s.file, fp))
    ensures var s' := Run(s, PrepareScript(p, fp, |s.artifacts|, look));
      && s'.file == Holds(fp, Prepared) && s'.lock.None? && s'.jobs == s.jobs
      && |s'.artifacts| == |s.artifacts|
      && s'.procs == s.procs[p := Process(fp, Finished(DryRun))]
  {
    var n := |s.artifacts|;
    var head, tail := PrepareHead(p, fp, look), PrepareTail(p, look);
    RunConcat(s, head + Uploads(p, n), tail);
    RunConcat(s, head, Uploads(p, n));
    PrepareHeadWorks(s, p, fp, look);
    var s1 := Run(s, head);
    UploadsAll(s1, p, 0);
    PrepareTailWorks(Run(s1, Uploads(p, n)), p, look);
  }

  lemma SubmitHeadWorks(s: State, p: Pid, fp: Fingerprint)
    requires p !in s.procs && s.lock.None? && s.file == Holds(fp, Prepared)
    ensures var go := Go(p, Works);
      Apply(Apply(Apply(Apply(Apply(s, StartSubmit(p, fp)), go), go), go), go)
      == s.(lock := Some(p), file := Torn, procs := s.procs[p := Process(fp, WriteEnd(ToSubmitting))])
  {
    var go := Go(p, Works);
    var s1 := Apply(s, StartSubmit(p, fp));
    var s2 := Apply(s1, go);
    assert s2 == s.(procs := s.procs[p := Process(fp, SubmitClaim)]);
    var s3 := Apply(s2, go);
    assert s3 == s.(lock := Some(p), procs := s.procs[p := Process(fp, SubmitReread)]);
    var s4 := Apply(s3, go);
    assert s4 == s.(lock := Some(p), procs := s.procs[p := Process(fp, WriteBegin(ToSubmitting))]);
    assert Apply(s4, go).procs == s.procs[p := Process(fp, WriteEnd(ToSubmitting))];
  }

  // Where the answer of sbatch leads.
  function GoalAfter(answer: Outcome): Goal {
    if answer.Accepts? then ToSubmitted(answer.job) else BackToPrepared
  }

  function ReplyAfter(answer: Outcome): Reply {
    if answer.Accepts? then Record(answer.job, false) else Raised
  }

  lemma SbatchAnswers(s: State, p: Pid, fp: Fingerprint, answer: Outcome)
    requires p in s.procs && s.procs[p] == Process(fp, WriteEnd(ToSubmitting))
    requires answer.Accepts? || answer.RefusesButQueues? || answer.Refuses?
    ensures var s' := Apply(Apply(s, Go(p, Works)), Go(p, answer));
      && s'.lock == s.lock && s'.artifacts == s.artifacts
      && s'.jobs == (if answer.Refuses? then s.jobs else s.jobs + [Job(answer.job, p, fp, s.artifacts)])
      && s'.procs == s.procs[p := Process(fp, WriteBegin(GoalAfter(answer)))]
  {
    var s1 := Apply(s, Go(p, Works));
    assert s1.procs == s.procs[p := Process(fp, Sbatch)];
    assert s1.procs[p := Process(fp, WriteBegin(GoalAfter(answer)))] == s.procs[p := Process(fp, WriteBegin(GoalAfter(answer)))];
  }

  lemma LastWriteWorks(s: State, p: Pid, fp: Fingerprint, answer: Outcome)
    requires p in s.procs && s.procs[p] == Process(fp, WriteBegin(GoalAfter(answer)))
    ensures var go := Go(p, Works); var s' := Apply(Apply(Apply(s, go), go), go);
      && s'.lock.None? && s'.artifacts == s.artifacts && s'.jobs == s.jobs
      && s'.file == Holds(fp, PhaseFor(GoalAfter(answer)))
      && s'.procs == s.procs[p := Process(fp, Finished(ReplyAfter(answer)))]
  {
    var go := Go(p, Works);
    var s1 := Apply(s, go);
    assert s1.procs == s.procs[p := Process(fp, WriteEnd(GoalAfter(answer)))];
    var s2 := Apply(s1, go);
    assert s2.procs == s.procs[p := Process(fp, Release(ReplyAfter(answer)))];
  }

  // An undisturbed Submit of a prepared attempt queues one more job unless sbatch
  // refuses; what it leaves in the state file is decided by sbatch's answer.
  lemma SubmitWorks(s: State, p: Pid, fp: Fingerprint, answer: Outcome)
    requires p !in s.procs && s.lock.None? && s.file == Holds(fp, Prepared)
    requires answer.Accepts? || answer.RefusesButQueues? || answer.Refuses?
    ensures var s' := Run(s, SubmitScript(p, fp, answer));
      && s'.lock.None? && |s'.artifacts| == |s.artifacts|
      && s'.jobs == (if answer.Refuses? then s.jobs else s.jobs + [Job(answer.job, p, fp, s.artifacts)])
      && s'.file == Holds(fp, if answer.Accepts? then Submitted(answer.job) else Prepared)
      && s'.procs == s.procs[p := Process(fp, Finished(
           if answer.Accepts? then Record(answer.job, false) else Raised))]
  {
    var es := SubmitScript(p, fp, answer);
    RunFive(s, es);
    SubmitHeadWorks(s, p, fp);
    var s5 := s.(lock := Some(p), file := Torn, procs := s.procs[p := Process(fp, WriteEnd(ToSubmitting))]);
    RunFive(s5, es[5..]);
    SbatchAnswers(s5, p, fp, answer);
    var s7 := Apply(Apply(s5, es[5]), es[6]);
    LastWriteWorks(s7, p, fp, answer);
    assert es[5..][5..] == [];
  }

  // ------------------------------------------------- a Submit that is asked again

  predicate Foreign(es: seq<Event>, p: Pid) {
    forall i :: 0 <= i < |es| ==> es[i].p != p
  }

  lemma OtherLeavesAlone(s: State, e: Event, p: Pid)
    requires p in s.procs && e.p != p
    ensures p in Apply(s, e).procs && Apply(s, e).procs[p] == s.procs[p]
    ensures |Apply(s, e).artifacts| == |s.artifacts|
  {
  }

  // Other requests move neither this one's counter nor the number of files.
  lemma {:induction false} OthersLeaveAlone(s: State, es: seq<Event>, p: Pid)
    requires p in s.procs && Foreign(es, p)
    ensures p in Run(s, es).procs && Run(s, es).procs[p] == s.procs[p]
    ensures |Run(s, es).artifacts| == |s.artifacts|
    decreases |es|
  {
    if es != [] {
      OtherLeavesAlone(s, es[0], p);
      OthersLeaveAlone(Apply(s, es[0]), es[1..], p);
    }
  }

  // A run without the turns of a request, nor its crashes.
  function WithoutTurns(es: seq<Event>, p: Pid): seq<Event>
    decreases |es|
  {
    if es == [] then []
    else (if (es[0].Go? || es[0].Crash?) && es[0].p == p then [] else [es[0]]) + WithoutTurns(es[1..], p)
  }

  // What a request does depends on the processes only through its own.
  predicate ActsAlike(s': State, t': State, q: Pid) {
    s'.(procs := t'.procs) == t' && q in s'.procs && q in t'.procs && s'.procs[q] == t'.procs[q]
  }

  lemma MovesAlike(s: State, t: State, q: Pid, pc: Pc)
    requires ActsAlike(s, t, q)
    ensures ActsAlike(At(s, q, pc), At(t, q, pc), q)
  {
  }

  lemma WritesAlike(s: State, t: State, q: Pid, o: Outcome, g: Goal)
    requires ActsAlike(s, t, q)
    ensures ActsAlike(BeginWrite(s, q, g, o), BeginWrite(t, q, g, o), q)
    ensures ActsAlike(EndWrite(s, q, g, o), EndWrite(t, q, g, o), q)
  {
  }

  lemma CallsAlike(s: State, t: State, q: Pid, o: Outcome, won: Pc, lost: Pc, k: nat)
    requires ActsAlike(s, t, q)
    ensures ActsAlike(Claim(s, q, o, won, lost), Claim(t, q, o, won, lost), q)
    ensures ActsAlike(UploadNext(s, q, k, o), UploadNext(t, q, k, o), q)
    ensures ActsAlike(CallSbatch(s, q, o), CallSbatch(t, q, o), q)
  {
  }

  lemma ReadsAlone(s: State, t: State, q: Pid, o: Outcome)
    requires ActsAlike(s, t, q)
    requires match s.procs[q].pc
      case PrepareCheck | PrepareRecheck | Confirm | SubmitRead | SubmitReread | Wait => true
      case Release(_) | Finished(_) | Crashed => true
      case _ => false
    ensures ActsAlike(Act(s, q, o), Act(t, q, o), q)
  {
  }

  lemma ClaimsAlone(s: State, t: State, q: Pid, o: Outcome)
    requires ActsAlike(s, t, q) && (s.procs[q].pc.PrepareClaim? || s.procs[q].pc.SubmitClaim?)
    ensures ActsAlike(Act(s, q, o), Act(t, q, o), q)
  {
    CallsAlike(s, t, q, o, PrepareRecheck, Finished(Raised), 0);
    CallsAlike(s, t, q, o, SubmitReread, Wait, 0);
  }

  lemma ActsAlone(s: State, t: State, q: Pid, o: Outcome)
    requires ActsAlike(s, t, q)
    ensures ActsAlike(Act(s, q, o), Act(t, q, o), q)
  {
    match s.procs[q].pc
    case PrepareClaim | SubmitClaim => ClaimsAlone(s, t, q, o);
    case Upload(k) => CallsAlike(s, t, q, o, Wait, Wait, k);
    case Sbatch => CallsAlike(s, t, q, o, Wait, Wait, 0);
    case WriteBegin(g) => WritesAlike(s, t, q, o, g);
    case WriteEnd(g) => WritesAlike(s, t, q, o, g);
    case _ => ReadsAlone(s, t, q, o);
  }

  lemma OthersSeeNoCrash(s: State, e: Event, p: Pid)
    requires p in s.procs && !((e.Go? || e.Crash?) && e.p == p)
    ensures p in Apply(s, e).procs && Apply(s, e).procs[p] == s.procs[p]
    ensures Apply(At(s, p, Crashed), e) == At(Apply(s, e), p, Crashed)
  {
    var t := At(s, p, Crashed);
    if e.Go? && e.p in s.procs {
      ActsAlone(s, t, e.p, e.o);
      ActFrame(s, e.p, e.o);
      ActFrame(t, e.p, e.o);
    }
    assert Apply(t, e).procs == At(Apply(s, e), p, Crashed).procs;
  }

  // A request that is going on stops for good when it crashes: all the rest of the run is as if
  // it had simply been given no further turn. What it holds it keeps.
  lemma {:induction false} CrashIsSilence(s: State, es: seq<Event>, p: Pid)
    requires p in s.procs && !s.procs[p].pc.Finished?
    ensures var quiet := Run(s, WithoutTurns(es, p));
      p in quiet.procs && quiet.procs[p] == s.procs[p] && Run(s, [Crash(p)] + es) == At(quiet, p, Crashed)
    decreases |es|
  {
    var s' := At(s, p, Crashed);
    assert ([Crash(p)] + es)[1..] == es;
    if es != [] {
      var own := (es[0].Go? || es[0].Crash?) && es[0].p == p;
      if !own { OthersSeeNoCrash(s, es[0], p); }
      var next := if own then s else Apply(s, es[0]);
      var quiet := WithoutTurns(es[1..], p);
      assert WithoutTurns(es, p) == if own then quiet else [es[0]] + quiet;
      assert Run(s, [es[0]] + quiet) == Run(Apply(s, es[0]), quiet);
      CrashIsSilence(next, es[1..], p);
      assert ([Crash(p)] + es[1..])[1..] == es[1..];
      assert Apply(s', es[0]) == At(next, p, Crashed) by { if own { assert At(s', p, Crashed).procs == s'.procs; } }
    }
  }

  // Once the state file says SUBMITTED nobody writes it again.
  lemma AnnouncedStep(s: State, e: Event)
    requires Inv(s) && Announced(s.file)
    ensures Apply(s, e).file == s.file
  {
    if e.Go? && e.p in s.procs { assert ProcessInv(s, e.p, s.procs[e.p].fp, s.procs[e.p].pc); }
  }

  lemma {:induction false} AnnouncedRun(s: State, es: seq<Event>)
    requires Inv(s) && Announced(s.file) && AllAllowed(TRUTHFUL, es)
    ensures Run(s, es).file == s.file
    decreases |es|
  {
    if es != [] {
      AnnouncedStep(s, es[0]);
      StepInv(s, es[0]);
      AnnouncedRun(Apply(s, es[0]), es[1..]);
    }
  }

  // A Submit for an attempt that is SUBMITTED already answers the job that is there, as
  // submitted before, and touches nothing, whatever others do before it reads.
  lemma SubmittedIsAnswered(n: nat, es: seq<Event>, others: seq<Event>, p: Pid, fp: Fingerprint, j: JobId)
    requires AllAllowed(TRUTHFUL, es) && AllAllowed(TRUTHFUL, others) && Foreign(others, p)
    requires Run(Init(n), es).file == Holds(fp, Submitted(j)) && p !in Run(Init(n), es).procs
    ensures var s := Run(Run(Init(n), es), [StartSubmit(p, fp)] + others); var s' := Apply(s, Go(p, Works));
      && p in s.procs && s' == s.(procs := s.procs[p := Process(fp, Finished(Record(j, true)))])
      && |s'.jobs| == 1 && s'.jobs[0].id == j && s'.jobs[0].fp == fp
  {
    var s0 := Run(Init(n), es);
    var start := StartSubmit(p, fp);
    var s1 := Apply(s0, start);
    ReachableInv(n, es);
    StepInv(s0, start);
    assert ([start] + others)[0] == start && ([start] + others)[1..] == others;
    AnnouncedRun(s1, others);
    RunInv(s1, others);
    OthersLeaveAlone(s1, others, p);
  }

  // ---------------------------------------------------------- the main result

  ghost predicate AtMostOneJob(env: Environment, n: nat) {
    forall es :: AllAllowed(env, es) ==> |Run(Init(n), es).jobs| <= 1
  }

  lemma ScriptsAllowed(env: Environment, p: Pid, fp: Fingerprint, n: nat, o: Outcome)
    requires o.RefusesButQueues? ==> env.exitMayLie
    requires o.ReportsMissing? ==> env.testMayLie
    ensures AllAllowed(env, PrepareScript(p, fp, n, o)) && AllAllowed(env, SubmitScript(p, fp, o))
  {
  }

  lemma AllowedConcat(env: Environment, a: seq<Event>, b: seq<Event>)
    requires AllAllowed(env, a) && AllAllowed(env, b)
    ensures AllAllowed(env, a + b)
  {
  }

  // One undisturbed Prepare by p followed by one undisturbed Submit by p + 1.
  function Round(p: Pid, fp: Fingerprint, files: nat, look: Outcome, answer: Outcome): seq<Event> {
    PrepareScript(p, fp, files, look) + SubmitScript(p + 1, fp, answer)
  }

  lemma RoundWorks(s: State, p: Pid, fp: Fingerprint, look: Outcome, answer: Outcome)
    requires p !in s.procs && p + 1 !in s.procs && s.lock.None?
    requires look.ReportsMissing? || (look.Works? && OpenTo(s.file, fp))
    requires answer.Accepts? || answer.RefusesButQueues?
    ensures var s' := Run(s, Round(p, fp, |s.artifacts|, look, answer));
      && s'.lock.None? && |s'.artifacts| == |s.artifacts| && |s'.jobs| == |s.jobs| + 1
      && s'.file == Holds(fp, if answer.Accepts? then Submitted(answer.job) else Prepared)
      && s'.procs.Keys == s.procs.Keys + {p, p + 1}
  {
    var prepare := PrepareScript(p, fp, |s.artifacts|, look);
    PrepareWorks(s, p, fp, look);
    SubmitWorks(Run(s, prepare), p + 1, fp, answer);
    RunConcat(s, prepare, SubmitScript(p + 1, fp, answer));
  }

  lemma RoundAllowed(env: Environment, p: Pid, fp: Fingerprint, n: nat, look: Outcome, answer: Outcome)
    requires Allowed(env, Go(p, look)) && Allowed(env, Go(p, answer))
    ensures AllAllowed(env, Round(p, fp, n, look, answer))
  {
    ScriptsAllowed(env, p, fp, n, look);
    ScriptsAllowed(env, p + 1, fp, n, answer);
    AllowedConcat(env, PrepareScript(p, fp, n, look), SubmitScript(p + 1, fp, answer));
  }

  // sbatch exits non-zero although it queued the job: the attempt goes back to
  // PREPARED, and the next Prepare and Submit queue another job.
  lemma TwoJobsWhenExitsLie(n: nat) returns (es: seq<Event>)
    ensures AllAllowed(Environment(true, false), es) && |Run(Init(n), es).jobs| == 2
  {
    es := TwoRounds(Environment(true, false), n, RefusesButQueues(100), Works);
  }

  // A Prepare that is told the state file does not exist prepares a submitted
  // attempt again, and the next Submit queues a second job.
  lemma TwoJobsWhenTestsLie(n: nat) returns (es: seq<Event>)
    ensures AllAllowed(Environment(false, true), es) && |Run(Init(n), es).jobs| == 2
  {
    es := TwoRounds(Environment(false, true), n, Accepts(100), ReportsMissing);
  }

  lemma TwoRounds(env: Environment, n: nat, answer: Outcome, look: Outcome) returns (es: seq<Event>)
    requires Allowed(env, Go(0, answer)) && Allowed(env, Go(0, look))
    requires (answer.RefusesButQueues? && look.Works?) || (answer.Accepts? && look.ReportsMissing?)
    ensures AllAllowed(env, es) && |Run(Init(n), es).jobs| == 2
  {
    var first, second := Round(0, 7, n, Works, answer), Round(2, 7, n, look, Accepts(101));
    es := first + second;
    RoundAllowed(env, 0, 7, n, Works, answer);
    RoundAllowed(env, 2, 7, n, look, Accepts(101));
    AllowedConcat(env, first, second);
    RoundWorks(Init(n), 0, 7, Works, answer);
    RoundWorks(Run(Init(n), first), 2, 7, look, Accepts(101));
    RunConcat(Init(n), first, second);
  }

  lemma AllowedMonotone(env: Environment, env': Environment, es: seq<Event>)
    requires AllAllowed(env, es)
    requires env.exitMayLie ==> env'.exitMayLie
    requires env.testMayLie ==> env'.testMayLie
    ensures AllAllowed(env', es)
  {
    forall i | 0 <= i < |es| ensures Allowed(env', es[i]) {
      assert Allowed(env, es[i]);
    }
  }

  // At most one job is ever queued, over all requests, interleavings, failures
  // and crashes, exactly when neither a non-zero sbatch exit nor a failed
  // `test -f` can be a false report.
  lemma AtMostOneJobExactlyWhenTruthful(env: Environment, n: nat)
    ensures AtMostOneJob(env, n) <==> env == TRUTHFUL
  {
    if env == TRUTHFUL {
      forall es | AllAllowed(env, es) ensures |Run(Init(n), es).jobs| <= 1 {
        ReachableInv(n, es);
      }
    } else if env.exitMayLie {
      var es := TwoJobsWhenExitsLie(n);
      AllowedMonotone(Environment(true, false), env, es);
    } else {
      var es := TwoJobsWhenTestsLie(n);
      assert AllAllowed(env, es);
    }
  }
}
