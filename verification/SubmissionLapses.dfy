/**
 What the protocol does not promise, and exactly when. Whether queued jobs read whole files:
 an upload truncates a run file before it fills it (backend/paramiko_remote.py:839-848), and
 a failed re-preparation leaves PREPARED in place (:1018-1044). And when a finished Submit
 leaves its claim behind (:1091-1172), although all its own operations worked.
 */
module SubmissionLapses {
  import opened Wrappers
  import opened SubmissionProtocol
  import opened SubmissionSafety
  import opened SubmissionTheorems

  // ------------------------------------------------------------- whole files

  // No operation ends halfway: the only one that leaves half its effect is an upload.
  predicate Unbroken(es: seq<Event>) {
    forall i :: 0 <= i < |es| && es[i].Go? ==> !es[i].o.HalfThenRaises?
  }

  predicate AllWhole(inputs: seq<Artifact>) {
    forall k :: 0 <= k < |inputs| ==> inputs[k].Uploaded? && inputs[k].whole
  }

  predicate NoneBroken(inputs: seq<Artifact>) {
    forall k :: 0 <= k < |inputs| ==> inputs[k].Uploaded? ==> inputs[k].whole
  }

  predicate NothingBroken(s: State) {
    NoneBroken(s.artifacts) && forall i :: 0 <= i < |s.jobs| ==> NoneBroken(s.jobs[i].inputs)
  }

  lemma UnbrokenUpload(s: State, p: Pid, k: nat, o: Outcome)
    requires NothingBroken(s) && p in s.procs && !o.HalfThenRaises?
    ensures NothingBroken(UploadNext(s, p, k, o))
  {
  }

  lemma UnbrokenSbatch(s: State, p: Pid, o: Outcome)
    requires NothingBroken(s) && p in s.procs
    ensures NothingBroken(CallSbatch(s, p, o))
  {
    if CallSbatch(s, p, o).jobs != s.jobs { assert CallSbatch(s, p, o).jobs[..|s.jobs|] == s.jobs; }
  }

  lemma UnbrokenStep(s: State, e: Event)
    requires NothingBroken(s) && (e.Go? ==> !e.o.HalfThenRaises?)
    ensures NothingBroken(Apply(s, e))
  {
    if e.Go? && e.p in s.procs {
      match s.procs[e.p].pc
      case Upload(k) => UnbrokenUpload(s, e.p, k, e.o);
      case Sbatch => UnbrokenSbatch(s, e.p, e.o);
      case _ =>
    }
  }

  lemma {:induction false} UnbrokenRun(s: State, es: seq<Event>)
    requires NothingBroken(s) && Unbroken(es)
    ensures NothingBroken(Run(s, es))
    decreases |es|
  {
    if es != [] {
      UnbrokenStep(s, es[0]);
      UnbrokenRun(Apply(s, es[0]), es[1..]);
    }
  }

  // Without broken uploads every queued job reads files that are all there and whole.
  lemma JobsReadWholeFiles(n: nat, es: seq<Event>, i: nat)
    requires AllAllowed(TRUTHFUL, es) && Unbroken(es) && i < |Run(Init(n), es).jobs|
    ensures AllWhole(Run(Init(n), es).jobs[i].inputs)
  {
    UnbrokenRun(Init(n), es);
    ReachableInv(n, es);
    var s := Run(Init(n), es);
    assert NoneBroken(s.jobs[i].inputs);
    assert AllFrom(s.jobs[i].inputs, s.jobs[i].fp);
  }

  // A second Prepare, whose first upload ends halfway and which then gives up its claim.
  function BrokenPrepare(p: Pid, fp: Fingerprint): seq<Event> {
    PrepareHead(p, fp, Works) + [Go(p, HalfThenRaises), Go(p, Works)]
  }

  lemma BrokenPrepareRuns(s: State, p: Pid, fp: Fingerprint)
    requires p !in s.procs && s.lock.None? && s.file == Holds(fp, Prepared) && |s.artifacts| > 0
    ensures var s' := Run(s, BrokenPrepare(p, fp));
      && s'.file == s.file && s'.lock.None? && s'.jobs == s.jobs
      && s'.artifacts == s.artifacts[0 := Uploaded(fp, false)]
      && s'.procs == s.procs[p := Process(fp, Finished(Raised))]
  {
    var tail := [Go(p, HalfThenRaises), Go(p, Works)];
    RunConcat(s, PrepareHead(p, fp, Works), tail);
    PrepareHeadWorks(s, p, fp, Works);
    var s1 := Run(s, PrepareHead(p, fp, Works));
    var s2 := Apply(s1, tail[0]);
    assert s2.procs == s.procs[p := Process(fp, Release(Raised))];
    assert tail[1..][1..] == [];
    assert Run(s1, tail) == Run(s2, tail[1..]) == Run(Apply(s2, tail[1]), []);
  }

  lemma RunThree(s: State, a: seq<Event>, b: seq<Event>, c: seq<Event>)
    ensures Run(s, a + b + c) == Run(Run(Run(s, a), b), c)
  {
    RunConcat(s, a + b, c);
    RunConcat(s, a, b);
  }

  lemma BrokenRunIsAllowed(n: nat)
    ensures AllAllowed(TRUTHFUL, PrepareScript(0, 7, n, Works) + BrokenPrepare(1, 7) + SubmitScript(2, 7, Accepts(100)))
  {
    ScriptsAllowed(TRUTHFUL, 0, 7, n, Works);
    ScriptsAllowed(TRUTHFUL, 2, 7, n, Accepts(100));
    AllowedConcat(TRUTHFUL, PrepareScript(0, 7, n, Works), BrokenPrepare(1, 7));
    AllowedConcat(TRUTHFUL, PrepareScript(0, 7, n, Works) + BrokenPrepare(1, 7), SubmitScript(2, 7, Accepts(100)));
  }

  lemma PreparedTwice(n: nat) returns (s: State)
    requires n > 0
    ensures s == Run(Run(Init(n), PrepareScript(0, 7, n, Works)), BrokenPrepare(1, 7))
    ensures s.file == Holds(7, Prepared) && s.lock.None? && s.jobs == [] && 2 !in s.procs
    ensures |s.artifacts| == n && s.artifacts[0] == Uploaded(7, false)
  {
    PrepareWorks(Init(n), 0, 7, Works);
    var s1 := Run(Init(n), PrepareScript(0, 7, n, Works));
    BrokenPrepareRuns(s1, 1, 7);
    s := Run(s1, BrokenPrepare(1, 7));
  }

  // Prepared, half prepared again, and submitted: all reports are true, and the job that is
  // queued and answered reads a broken file.
  lemma JobReadsABrokenFile(n: nat) returns (es: seq<Event>)
    requires n > 0
    ensures AllAllowed(TRUTHFUL, es)
    ensures var s := Run(Init(n), es);
      && 2 in s.procs && s.procs[2].pc == Finished(Record(100, false))
      && |s.jobs| == 1 && |s.jobs[0].inputs| == n && s.jobs[0].inputs[0] == Uploaded(7, false)
  {
    es := PrepareScript(0, 7, n, Works) + BrokenPrepare(1, 7) + SubmitScript(2, 7, Accepts(100));
    BrokenRunIsAllowed(n);
    RunThree(Init(n), PrepareScript(0, 7, n, Works), BrokenPrepare(1, 7), SubmitScript(2, 7, Accepts(100)));
    var s := PreparedTwice(n);
    SubmitWorks(s, 2, 7, Accepts(100));
  }

  ghost predicate JobsAlwaysReadWholeFiles(uploadsMayBreak: bool, n: nat) {
    forall es, i: nat :: AllAllowed(TRUTHFUL, es) && (uploadsMayBreak || Unbroken(es)) && i < |Run(Init(n), es).jobs| ==>
      AllWhole(Run(Init(n), es).jobs[i].inputs)
  }

  // In every run every queued job reads whole files, exactly when no upload can end halfway.
  lemma JobsReadWholeFilesExactly(uploadsMayBreak: bool, n: nat)
    requires n > 0
    ensures JobsAlwaysReadWholeFiles(uploadsMayBreak, n) <==> !uploadsMayBreak
  {
    if uploadsMayBreak {
      var es := JobReadsABrokenFile(n);
      assert !AllWhole(Run(Init(n), es).jobs[0].inputs);
    } else {
      forall es, i: nat | AllAllowed(TRUTHFUL, es) && Unbroken(es) && i < |Run(Init(n), es).jobs|
        ensures AllWhole(Run(Init(n), es).jobs[i].inputs)
      {
        JobsReadWholeFiles(n, es, i);
      }
    }
  }

  // ------------------------------------------------------- an answer that is lost

  lemma AnswerIsLost(s: State, p: Pid, fp: Fingerprint, queued: Option<JobId>)
    requires p in s.procs && s.procs[p] == Process(fp, WriteEnd(ToSubmitting))
    ensures var s' := Apply(Apply(s, Go(p, Works)), Go(p, LosesReply(queued)));
      && s'.lock == s.lock && s'.artifacts == s.artifacts
      && s'.jobs == s.jobs + (if queued.Some? then [Job(queued.value, p, fp, s.artifacts)] else [])
      && s'.procs == s.procs[p := Process(fp, WriteBegin(StillUncertain))]
  {
    var s1 := Apply(s, Go(p, Works));
    assert s1.procs == s.procs[p := Process(fp, Sbatch)];
    assert s1.procs[p := Process(fp, WriteBegin(StillUncertain))] == s.procs[p := Process(fp, WriteBegin(StillUncertain))];
  }

  lemma UncertaintyIsWritten(s: State, p: Pid, fp: Fingerprint)
    requires p in s.procs && s.procs[p] == Process(fp, WriteBegin(StillUncertain))
    ensures var go := Go(p, Works); var s' := Apply(Apply(Apply(s, go), go), go);
      && s'.lock == s.lock && s'.artifacts == s.artifacts && s'.jobs == s.jobs && s'.file == Holds(fp, Submitting)
      && s'.procs == s.procs[p := Process(fp, Finished(Raised))]
  {
    var go := Go(p, Works);
    var s1 := Apply(s, go);
    assert s1.procs == s.procs[p := Process(fp, WriteEnd(StillUncertain))];
    var s2 := Apply(s1, go);
    assert s2.procs == s.procs[p := Process(fp, Finished(Raised))];
  }

  // A Submit that is not disturbed, but does not hear from sbatch, is an error that leaves
  // SUBMITTING and its claim in place, whether or not a job was queued; so nobody submits
  // the attempt again.
  lemma LostAnswerKeepsTheClaim(s: State, p: Pid, fp: Fingerprint, queued: Option<JobId>)
    requires p !in s.procs && s.lock.None? && s.file == Holds(fp, Prepared)
    ensures var s' := Run(s, SubmitScript(p, fp, LosesReply(queued)));
      && s'.lock == Some(p) && s'.file == Holds(fp, Submitting) && s'.artifacts == s.artifacts
      && s'.jobs == s.jobs + (if queued.Some? then [Job(queued.value, p, fp, s.artifacts)] else [])
      && s'.procs == s.procs[p := Process(fp, Finished(Raised))]
  {
    var es := SubmitScript(p, fp, LosesReply(queued));
    RunFive(s, es);
    SubmitHeadWorks(s, p, fp);
    var s5 := s.(lock := Some(p), file := Torn, procs := s.procs[p := Process(fp, WriteEnd(ToSubmitting))]);
    RunFive(s5, es[5..]);
    AnswerIsLost(s5, p, fp, queued);
    UncertaintyIsWritten(Apply(Apply(s5, es[5]), es[6]), p, fp);
    assert es[5..][5..] == [];
  }

  // -------------------------------------------------------- the claim that stays

  // No Prepare is started as p, and each operation of p works: sbatch is answered, and
  // every other operation completes and says so.
  predicate OwnWorks(s: State, e: Event, p: Pid) {
    e.p == p ==>
      && !e.StartPrepare?
      && (e.Go? && p in s.procs ==>
            if s.procs[p].pc.Sbatch? then e.o.Accepts? || e.o.Refuses? else e.o.Works?)
  }

  predicate AllOwnWork(s: State, es: seq<Event>, p: Pid)
    decreases |es|
  {
    es == [] || (OwnWorks(s, es[0], p) && AllOwnWork(Apply(s, es[0]), es[1..], p))
  }

  // The counters of a Submit between a claim that worked and the end of it.
  predicate Claiming(pc: Pc) {
    pc.SubmitReread? || pc.Sbatch? || pc.Release? || ((pc.WriteBegin? || pc.WriteEnd?) && !pc.goal.ToPrepared?)
  }

  predicate Unclaimed(pc: Pc) { pc.SubmitRead? || pc.SubmitClaim? || pc.Wait? }

  // Where process p is, and whose the claim is.
  predicate ClaimInv(s: State, p: Pid) {
    if p !in s.procs then s.lock != Some(p)
    else
      var pc := s.procs[p].pc;
      && (Unclaimed(pc) ==> s.lock != Some(p)) && (Unclaimed(pc) || Claiming(pc) || pc.Finished? || pc.Crashed?)
      && ((pc.WriteBegin? || pc.WriteEnd?) ==> !pc.goal.StillUncertain?)
  }

  // What another process does to the lock is never to hand it to p.
  lemma OthersDoNotClaim(s: State, q: Pid, o: Outcome, p: Pid)
    requires q in s.procs && q != p
    ensures Act(s, q, o).lock == Some(p) ==> s.lock == Some(p)
  {
  }

  lemma OthersLeaveTheClaim(s: State, e: Event, p: Pid)
    requires ClaimInv(s, p) && e.p != p
    ensures ClaimInv(Apply(s, e), p)
  {
    if e.Go? && e.p in s.procs {
      OthersDoNotClaim(s, e.p, e.o, p);
      ActFrame(s, e.p, e.o);
    }
  }

  lemma OwnStepKeepsClaimInv(s: State, e: Event)
    requires ClaimInv(s, e.p) && OwnWorks(s, e, e.p)
    ensures ClaimInv(Apply(s, e), e.p)
  {
  }

  lemma {:induction false} ClaimInvRun(s: State, es: seq<Event>, p: Pid)
    requires ClaimInv(s, p) && AllOwnWork(s, es, p)
    ensures ClaimInv(Run(s, es), p)
    decreases |es|
  {
    if es != [] {
      if es[0].p == p { OwnStepKeepsClaimInv(s, es[0]); } else { OthersLeaveTheClaim(s, es[0], p); }
      ClaimInvRun(Apply(s, es[0]), es[1..], p);
    }
  }

  // Process p performs an operation and has then finished.
  predicate Ends(s: State, p: Pid, o: Outcome) {
    && p in s.procs && !s.procs[p].pc.Finished? && !s.procs[p].pc.Crashed?
    && p in Act(s, p, o).procs && Act(s, p, o).procs[p].pc.Finished?
  }

  lemma LastStep(s: State, p: Pid, o: Outcome)
    requires Inv(s) && ClaimInv(s, p) && OwnWorks(s, Go(p, o), p) && Ends(s, p, o)
    ensures var s' := Act(s, p, o);
      && (s'.lock == Some(p) <==> s.procs[p].pc.SubmitReread?)
      && (s.procs[p].pc.SubmitReread? ==>
            s.file.Holds? && s.file.phase.Submitted? && s'.procs[p].pc.reply == Record(s.file.phase.job, true))
  {
    assert ProcessInv(s, p, s.procs[p].fp, s.procs[p].pc);
  }

  // A Submit of which every operation works leaves the lock in its own hands when it ends
  // exactly when it ends at its second read, by finding the attempt SUBMITTED: the early
  // return answers without giving up the claim. Every other end gives it up.
  lemma ClaimKeptExactly(n: nat, es: seq<Event>, p: Pid, o: Outcome)
    requires AllAllowed(TRUTHFUL, es) && AllOwnWork(Init(n), es, p)
    requires OwnWorks(Run(Init(n), es), Go(p, o), p) && Ends(Run(Init(n), es), p, o)
    ensures var s := Run(Init(n), es); var s' := Apply(s, Go(p, o));
      && p in s.procs && p in s'.procs && s'.procs[p].pc.Finished?
      && (s'.lock == Some(p) <==> s.procs[p].pc.SubmitReread?)
      && (s.procs[p].pc.SubmitReread? ==>
            s.file.Holds? && s.file.phase.Submitted? && s'.procs[p].pc.reply == Record(s.file.phase.job, true))
  {
    ClaimInvRun(Init(n), es, p);
    ReachableInv(n, es);
    LastStep(Run(Init(n), es), p, o);
  }

  // Process 1 reads PREPARED; process 2 submits from beginning to end; then process 1 makes
  // its claim, reads SUBMITTED, answers the job of process 2, and the lock stays for ever.
  function EarlyReturn(n: nat): seq<Event> {
    PrepareScript(0, 7, n, Works) + [StartSubmit(1, 7), Go(1, Works)] + SubmitScript(2, 7, Accepts(100))
    + [Go(1, Works), Go(1, Works)]
  }

  lemma TwoEvents(s: State, a: Event, b: Event)
    ensures Run(s, [a, b]) == Apply(Apply(s, a), b)
  {
    assert [a, b][1..] == [b] && [b][1..] == [];
    assert Run(s, [a, b]) == Run(Apply(s, a), [b]);
    assert Run(Apply(s, a), [b]) == Run(Apply(Apply(s, a), b), []);
  }

  lemma RunFour(s: State, a: seq<Event>, b: seq<Event>, c: seq<Event>, d: seq<Event>)
    ensures Run(s, a + b + c + d) == Run(Run(Run(Run(s, a), b), c), d)
  {
    RunConcat(s, a + b + c, d);
    RunConcat(s, a + b, c);
    RunConcat(s, a, b);
  }

  lemma EarlyReturnIsAllowed(n: nat)
    ensures AllAllowed(TRUTHFUL, EarlyReturn(n))
  {
    var a, b, c := PrepareScript(0, 7, n, Works), [StartSubmit(1, 7), Go(1, Works)], SubmitScript(2, 7, Accepts(100));
    ScriptsAllowed(TRUTHFUL, 0, 7, n, Works);
    ScriptsAllowed(TRUTHFUL, 2, 7, n, Accepts(100));
    AllowedConcat(TRUTHFUL, a, b);
    AllowedConcat(TRUTHFUL, a + b, c);
    AllowedConcat(TRUTHFUL, a + b + c, [Go(1, Works), Go(1, Works)]);
  }

  // What happens once the attempt is prepared and free.
  lemma OvertakenSubmit(s: State)
    requires s.file == Holds(7, Prepared) && s.lock.None? && s.jobs == [] && 1 !in s.procs && 2 !in s.procs
    ensures var s' := Run(Run(Run(s, [StartSubmit(1, 7), Go(1, Works)]), SubmitScript(2, 7, Accepts(100))), [Go(1, Works), Go(1, Works)]);
      && 1 in s'.procs && s'.procs[1].pc == Finished(Record(100, true)) && s'.lock == Some(1)
      && |s'.jobs| == 1 && s'.jobs[0].id == 100
  {
    ReadsPrepared(s);
    var s1 := Run(s, [StartSubmit(1, 7), Go(1, Works)]);
    SubmitWorks(s1, 2, 7, Accepts(100));
    ClaimsTooLate(Run(s1, SubmitScript(2, 7, Accepts(100))));
  }

  lemma ReadsPrepared(s: State)
    requires s.file == Holds(7, Prepared) && 1 !in s.procs
    ensures Run(s, [StartSubmit(1, 7), Go(1, Works)]) == s.(procs := s.procs[1 := Process(7, SubmitClaim)])
  {
    TwoEvents(s, StartSubmit(1, 7), Go(1, Works));
  }

  lemma ClaimsTooLate(s: State)
    requires s.file == Holds(7, Submitted(100)) && s.lock.None? && 1 in s.procs && s.procs[1] == Process(7, SubmitClaim)
    ensures Run(s, [Go(1, Works), Go(1, Works)])
         == s.(lock := Some(1), procs := s.procs[1 := Process(7, Finished(Record(100, true)))])
  {
    TwoEvents(s, Go(1, Works), Go(1, Works));
    assert Apply(s, Go(1, Works)) == s.(lock := Some(1), procs := s.procs[1 := Process(7, SubmitReread)]);
  }

  lemma EarlyReturnKeepsTheClaim(n: nat)
    ensures AllAllowed(TRUTHFUL, EarlyReturn(n))
    ensures var s := Run(Init(n), EarlyReturn(n));
      && 1 in s.procs && s.procs[1].pc == Finished(Record(100, true)) && s.lock == Some(1)
      && |s.jobs| == 1 && s.jobs[0].id == 100
  {
    EarlyReturnIsAllowed(n);
    var a, b, c, d := PrepareScript(0, 7, n, Works), [StartSubmit(1, 7), Go(1, Works)],
      SubmitScript(2, 7, Accepts(100)), [Go(1, Works), Go(1, Works)];
    RunFour(Init(n), a, b, c, d);
    PrepareWorks(Init(n), 0, 7, Works);
    OvertakenSubmit(Run(Init(n), a));
  }
}
