/** What a finished run of the local stage runner tells about its jobs. */
module RunnerTheorems {
  import opened Wrappers
  import opened LocalRunner

  function Ran(jobs: seq<Job>): seq<Visit> {
    seq(|jobs|, i requires 0 <= i < |jobs| => Visit(jobs[i], true))
  }

  lemma RanConcat(a: seq<Job>, b: seq<Job>)
    ensures Ran(a + b) == Ran(a) + Ran(b)
  {
  }

  // ---------------------------------------------------- success, by the log

  // The log between two states covers exactly these jobs, all of them run.
  predicate Covers(before: State, after: State, jobs: seq<Job>) {
    after.log == before.log + Ran(jobs)
  }

  // The log only grows, and by no more than the given jobs.
  predicate Grows(before: State, after: State, jobs: seq<Job>) {
    before.log <= after.log && |after.log| <= |before.log| + |jobs|
  }

  lemma GrowsConcat(s: State, m: State, e: State, a: seq<Job>, b: seq<Job>)
    requires Grows(s, m, a) && Grows(m, e, b)
    ensures Grows(s, e, a + b)
    ensures Covers(s, e, a + b) <==> Covers(s, m, a) && Covers(m, e, b)
  {
    RanConcat(a, b);
    if Covers(s, e, a + b) {
      assert m.log == e.log[..|m.log|];
      assert |m.log| == |s.log| + |a|;
      assert m.log == (s.log + Ran(a) + Ran(b))[..|s.log| + |a|];
    }
  }

  lemma {:induction false} NestedSucceeds(s: State, n: Nested)
    ensures var e := RunNested(s, n);
      && Grows(s, e.state, NestedJobs(n))
      && (e.ok <==> Covers(s, e.state, NestedJobs(n)) && AllFine(NestedJobs(n)))
    decreases n, 1
  {
    if n.Runs? { FlowSucceeds(s, n.flow); }
  }

  lemma {:induction false} JobSucceeds(s: State, job: Job)
    ensures var e := RunJob(s, job);
      && Grows(s, e.state, WithNested(job))
      && (e.ok <==> Covers(s, e.state, WithNested(job)) && AllFine(WithNested(job)))
    decreases job, 1
  {
    var e := RunJob(s, job);
    assert WithNested(job)[0] == job && Ran(WithNested(job))[0] == Visit(job, true);
    if s.halted || job.parents * s.stopped != {} || (job.parents * s.errored != {} && job.strict) {
      assert e.state.log[|s.log|] == Visit(job, false);
    } else if Fine(job) {
      var o := job.outcome;
      var s1 := Logged(s, job, true);
      var s2 := if o.stopChildren then s1.(stopped := s1.stopped + {job.uuid}) else s1;
      var a := RunNested(s2, o.replace);
      var b := RunNested(a.state, o.detour);
      var ja, jb, jc := NestedJobs(o.replace), NestedJobs(o.detour), NestedJobs(o.addition);
      NestedSucceeds(s2, o.replace);
      NestedSucceeds(a.state, o.detour);
      NestedSucceeds(b.state, o.addition);
      GrowsConcat(s2, a.state, b.state, ja, jb);
      GrowsConcat(s2, b.state, e.state, ja + jb, jc);
      assert Covers(s, s2, [job]);
      GrowsConcat(s, s2, e.state, [job], ja + jb + jc);
      assert AllFine(WithNested(job)) <==> AllFine(ja) && AllFine(jb) && AllFine(jc) by {
        FineConcat(ja, jb);
        FineConcat(ja + jb, jc);
        FineConcat([job], ja + jb + jc);
      }
    } else {
      assert !AllFine(WithNested(job));
    }
  }

  lemma FineConcat(a: seq<Job>, b: seq<Job>)
    ensures AllFine(a + b) <==> AllFine(a) && AllFine(b)
  {
    if AllFine(a + b) {
      assert forall i :: 0 <= i < |a| ==> (a + b)[i] == a[i];
      assert forall i :: 0 <= i < |b| ==> (a + b)[|a| + i] == b[i];
    }
  }

  // A flow is reported successful exactly when every job of the flow, and of all
  // flows nested in it, ran, in order, without raising or stopping the jobflow.
  lemma {:induction false} FlowSucceeds(s: State, flow: Flow)
    ensures var e := RunFlow(s, flow);
      && Grows(s, e.state, AllJobs(flow))
      && (e.ok <==> Covers(s, e.state, AllJobs(flow)) && AllFine(AllJobs(flow)))
    decreases flow, 0
  {
    if flow.Then? {
      var j := RunJob(s, flow.job);
      var e := RunFlow(s, flow);
      JobSucceeds(s, flow.job);
      FineConcat(WithNested(flow.job), AllJobs(flow.rest));
      if j.halt {
        HaltMeansNotOk(s, flow.job);
        GrowsConcat(s, j.state, j.state, WithNested(flow.job), []);
        HaltedCovers(s, flow);
      } else {
        FlowSucceeds(j.state, flow.rest);
        GrowsConcat(s, j.state, e.state, WithNested(flow.job), AllJobs(flow.rest));
      }
    }
  }

  lemma HaltMeansNotOk(s: State, job: Job)
    ensures RunJob(s, job).halt ==> !RunJob(s, job).ok && |RunJob(s, job).state.log| == |s.log| + 1
  {
  }

  lemma HaltedCovers(s: State, flow: Flow)
    requires flow.Then? && RunJob(s, flow.job).halt
    ensures !(Covers(s, RunFlow(s, flow).state, AllJobs(flow)) && AllFine(AllJobs(flow)))
  {
    var jobs := AllJobs(flow);
    assert jobs == WithNested(flow.job) + AllJobs(flow.rest);
    assert jobs[0] == flow.job && Ran(jobs)[0] == Visit(flow.job, true);
    assert !s.halted ==> !Fine(flow.job);
    assert s.halted ==> RunFlow(s, flow).state.log[|s.log|] == Visit(flow.job, false);
  }

  // ------------------------------------------------- success, by the flow alone

  function Stoppers(jobs: seq<Job>): set<Uuid> {
    set i | 0 <= i < |jobs| && jobs[i].outcome.Returns? && jobs[i].outcome.stopChildren :: jobs[i].uuid
  }

  // No job has a parent among the given ones or among the earlier stoppers.
  predicate Clear(stopped: set<Uuid>, jobs: seq<Job>) {
    forall k :: 0 <= k < |jobs| ==> jobs[k].parents * (stopped + Stoppers(jobs[..k])) == {}
  }

  lemma StoppersConcat(a: seq<Job>, b: seq<Job>)
    ensures Stoppers(a + b) == Stoppers(a) + Stoppers(b)
  {
    forall u | u in Stoppers(a) + Stoppers(b) ensures u in Stoppers(a + b) {
      if u in Stoppers(a) {
        var i :| 0 <= i < |a| && a[i].outcome.Returns? && a[i].outcome.stopChildren && a[i].uuid == u;
        assert (a + b)[i] == a[i];
      } else {
        var i :| 0 <= i < |b| && b[i].outcome.Returns? && b[i].outcome.stopChildren && b[i].uuid == u;
        assert (a + b)[|a| + i] == b[i];
      }
    }
  }

  lemma ClearConcat(stopped: set<Uuid>, a: seq<Job>, b: seq<Job>)
    ensures Clear(stopped, a + b) <==> Clear(stopped, a) && Clear(stopped + Stoppers(a), b)
  {
    forall k | 0 <= k < |a| ensures (a + b)[..k] == a[..k] && (a + b)[k] == a[k] {}
    forall k | 0 <= k < |b|
      ensures stopped + Stoppers((a + b)[..|a| + k]) == stopped + Stoppers(a) + Stoppers(b[..k])
      ensures (a + b)[|a| + k] == b[k]
    {
      assert (a + b)[..|a| + k] == a + b[..k];
      StoppersConcat(a, b[..k]);
    }
    if Clear(stopped, a) && Clear(stopped + Stoppers(a), b) {
      forall k | 0 <= k < |a + b|
        ensures (a + b)[k].parents * (stopped + Stoppers((a + b)[..k])) == {}
      {
        if k >= |a| { assert b[k - |a|].parents * (stopped + Stoppers(a) + Stoppers(b[..k - |a|])) == {}; }
      }
    }
    if Clear(stopped, a + b) {
      forall k | 0 <= k < |b| ensures b[k].parents * (stopped + Stoppers(a) + Stoppers(b[..k])) == {} {
        assert (a + b)[|a| + k].parents * (stopped + Stoppers((a + b)[..|a| + k])) == {};
      }
      forall k | 0 <= k < |a| ensures a[k].parents * (stopped + Stoppers(a[..k])) == {} {
        assert (a + b)[k].parents * (stopped + Stoppers((a + b)[..k])) == {};
      }
    }
  }

  // A run that starts with no failure and is going to succeed leaves none, and
  // has collected exactly the stoppers among its jobs.
  predicate Collected(before: State, after: State, jobs: seq<Job>) {
    after.stopped == before.stopped + Stoppers(jobs) && after.errored == {} && !after.halted
  }

  predicate Unspoiled(stopped: set<Uuid>, jobs: seq<Job>) {
    AllFine(jobs) && Clear(stopped, jobs)
  }

  lemma UnspoiledConcat(stopped: set<Uuid>, a: seq<Job>, b: seq<Job>)
    ensures Unspoiled(stopped, a + b) <==> Unspoiled(stopped, a) && Unspoiled(stopped + Stoppers(a), b)
    ensures Stoppers(a + b) == Stoppers(a) + Stoppers(b)
  {
    FineConcat(a, b);
    ClearConcat(stopped, a, b);
    StoppersConcat(a, b);
  }

  lemma {:induction false} NestedUnspoiled(s: State, n: Nested)
    requires s.errored == {} && !s.halted
    ensures var e := RunNested(s, n);
      && (e.ok <==> Unspoiled(s.stopped, NestedJobs(n)))
      && (e.ok ==> Collected(s, e.state, NestedJobs(n)))
    decreases n, 1
  {
    if n.Runs? { FlowUnspoiled(s, n.flow); }
  }

  // The three nested flows of a job, run one after another.
  lemma {:induction false} DiversionsUnspoiled(s: State, o: Outcome)
    requires s.errored == {} && !s.halted && o.Returns?
    ensures var jobs := NestedJobs(o.replace) + NestedJobs(o.detour) + NestedJobs(o.addition);
      var a := RunNested(s, o.replace); var b := RunNested(a.state, o.detour);
      var c := RunNested(b.state, o.addition);
      && (a.ok && b.ok && c.ok <==> Unspoiled(s.stopped, jobs))
      && (a.ok && b.ok && c.ok ==> Collected(s, c.state, jobs))
    decreases o, 2
  {
    var ja, jb, jc := NestedJobs(o.replace), NestedJobs(o.detour), NestedJobs(o.addition);
    var a := RunNested(s, o.replace);
    var b := RunNested(a.state, o.detour);
    NestedUnspoiled(s, o.replace);
    UnspoiledConcat(s.stopped, ja, jb);
    UnspoiledConcat(s.stopped, ja + jb, jc);
    if a.ok {
      NestedUnspoiled(a.state, o.detour);
      if b.ok { NestedUnspoiled(b.state, o.addition); }
    }
  }

  lemma OneJob(stopped: set<Uuid>, job: Job)
    ensures Unspoiled(stopped, [job]) <==> Fine(job) && job.parents * stopped == {}
    ensures Stoppers([job]) == if job.outcome.Returns? && job.outcome.stopChildren then {job.uuid} else {}
  {
    assert [job][..0] == [] && Stoppers([]) == {};
    assert [job][0] == job;
    if Fine(job) && job.parents * stopped == {} {
      forall k | 0 <= k < |[job]| ensures [job][k].parents * (stopped + Stoppers([job][..k])) == {} {}
    }
    if Unspoiled(stopped, [job]) {
      assert [job][0].parents * (stopped + Stoppers([job][..0])) == {};
    }
  }

  lemma {:induction false} JobUnspoiled(s: State, job: Job)
    requires s.errored == {} && !s.halted
    ensures var e := RunJob(s, job);
      && (e.ok <==> Unspoiled(s.stopped, WithNested(job)))
      && (e.ok ==> Collected(s, e.state, WithNested(job)))
    decreases job, 1
  {
    OneJob(s.stopped, job);
    if job.outcome.Returns? {
      var o := job.outcome;
      var nested := NestedJobs(o.replace) + NestedJobs(o.detour) + NestedJobs(o.addition);
      UnspoiledConcat(s.stopped, [job], nested);
      assert WithNested(job) == [job] + nested;
      if Fine(job) && job.parents * s.stopped == {} {
        var s1 := Logged(s, job, true);
        var s2 := if o.stopChildren then s1.(stopped := s1.stopped + {job.uuid}) else s1;
        assert s2.stopped == s.stopped + Stoppers([job]);
        DiversionsUnspoiled(s2, o);
      }
    } else {
      assert WithNested(job) == [job];
    }
  }

  lemma {:induction false} FlowUnspoiled(s: State, flow: Flow)
    requires s.errored == {} && !s.halted
    ensures var e := RunFlow(s, flow);
      && (e.ok <==> Unspoiled(s.stopped, AllJobs(flow)))
      && (e.ok ==> Collected(s, e.state, AllJobs(flow)))
    decreases flow, 0
  {
    if flow.Then? {
      var j := RunJob(s, flow.job);
      JobUnspoiled(s, flow.job);
      UnspoiledConcat(s.stopped, WithNested(flow.job), AllJobs(flow.rest));
      if j.ok { FlowUnspoiled(j.state, flow.rest); }
    }
  }

  // Success can be read off the flow without running it: no job anywhere in it
  // raises or stops the jobflow, and no job comes after a stopper of its children.
  lemma SuccessExactly(flow: Flow)
    ensures var e := RunFlow(START, flow); var jobs := AllJobs(flow);
      && (e.ok <==> e.state.log == Ran(jobs) && AllFine(jobs))
      && (e.ok <==> AllFine(jobs) && Clear({}, jobs))
  {
    FlowSucceeds(START, flow);
    FlowUnspoiled(START, flow);
    assert START.log + Ran(AllJobs(flow)) == Ran(AllJobs(flow));
  }

  // ----------------------------------------------------------- what is visited

  // A visit after which nothing more is run.
  predicate Halts(v: Visit) { v.ran && v.job.outcome.Returns? && v.job.outcome.stopJobflow }

  // What is left of a log after some visits, and whether the run is over by then.
  datatype Rest = Rest(log: seq<Visit>, over: bool)

  // Takes from the front of a log the visits of a flow: one of every job, in order, each that
  // ran and returned followed by those of the flows it returned; up to and with the job that
  // stops the jobflow, or the next one if it has been stopped before. None if the log begins
  // otherwise.
  function Visits(flow: Flow, log: seq<Visit>, over: bool): Option<Rest>
    decreases flow, 0
  {
    match flow
    case Done => Some(Rest(log, over))
    case Then(job, rest) =>
      if log == [] || log[0].job != job then None
      else if over || Halts(log[0]) then Some(Rest(log[1..], true))
      else
        var left := if log[0].ran then VisitsReturned(job.outcome, log[1..]) else Some(Rest(log[1..], false));
        if left.None? then None else Visits(rest, left.value.log, left.value.over)
  }

  function VisitsReturned(o: Outcome, log: seq<Visit>): Option<Rest>
    decreases o, 2
  {
    match o
    case Raises => Some(Rest(log, false))
    case Returns(_, _, replace, detour, addition) =>
      var a := VisitsNested(replace, log, false);
      var b := if a.None? then None else VisitsNested(detour, a.value.log, a.value.over);
      if b.None? then None else VisitsNested(addition, b.value.log, b.value.over)
  }

  function VisitsNested(n: Nested, log: seq<Visit>, over: bool): Option<Rest>
    decreases n, 1
  {
    match n
    case NoFlow => Some(Rest(log, over))
    case Runs(flow) => Visits(flow, log, over)
  }

  lemma {:induction false} NestedVisits(s: State, n: Nested) returns (added: seq<Visit>)
    ensures var e := RunNested(s, n).state;
      && e.log == s.log + added
      && forall rest :: VisitsNested(n, added + rest, s.halted) == Some(Rest(rest, e.halted))
    decreases n, 1
  {
    if n.Runs? {
      added := FlowVisits(s, n.flow);
    } else {
      added := [];
      assert s.log + [] == s.log;
      forall rest ensures VisitsNested(n, added + rest, s.halted) == Some(Rest(rest, s.halted)) { assert [] + rest == rest; }
    }
  }

  // The three nested flows of a job, run one after another.
  lemma {:induction false} ReturnedVisits(s: State, o: Outcome) returns (added: seq<Visit>)
    requires o.Returns? && !s.halted
    ensures var a := RunNested(s, o.replace); var b := RunNested(a.state, o.detour);
      var e := RunNested(b.state, o.addition).state;
      && e.log == s.log + added
      && forall rest :: VisitsReturned(o, added + rest) == Some(Rest(rest, e.halted))
    decreases o, 2
  {
    var a := RunNested(s, o.replace).state;
    var b := RunNested(a, o.detour).state;
    var na := NestedVisits(s, o.replace);
    var nb := NestedVisits(a, o.detour);
    var nc := NestedVisits(b, o.addition);
    added := na + nb + nc;
    Regrouped(s.log, na, nb);
    Regrouped(s.log, na + nb, nc);
    forall rest ensures VisitsReturned(o, added + rest) == Some(Rest(rest, RunNested(b, o.addition).state.halted)) {
      assert added + rest == na + (nb + (nc + rest));
    }
  }

  // One job: its own visit first, and then those of the flows it returned.
  ghost predicate VisitsJob(job: Job, added: seq<Visit>, over: bool, after: bool) {
    && added != [] && added[0].job == job
    && if over || Halts(added[0]) then added == [added[0]] && after
       else if added[0].ran then forall rest :: VisitsReturned(job.outcome, added[1..] + rest) == Some(Rest(rest, after))
       else added == [added[0]] && !after
  }

  lemma {:induction false} JobVisits(s: State, job: Job) returns (added: seq<Visit>)
    ensures var e := RunJob(s, job);
      && e.state.log == s.log + added && VisitsJob(job, added, s.halted, e.state.halted)
      && (e.halt <==> s.halted || Halts(added[0]))
    decreases job, 1
  {
    var e := RunJob(s, job);
    var ran := !s.halted && job.parents * s.stopped == {} && !(job.parents * s.errored != {} && job.strict);
    var first := [Visit(job, ran)];
    if ran && Fine(job) {
      var o := job.outcome;
      var s1 := Logged(s, job, true);
      var s2 := if o.stopChildren then s1.(stopped := s1.stopped + {job.uuid}) else s1;
      var nested := ReturnedVisits(s2, o);
      added := first + nested;
      Regrouped(s.log, first, nested);
      assert added[1..] == nested;
    } else {
      added := first;
      if ran && !e.state.halted {
        forall rest ensures VisitsReturned(job.outcome, added[1..] + rest) == Some(Rest(rest, false)) { assert added[1..] + rest == rest; }
      }
    }
  }

  lemma {:induction false} FlowVisits(s: State, flow: Flow) returns (added: seq<Visit>)
    ensures var e := RunFlow(s, flow).state;
      && e.log == s.log + added
      && forall rest :: Visits(flow, added + rest, s.halted) == Some(Rest(rest, e.halted))
    decreases flow, 0
  {
    var e := RunFlow(s, flow).state;
    if flow.Done? {
      added := [];
      assert s.log + [] == s.log;
      forall rest ensures Visits(flow, added + rest, s.halted) == Some(Rest(rest, e.halted)) { assert [] + rest == rest; }
    } else {
      var j := RunJob(s, flow.job);
      var one := JobVisits(s, flow.job);
      if j.halt {
        added := one;
        forall rest ensures Visits(flow, added + rest, s.halted) == Some(Rest(rest, true)) { assert ([one[0]] + rest)[1..] == rest; }
      } else {
        var others := FlowVisits(j.state, flow.rest);
        added := one + others;
        Regrouped(s.log, one, others);
        forall rest ensures Visits(flow, added + rest, s.halted) == Some(Rest(rest, e.halted)) {
          OneThenOthers(flow, one, others, rest, j.state.halted, e.halted);
        }
      }
    }
  }

  lemma OneThenOthers(flow: Flow, one: seq<Visit>, others: seq<Visit>, rest: seq<Visit>, over: bool, after: bool)
    requires flow.Then? && VisitsJob(flow.job, one, false, over) && !Halts(one[0])
    requires forall r :: Visits(flow.rest, others + r, over) == Some(Rest(r, after))
    ensures Visits(flow, one + others + rest, false) == Some(Rest(rest, after))
  {
    FirstVisit(one, others, rest);
  }

  lemma FirstVisit(one: seq<Visit>, others: seq<Visit>, rest: seq<Visit>)
    requires one != []
    ensures var log := one + others + rest;
      && log != [] && log[0] == one[0] && log[1..] == one[1..] + (others + rest)
      && (one == [one[0]] ==> log[1..] == others + rest)
  {
    Regrouped(one, others, rest);
  }

  // Whatever fails, every job of the flow is visited once, in order, and after each job that
  // ran and returned every job of the flows it returned, until one stops the jobflow: after
  // that each flow that is still going on visits one more job, which is not run.
  lemma EveryJobIsVisited(flow: Flow)
    ensures var e := RunFlow(START, flow).state; Visits(flow, e.log, false) == Some(Rest([], e.halted))
  {
    var added := FlowVisits(START, flow);
    assert START.log + added == added && added + [] == added;
  }

  // ------------------------------------------------------------- what is run

  predicate StopsChildren(v: Visit) { v.ran && v.job.outcome.Returns? && v.job.outcome.stopChildren }

  predicate Fails(v: Visit) { v.ran && v.job.outcome.Raises? }

  // The visit stopped its children, or came after an earlier one that cuts it off.
  ghost predicate Cut(log: seq<Visit>, i: nat)
    requires i < |log|
    decreases i, 1
  {
    StopsChildren(log[i]) || CutOff(log, i)
  }

  ghost predicate CutOff(log: seq<Visit>, i: nat)
    requires i < |log|
    decreases i, 0
  {
    exists j: nat :: j < i && Cut(log, j) && log[j].job.uuid in log[i].job.parents
  }

  // The visit failed, or was skipped for a reference that an earlier failure left missing.
  ghost predicate Broken(log: seq<Visit>, i: nat)
    requires i < |log|
    decreases i, 1
  {
    Fails(log[i]) || (log[i].job.strict && !CutOff(log, i) && Lost(log, i))
  }

  ghost predicate Lost(log: seq<Visit>, i: nat)
    requires i < |log|
    decreases i, 0
  {
    exists j: nat :: j < i && Broken(log, j) && log[j].job.uuid in log[i].job.parents
  }

  ghost predicate Over(log: seq<Visit>, i: nat)
    requires i <= |log|
  {
    exists j: nat :: j < i && Halts(log[j])
  }

  // Unless the run is over, what the state collects is what the log tells.
  ghost predicate Told(s: State) {
    && (s.halted <==> Over(s.log, |s.log|))
    && (!s.halted ==> forall u :: u in s.stopped <==> exists i: nat :: i < |s.log| && Cut(s.log, i) && s.log[i].job.uuid == u)
    && (!s.halted ==> forall u :: u in s.errored <==> exists i: nat :: i < |s.log| && Broken(s.log, i) && s.log[i].job.uuid == u)
    && forall i: nat :: i < |s.log| ==> RunsAsTold(s.log, i)
  }

  ghost predicate RunsAsTold(log: seq<Visit>, i: nat)
    requires i < |log|
  {
    log[i].ran <==> !Over(log, i) && !CutOff(log, i) && !(log[i].job.strict && Lost(log, i))
  }

  lemma {:induction false} CutKept(log: seq<Visit>, v: Visit, i: nat)
    requires i < |log|
    ensures Cut(log + [v], i) == Cut(log, i) && CutOff(log + [v], i) == CutOff(log, i)
    decreases i
  {
    var longer := log + [v];
    forall j: nat | j < i ensures Cut(longer, j) == Cut(log, j) && longer[j] == log[j] { CutKept(log, v, j); }
    assert longer[i] == log[i];
    if CutOff(log, i) {
      var j: nat :| j < i && Cut(log, j) && log[j].job.uuid in log[i].job.parents;
      assert Cut(longer, j) && longer[j].job.uuid in longer[i].job.parents;
    }
    if CutOff(longer, i) {
      var j: nat :| j < i && Cut(longer, j) && longer[j].job.uuid in longer[i].job.parents;
      assert Cut(log, j) && log[j].job.uuid in log[i].job.parents;
    }
  }

  lemma {:induction false} BrokenKept(log: seq<Visit>, v: Visit, i: nat)
    requires i < |log|
    ensures Broken(log + [v], i) == Broken(log, i) && Lost(log + [v], i) == Lost(log, i)
    decreases i
  {
    var longer := log + [v];
    CutKept(log, v, i);
    forall j: nat | j < i ensures Broken(longer, j) == Broken(log, j) && longer[j] == log[j] { BrokenKept(log, v, j); }
    assert longer[i] == log[i];
    if Lost(log, i) {
      var j: nat :| j < i && Broken(log, j) && log[j].job.uuid in log[i].job.parents;
      assert Broken(longer, j) && longer[j].job.uuid in longer[i].job.parents;
    }
    if Lost(longer, i) {
      var j: nat :| j < i && Broken(longer, j) && longer[j].job.uuid in longer[i].job.parents;
      assert Broken(log, j) && log[j].job.uuid in log[i].job.parents;
    }
  }

  lemma OverKept(log: seq<Visit>, v: Visit, i: nat)
    requires i <= |log|
    ensures Over(log + [v], i) == Over(log, i)
    ensures Over(log + [v], |log| + 1) <==> Over(log, |log|) || Halts(v)
  {
    var longer := log + [v];
    assert forall j: nat :: j < |log| ==> longer[j] == log[j];
    assert longer[|log|] == v;
    if Over(log, i) { var j: nat :| j < i && Halts(log[j]); assert Halts(longer[j]); }
    if Over(log, |log|) { var j: nat :| j < |log| && Halts(log[j]); assert Halts(longer[j]); }
  }

  lemma EarlierKept(log: seq<Visit>, v: Visit, i: nat)
    requires i < |log|
    ensures var longer := log + [v];
      && longer[i] == log[i] && Cut(longer, i) == Cut(log, i) && Broken(longer, i) == Broken(log, i)
      && RunsAsTold(longer, i) == RunsAsTold(log, i)
  {
    CutKept(log, v, i);
    BrokenKept(log, v, i);
    OverKept(log, v, i);
  }

  // Whether the next visit is cut off, or has lost a parent, can be told from the state.
  lemma NextIsTold(s: State, v: Visit)
    requires Told(s) && !s.halted
    ensures var log := s.log + [v]; var n := |s.log|;
      && (CutOff(log, n) <==> v.job.parents * s.stopped != {})
      && (Lost(log, n) <==> v.job.parents * s.errored != {})
  {
    var log, n := s.log + [v], |s.log|;
    forall i: nat | i < n ensures log[i] == s.log[i] && Cut(log, i) == Cut(s.log, i) && Broken(log, i) == Broken(s.log, i) {
      EarlierKept(s.log, v, i);
    }
    if u :| u in v.job.parents * s.stopped {
      var i: nat :| i < n && Cut(s.log, i) && s.log[i].job.uuid == u;
      assert Cut(log, i) && log[i].job.uuid in log[n].job.parents;
    }
    if u :| u in v.job.parents * s.errored {
      var i: nat :| i < n && Broken(s.log, i) && s.log[i].job.uuid == u;
      assert Broken(log, i) && log[i].job.uuid in log[n].job.parents;
    }
    if CutOff(log, n) {
      var j: nat :| j < n && Cut(log, j) && log[j].job.uuid in log[n].job.parents;
      assert Cut(s.log, j) && s.log[j].job.uuid in v.job.parents * s.stopped;
    }
    if Lost(log, n) {
      var j: nat :| j < n && Broken(log, j) && log[j].job.uuid in log[n].job.parents;
      assert Broken(s.log, j) && s.log[j].job.uuid in v.job.parents * s.errored;
    }
  }

  // What one visit must do to the state.
  predicate Visited(s: State, s': State, v: Visit) {
    var cut, lost := v.job.parents * s.stopped != {}, v.job.parents * s.errored != {};
    && s'.log == s.log + [v] && (s'.halted <==> s.halted || Halts(v))
    && (v.ran <==> !s.halted && !cut && !(v.job.strict && lost))
    && (!s'.halted ==>
          && s'.stopped == s.stopped + (if StopsChildren(v) || cut then {v.job.uuid} else {})
          && s'.errored == s.errored + (if Fails(v) || (v.job.strict && !cut && lost) then {v.job.uuid} else {}))
  }

  lemma ToldVisit(s: State, s': State, v: Visit)
    requires Told(s) && Visited(s, s', v)
    ensures Told(s')
  {
    var n := |s.log|;
    OverKept(s.log, v, n);
    forall i: nat | i < n + 1 ensures RunsAsTold(s'.log, i) {
      if i < n { EarlierKept(s.log, v, i); } else if !s.halted { NextIsTold(s, v); }
    }
    if !s'.halted {
      NextIsTold(s, v);
      forall i: nat | i < n ensures s'.log[i] == s.log[i] && Cut(s'.log, i) == Cut(s.log, i) && Broken(s'.log, i) == Broken(s.log, i) {
        EarlierKept(s.log, v, i);
      }
      forall u ensures u in s'.stopped <==> exists i: nat :: i < n + 1 && Cut(s'.log, i) && s'.log[i].job.uuid == u {
        StoppedTold(s, s', v, u);
      }
      forall u ensures u in s'.errored <==> exists i: nat :: i < n + 1 && Broken(s'.log, i) && s'.log[i].job.uuid == u {
        ErroredTold(s, s', v, u);
      }
    }
  }

  lemma StoppedTold(s: State, s': State, v: Visit, u: Uuid)
    requires Told(s) && Visited(s, s', v) && !s'.halted
    ensures u in s'.stopped <==> exists i: nat :: i < |s'.log| && Cut(s'.log, i) && s'.log[i].job.uuid == u
  {
    var n := |s.log|;
    NextIsTold(s, v);
    forall i: nat | i < n ensures s'.log[i] == s.log[i] && Cut(s'.log, i) == Cut(s.log, i) { EarlierKept(s.log, v, i); }
    assert s'.log[n] == v && (Cut(s'.log, n) <==> StopsChildren(v) || v.job.parents * s.stopped != {});
    if u in s.stopped {
      var i: nat :| i < n && Cut(s.log, i) && s.log[i].job.uuid == u;
      assert Cut(s'.log, i) && s'.log[i].job.uuid == u;
    }
  }

  lemma ErroredTold(s: State, s': State, v: Visit, u: Uuid)
    requires Told(s) && Visited(s, s', v) && !s'.halted
    ensures u in s'.errored <==> exists i: nat :: i < |s'.log| && Broken(s'.log, i) && s'.log[i].job.uuid == u
  {
    var n := |s.log|;
    NextIsTold(s, v);
    forall i: nat | i < n ensures s'.log[i] == s.log[i] && Broken(s'.log, i) == Broken(s.log, i) { EarlierKept(s.log, v, i); }
    assert s'.log[n] == v;
    if u in s.errored {
      var i: nat :| i < n && Broken(s.log, i) && s.log[i].job.uuid == u;
      assert Broken(s'.log, i) && s'.log[i].job.uuid == u;
    }
  }

  lemma {:induction false} NestedTold(s: State, n: Nested)
    requires Told(s)
    ensures Told(RunNested(s, n).state)
    decreases n, 1
  {
    if n.Runs? { FlowTold(s, n.flow); }
  }

  lemma {:induction false} JobTold(s: State, job: Job)
    requires Told(s)
    ensures Told(RunJob(s, job).state)
    decreases job, 1
  {
    var ran := !s.halted && job.parents * s.stopped == {} && !(job.parents * s.errored != {} && job.strict);
    if ran && Fine(job) {
      var o := job.outcome;
      var s1 := Logged(s, job, true);
      var s2 := if o.stopChildren then s1.(stopped := s1.stopped + {job.uuid}) else s1;
      ToldVisit(s, s2, Visit(job, true));
      NestedTold(s2, o.replace);
      var a := RunNested(s2, o.replace);
      NestedTold(a.state, o.detour);
      NestedTold(RunNested(a.state, o.detour).state, o.addition);
    } else {
      ToldVisit(s, RunJob(s, job).state, Visit(job, ran));
    }
  }

  lemma {:induction false} FlowTold(s: State, flow: Flow)
    requires Told(s)
    ensures Told(RunFlow(s, flow).state)
    decreases flow, 0
  {
    if flow.Then? {
      JobTold(s, flow.job);
      if !RunJob(s, flow.job).halt { FlowTold(RunJob(s, flow.job).state, flow.rest); }
    }
  }

  // In every run, successful or not, a job that is visited runs exactly if no job that ran
  // before stopped the jobflow, no parent was visited before that stopped its children or
  // was cut off itself, and, if the job is strict, no parent that raised or was skipped for
  // such a reference.
  lemma RanExactly(flow: Flow, i: nat)
    requires i < |RunFlow(START, flow).state.log|
    ensures var log := RunFlow(START, flow).state.log;
      log[i].ran <==> !Over(log, i) && !CutOff(log, i) && !(log[i].job.strict && Lost(log, i))
  {
    FlowTold(START, flow);
    assert RunsAsTold(RunFlow(START, flow).state.log, i);
  }

  // ------------------------------------------------------------- descendants

  // The visit ended without leaving anything for children to build on.
  predicate Spoiled(v: Visit) {
    !v.ran || v.job.outcome.Raises? || v.job.outcome.stopChildren
  }

  // A line of descent through the log, whether or not the jobs insist on their references.
  predicate DescendsAnyhow(log: seq<Visit>, line: seq<nat>) {
    && |line| > 0 && (forall k :: 0 <= k < |line| ==> line[k] < |log|)
    && forall k :: 0 < k < |line| ==> line[k - 1] < line[k] && log[line[k - 1]].job.uuid in log[line[k]].job.parents
  }

  // Each job a strict child of the one before.
  predicate Descends(log: seq<Visit>, line: seq<nat>) {
    DescendsAnyhow(log, line) && forall k :: 0 < k < |line| ==> log[line[k]].job.strict
  }

  lemma SpoiledParent(s: State, i: nat, k: nat)
    requires Told(s) && i < k < |s.log| && Spoiled(s.log[i])
    requires s.log[k].job.strict && s.log[i].job.uuid in s.log[k].job.parents
    ensures !s.log[k].ran
  {
    var log := s.log;
    assert RunsAsTold(log, i) && RunsAsTold(log, k);
    if Over(log, i) {
      var j: nat :| j < i && Halts(log[j]);
      assert Over(log, k);
    } else if Cut(log, i) {
      assert CutOff(log, k);
    } else {
      assert Broken(log, i);
      assert Lost(log, k);
    }
  }

  lemma {:induction false} DescendantsAreSkipped(s: State, line: seq<nat>)
    requires Told(s) && Descends(s.log, line) && Spoiled(s.log[line[0]]) && |line| > 1
    ensures !s.log[line[|line| - 1]].ran
    decreases |line|
  {
    var n := |line| - 1;
    if n > 1 {
      assert line[..n][n - 1] == line[n - 1];
      DescendantsAreSkipped(s, line[..n]);
    }
    SpoiledParent(s, line[n - 1], line[n]);
  }

  // In every run, successful or not, no job with an ancestor that raised, was
  // skipped or stopped its children is executed, provided the jobs in between
  // insist on their references.
  lemma NoRunAfterAFailedAncestor(flow: Flow, line: seq<nat>)
    requires Descends(RunFlow(START, flow).state.log, line) && |line| > 1
    requires Spoiled(RunFlow(START, flow).state.log[line[0]])
    ensures !RunFlow(START, flow).state.log[line[|line| - 1]].ran
  {
    FlowTold(START, flow);
    DescendantsAreSkipped(RunFlow(START, flow).state, line);
  }

  lemma {:induction false} DescendantsAreCut(log: seq<Visit>, line: seq<nat>)
    requires DescendsAnyhow(log, line) && StopsChildren(log[line[0]])
    ensures Cut(log, line[|line| - 1]) && (|line| > 1 ==> CutOff(log, line[|line| - 1]))
    decreases |line|
  {
    var n := |line| - 1;
    if n > 0 {
      DescendantsAreCut(log, line[..n]);
      assert line[..n][n - 1] == line[n - 1];
      assert Cut(log, line[n - 1]) && log[line[n - 1]].job.uuid in log[line[n]].job.parents;
    }
  }

  // In every run, no descendant of a job that stopped its children is executed, not even
  // one that would run without its references.
  lemma NoRunAfterStoppedChildren(flow: Flow, line: seq<nat>)
    requires DescendsAnyhow(RunFlow(START, flow).state.log, line) && |line| > 1
    requires StopsChildren(RunFlow(START, flow).state.log[line[0]])
    ensures !RunFlow(START, flow).state.log[line[|line| - 1]].ran
  {
    RanExactly(flow, line[|line| - 1]);
    DescendantsAreCut(RunFlow(START, flow).state.log, line);
  }
}
