/**
 The local stage runner (backend/execution.py:201-320): it executes the jobs of a
 flow in order, skips children of jobs that failed or stopped their children, and
 descends into the flows that a job returns.
 */
module LocalRunner {

  type Uuid = nat

  // What running the job does is data here: it raises, or returns a response
  // that may carry further flows to run on the spot.
  datatype Outcome =
    | Raises
    | Returns(stopChildren: bool, stopJobflow: bool, replace: Nested, detour: Nested, addition: Nested)

  datatype Nested = NoFlow | Runs(flow: Flow)

  // `strict`: the job is not run when a reference to a parent is missing.
  datatype Job = Job(uuid: Uuid, parents: set<Uuid>, strict: bool, outcome: Outcome)

  datatype Flow = Done | Then(job: Job, rest: Flow)

  // One line of the run's history: a job that was reached, and whether it ran.
  datatype Visit = Visit(job: Job, ran: bool)

  datatype State = State(stopped: set<Uuid>, errored: set<Uuid>, halted: bool, log: seq<Visit>)

  const START := State({}, {}, false, [])

  // --------------------------------------------------------- the meaning

  // `ok`: the job produced a response; `halt`: the whole run is over.
  datatype JobEnd = JobEnd(state: State, ok: bool, halt: bool)

  datatype FlowEnd = FlowEnd(state: State, ok: bool)

  function Logged(s: State, job: Job, ran: bool): State {
    s.(log := s.log + [Visit(job, ran)])
  }

  function RunNested(s: State, n: Nested): FlowEnd
    decreases n, 1
  {
    match n
    case NoFlow => FlowEnd(s, true)
    case Runs(flow) => RunFlow(s, flow)
  }

  function RunJob(s: State, job: Job): JobEnd
    decreases job, 1
  {
    if s.halted then JobEnd(Logged(s, job, false), false, true)
    else if job.parents * s.stopped != {} then
      JobEnd(Logged(s.(stopped := s.stopped + {job.uuid}), job, false), false, false)
    else if job.parents * s.errored != {} && job.strict then
      JobEnd(Logged(s.(errored := s.errored + {job.uuid}), job, false), false, false)
    else
      var s1 := Logged(s, job, true);
      match job.outcome
      case Raises => JobEnd(s1.(errored := s1.errored + {job.uuid}), false, false)
      case Returns(stopChildren, stopJobflow, replace, detour, addition) =>
        var s2 := if stopChildren then s1.(stopped := s1.stopped + {job.uuid}) else s1;
        if stopJobflow then JobEnd(s2.(halted := true), false, true)
        else
          var a := RunNested(s2, replace);
          var b := RunNested(a.state, detour);
          var c := RunNested(b.state, addition);
          JobEnd(c.state, a.ok && b.ok && c.ok, false)
  }

  function RunFlow(s: State, flow: Flow): FlowEnd
    decreases flow, 0
  {
    match flow
    case Done => FlowEnd(s, true)
    case Then(job, rest) =>
      var j := RunJob(s, job);
      if j.halt then FlowEnd(j.state, false)
      else
        var r := RunFlow(j.state, rest);
        FlowEnd(r.state, j.ok && r.ok)
  }

  // ------------------------------------------------------ the runner itself

  // The variables that the nested functions of the source share.
  class Runner {
    var stoppedParents: set<Uuid>
    var errored: set<Uuid>
    var stopJobflow: bool
    var log: seq<Visit>

    function Now(): State
      reads this
    {
      State(stoppedParents, errored, stopJobflow, log)
    }

    constructor ()
      ensures Now() == START
    {
      stoppedParents, errored, stopJobflow, log := {}, {}, false, [];
    }

    method Diversion(n: Nested) returns (ok: bool)
      modifies this
      ensures FlowEnd(Now(), ok) == RunNested(old(Now()), n)
      decreases n, 1
    {
      ok := true;
      if n.Runs? { ok := Execute(n.flow); }
    }

    method ExecuteJob(job: Job) returns (ok: bool, halt: bool)
      modifies this
      ensures JobEnd(Now(), ok, halt) == RunJob(old(Now()), job)
      decreases job, 1
    {
      if stopJobflow {
        log := log + [Visit(job, false)];
        return false, true;
      }
      if job.parents * stoppedParents != {} {
        stoppedParents := stoppedParents + {job.uuid};
        log := log + [Visit(job, false)];
        return false, false;
      }
      if job.parents * errored != {} && job.strict {
        errored := errored + {job.uuid};
        log := log + [Visit(job, false)];
        return false, false;
      }
      log := log + [Visit(job, true)];
      if job.outcome.Raises? {
        errored := errored + {job.uuid};
        return false, false;
      }
      if job.outcome.stopChildren { stoppedParents := stoppedParents + {job.uuid}; }
      if job.outcome.stopJobflow {
        stopJobflow := true;
        return false, true;
      }
      var replaced := Diversion(job.outcome.replace);
      var detoured := Diversion(job.outcome.detour);
      var added := Diversion(job.outcome.addition);
      return replaced && detoured && added, false;
    }

    method Execute(flow: Flow) returns (ok: bool)
      modifies this
      ensures FlowEnd(Now(), ok) == RunFlow(old(Now()), flow)
      decreases flow, 0
    {
      var bad, left := false, flow;
      while left.Then?
        invariant left == flow || left < flow
        invariant RunFlow(old(Now()), flow)
               == FlowEnd(RunFlow(Now(), left).state, !bad && RunFlow(Now(), left).ok)
        decreases left
      {
        var done, halt := ExecuteJob(left.job);
        bad := bad || !done;
        if halt { return false; }
        left := left.rest;
      }
      ok := !bad;
    }
  }

  // ------------------------------------------------------------ whole runs

  function NestedJobs(n: Nested): seq<Job>
    decreases n, 1
  {
    match n
    case NoFlow => []
    case Runs(flow) => AllJobs(flow)
  }

  // The job and the jobs of the flows it returns, in the order they would run.
  function WithNested(job: Job): seq<Job>
    decreases job, 1
  {
    [job] + match job.outcome
            case Raises => []
            case Returns(_, _, replace, detour, addition) =>
              NestedJobs(replace) + NestedJobs(detour) + NestedJobs(addition)
  }

  // Every job of the flow and of all flows nested in it.
  function AllJobs(flow: Flow): seq<Job>
    decreases flow, 0
  {
    match flow
    case Done => []
    case Then(job, rest) => WithNested(job) + AllJobs(rest)
  }

  predicate Fine(job: Job) {
    job.outcome.Returns? && !job.outcome.stopJobflow
  }

  predicate AllFine(jobs: seq<Job>) {
    forall i :: 0 <= i < |jobs| ==> Fine(jobs[i])
  }
}
