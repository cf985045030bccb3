/**
 One Prepare or Submit request as the program it is
 (backend/paramiko_remote.py:989-1174, 1193-1398): a runner that works on the
 remote state file, lock, artifacts and queue step by step, while other requests
 act between any two of its operations.

 What happens around the runner is given in advance, turn by turn. Its state is
 at every moment that of one run of the machine of SubmissionProtocol: the events of
 its past, and then for each turn it has used the foreign events of the turn and its
 own operation with the ending the turn prescribes. So the results about runs hold
 for every execution, and an execution that skips, adds or swaps an operation is none.
 */
module RemoteRunner {
  import opened Wrappers
  import opened SubmissionProtocol
  import opened SubmissionSafety
  import opened SubmissionTheorems
  import opened SubmissionLapses

  // The events of other requests just before an operation, and the way in which it ends.
  datatype Turn = Turn(others: seq<Event>, outcome: Outcome)

  datatype Claimed = Made | Taken | NotTold

  datatype Answer = Queued(job: JobId) | Refused | NoAnswer

  // The events of the first turns; the last of them is the passing of the deadline when
  // the request has expired.
  function Script(turns: nat -> Turn, p: Pid, to: nat, expired: bool): seq<Event> {
    if to == 0 then []
    else
      Script(turns, p, to - 1, false)
      + (turns(to - 1).others + [Go(p, if expired then Expires else turns(to - 1).outcome)])
  }

  // One turn of process p, of which the operation ends as o. By ScriptGoesOn, this is how
  // the state of a Runner moves whenever `at` grows by one.
  function Turned(s: State, t: Turn, p: Pid, o: Outcome): State { Apply(Run(s, t.others), Go(p, o)) }

  lemma RunLast(s: State, es: seq<Event>, e: Event)
    ensures Run(s, es + [e]) == Apply(Run(s, es), e)
  {
    RunConcat(s, es, [e]);
    assert Run(Run(s, es), [e]) == Apply(Run(s, es), e);
  }

  lemma ScriptGoesOn(s: State, past: seq<Event>, turns: nat -> Turn, p: Pid, k: nat, expired: bool)
    ensures var o := if expired then Expires else turns(k).outcome;
      Run(s, past + Script(turns, p, k + 1, expired)) ==
      Turned(Run(s, past + Script(turns, p, k, false)), turns(k), p, o)
  {
    var o := if expired then Expires else turns(k).outcome;
    var before, here := past + Script(turns, p, k, false), turns(k).others + [Go(p, o)];
    RunConcat(s, before, here);
    RunLast(Run(s, before), turns(k).others, Go(p, o));
    Regrouped(past, Script(turns, p, k, false), here);
  }

  // Where a read of the state file leads.
  function AfterRead(pc: Pc, r: Reading, fp: Fingerprint): Pc {
    match pc
    case PrepareCheck => if Preparable(r, fp) then PrepareClaim else Finished(Raised)
    case PrepareRecheck => if Preparable(r, fp) then Upload(0) else Release(Raised)
    case Confirm => AfterConfirm(r, fp)
    case SubmitRead => AfterSubmitRead(r, fp)
    case SubmitReread => AfterSubmitReread(r, fp)
    case Wait => AfterPoll(r, fp)
    case _ => pc
  }

  predicate Reads(pc: Pc) {
    pc.PrepareCheck? || pc.PrepareRecheck? || pc.Confirm? || pc.SubmitRead? || pc.SubmitReread? || pc.Wait?
  }

  ghost function StatesOf(files: nat, past: seq<Event>, turns: nat -> Turn, p: Pid): nat -> State {
    (k: nat) => Run(Init(files), past + Script(turns, p, k, false))
  }

  ghost function BeforesOf(files: nat, past: seq<Event>, turns: nat -> Turn, p: Pid): nat -> State {
    (k: nat) => Run(Run(Init(files), past + Script(turns, p, k, false)), turns(k).others)
  }

  ghost function LapsedOf(befores: nat -> State, p: Pid): nat -> State { (k: nat) => Apply(befores(k), Go(p, Expires)) }

  ghost predicate IsTurn(k: nat) { true }

  // `states` and `befores` are those of the run of the machine that the turns make.
  ghost predicate IsCourse(files: nat, past: seq<Event>, turns: nat -> Turn, p: Pid,
                           states: nat -> State, befores: nat -> State, lapsed: nat -> State)
  {
    forall k: nat {:trigger IsTurn(k)} :: IsTurn(k) ==>
      && states(0) == Run(Init(files), past)
      && befores(k) == Run(states(k), turns(k).others)
      && states(k + 1) == Apply(befores(k), Go(p, turns(k).outcome))
      && lapsed(k) == Apply(befores(k), Go(p, Expires))
  }

  lemma CourseAt(files: nat, past: seq<Event>, turns: nat -> Turn, p: Pid, k: nat)
    ensures var states, befores := StatesOf(files, past, turns, p), BeforesOf(files, past, turns, p);
      && states(0) == Run(Init(files), past) && befores(k) == Run(states(k), turns(k).others)
      && states(k + 1) == Apply(befores(k), Go(p, turns(k).outcome))
      && LapsedOf(befores, p)(k) == Apply(befores(k), Go(p, Expires))
  {
    assert past + [] == past;
    ScriptGoesOn(Init(files), past, turns, p, k, false);
  }

  lemma CourseOf(files: nat, past: seq<Event>, turns: nat -> Turn, p: Pid)
    ensures var states, befores := StatesOf(files, past, turns, p), BeforesOf(files, past, turns, p);
      IsCourse(files, past, turns, p, states, befores, LapsedOf(befores, p))
  {
    var states, befores := StatesOf(files, past, turns, p), BeforesOf(files, past, turns, p);
    var lapsed := LapsedOf(befores, p);
    forall k: nat | IsTurn(k) ensures
      && states(0) == Run(Init(files), past) && befores(k) == Run(states(k), turns(k).others)
      && states(k + 1) == Apply(befores(k), Go(p, turns(k).outcome)) && lapsed(k) == Apply(befores(k), Go(p, Expires))
    {
      CourseAt(files, past, turns, p, k);
    }
  }

  lemma Opens(files: nat, history: seq<Event>, p: Pid, fp: Fingerprint, preparing: bool)
    requires p !in Run(Init(files), history).procs
    ensures var s := Run(Init(files), history);
      Run(Init(files), history + [if preparing then StartPrepare(p, fp) else StartSubmit(p, fp)])
        == s.(procs := s.procs[p := Process(fp, if preparing then PrepareCheck else SubmitRead)])
  {
    RunLast(Init(files), history, if preparing then StartPrepare(p, fp) else StartSubmit(p, fp));
  }

  predicate FindsJob(r: Reading, fp: Fingerprint) { r.Content? && r.fp == fp && r.phase.Submitted? }

  // A poll that leaves the request waiting.
  predicate Undecided(r: Reading, fp: Fingerprint) { r.Nothing? || (r.Content? && r.fp == fp && !r.phase.Submitted?) }

  function GoalFor(a: Answer): Goal {
    match a
    case Queued(j) => ToSubmitted(j)
    case Refused => BackToPrepared
    case NoAnswer => StillUncertain
  }

  class Runner {
    const p: Pid
    const fp: Fingerprint
    const turns: nat -> Turn
    ghost const files: nat
    ghost const past: seq<Event>
    ghost const states: nat -> State  // of the machine once k turns have been used
    ghost const befores: nat -> State // once the others have acted in turn k
    ghost const lapsed: nat -> State  // if the request then expires
    var at: nat
    ghost var expired: bool
    var file: StateFile
    var lock: Option<Pid>
    var artifacts: seq<Artifact>
    var jobs: seq<Job>
    var procs: map<Pid, Process>
    var bound: Option<Fingerprint>

    function Now(): State
      reads this
    {
      State(file, lock, artifacts, jobs, procs, bound)
    }

    // Everything that has happened, from the fresh attempt on.
    ghost function History(): seq<Event>
      reads this
    {
      past + Script(turns, p, at, expired)
    }

    ghost predicate Course() { IsCourse(files, past, turns, p, states, befores, lapsed) }

    lemma {:induction false} CourseIsRun(k: nat)
      requires Course()
      ensures states(k) == Run(Init(files), past + Script(turns, p, k, false))
      ensures lapsed(k) == Run(Init(files), past + Script(turns, p, k + 1, true))
    {
      assert IsTurn(k);
      if k == 0 {
        assert past + [] == past;
      } else {
        CourseIsRun(k - 1);
        assert IsTurn(k - 1);
        ScriptGoesOn(Init(files), past, turns, p, k - 1, false);
      }
      ScriptGoesOn(Init(files), past, turns, p, k, true);
    }

    // The state is at every moment that of the machine after what has happened.
    lemma NowIsTheMachines()
      requires Valid()
      ensures Now() == Run(Init(files), History())
    {
      if expired { CourseIsRun(at - 1); } else { CourseIsRun(at); }
    }

    // What a read finds at turn k, and what is left when the request then only goes on to pc.
    ghost function Seen(k: nat): Reading { Read(befores(k), turns(k).outcome) }

    ghost function Left(k: nat, pc: Pc): State { befores(k).(procs := befores(k).procs[p := Process(fp, pc)]) }

    ghost predicate IsAt(k: nat, pc: Pc) { p in states(k).procs && states(k).procs[p] == Process(fp, pc) }

    ghost predicate Works(k: nat) { turns(k).outcome.Works? }

    // The request ends with turn `to`, and not before.
    ghost predicate EndsAs(to: nat, reply: Reply) { IsAt(to, Finished(reply)) && LiveUpTo(to) }

    // After k turns the machine's request has not ended, so there is a next operation.
    ghost predicate Live(k: nat) {
      p in states(k).procs && !states(k).procs[p].pc.Finished?
    }

    ghost predicate OthersAreForeign() { forall k: nat :: Foreign(turns(k).others, p) }

    // Nothing was done after the request had ended.
    ghost predicate LiveUpTo(n: nat) { forall k: nat :: k < n ==> Live(k) }

    // The state is that of the machine after the turns used; none was used after the request
    // had ended; and it expired only while waiting.
    ghost predicate Valid()
      reads this
    {
      && p in procs && procs[p].fp == fp
      && OthersAreForeign() && Course() && LiveUpTo(at)
      && (!expired ==> Now() == states(at))
      && (expired ==> at > 0 && IsAt(at - 1, Wait) && Now() == lapsed(at - 1))
    }

    function Pc(): Pc
      requires p in procs
      reads this
    {
      procs[p].pc
    }

    // ------------------------------------------------ what the turns come to

    // One turn: the operation of the request on what the others left.
    lemma TurnTaken(k: nat, pc: Pc)
      requires OthersAreForeign() && Course() && IsAt(k, pc)
      ensures p in befores(k).procs && befores(k).procs[p] == Process(fp, pc)
      ensures |befores(k).artifacts| == |states(k).artifacts|
      ensures states(k + 1) == Act(befores(k), p, turns(k).outcome)
    {
      assert IsTurn(k);
      OthersLeaveAlone(states(k), turns(k).others, p);
    }

    lemma ReadTaken(k: nat, pc: Pc)
      requires OthersAreForeign() && Course() && IsAt(k, pc) && Reads(pc)
      ensures states(k + 1) == Left(k, if pc.Wait? && turns(k).outcome.Expires? then Finished(Raised) else AfterRead(pc, Seen(k), fp))
    {
      TurnTaken(k, pc);
    }

    // The claim at turn k is made, or is told to be taken.
    ghost predicate ClaimMade(k: nat) { Works(k) && befores(k).lock.None? }

    ghost predicate ClaimTaken(k: nat) {
      turns(k).outcome.LosesExit? || turns(k).outcome.Refuses? || (Works(k) && befores(k).lock.Some?)
    }

    lemma ClaimTurn(k: nat, pc: Pc)
      requires OthersAreForeign() && Course() && IsAt(k, pc) && (pc.PrepareClaim? || pc.SubmitClaim?)
      ensures ClaimMade(k) ==> IsAt(k + 1, if pc.PrepareClaim? then PrepareRecheck else SubmitReread)
      ensures ClaimTaken(k) ==> IsAt(k + 1, if pc.PrepareClaim? then Finished(Raised) else Wait)
      ensures !ClaimMade(k) && !ClaimTaken(k) ==> IsAt(k + 1, Finished(Raised))
    {
      TurnTaken(k, pc);
    }

    lemma WriteTurn(k: nat, g: Goal)
      requires OthersAreForeign() && Course() && IsAt(k, WriteBegin(g))
      ensures IsAt(k + 1, if Works(k) then WriteEnd(g) else AfterWrite(g, false))
    {
      TurnTaken(k, WriteBegin(g));
    }

    lemma FillTurn(k: nat, g: Goal)
      requires OthersAreForeign() && Course() && IsAt(k, WriteEnd(g))
      ensures IsAt(k + 1, AfterWrite(g, Works(k)))
    {
      TurnTaken(k, WriteEnd(g));
    }

    lemma SbatchTurn(k: nat)
      requires OthersAreForeign() && Course() && IsAt(k, Sbatch)
      ensures turns(k).outcome.Accepts? ==> IsAt(k + 1, WriteBegin(ToSubmitted(turns(k).outcome.job)))
      ensures !turns(k).outcome.Accepts? ==> IsAt(k + 1, WriteBegin(BackToPrepared)) || IsAt(k + 1, WriteBegin(StillUncertain))
    {
      TurnTaken(k, Sbatch);
    }

    lemma ReleaseTurn(k: nat, reply: Reply)
      requires OthersAreForeign() && Course() && IsAt(k, Release(reply))
      ensures IsAt(k + 1, Finished(reply)) && (TakesEffect(turns(k).outcome) ==> states(k + 1).lock == None)
    {
      TurnTaken(k, Release(reply));
    }

    // A request that is at an end after turn k has ended there.
    lemma EndedAt(k: nat, to: nat, reply: Reply, last: Reply)
      requires EndsAs(to, last) && IsAt(k + 1, Finished(reply)) && k < to
      ensures to == k + 1 && last == reply
    {
      assert k + 1 < to ==> Live(k + 1);
    }

    lemma NotEnded(k: nat, to: nat, pc: Pc, last: Reply)
      requires EndsAs(to, last) && IsAt(k, pc) && !pc.Finished? && k <= to
      ensures k < to
    {
    }

    // ---- waiting

    // The polls from turn `from` on, of which there may be `polls`, end the request at turn
    // `to`: the first that neither finds nothing nor finds the attempt unresolved decides, and
    // answers the job if it finds SUBMITTED; if there is none the request expires.
    ghost predicate PollsTold(from: nat, polls: nat, to: nat, expired: bool, reply: Reply) {
      && (expired <==> forall k: nat :: from <= k < from + polls ==> Undecided(Seen(k), fp))
      && (expired ==> to == from + polls + 1 && reply == Raised)
      && (!expired ==>
            && from < to <= from + polls && !Undecided(Seen(to - 1), fp)
            && (forall k: nat :: from <= k < to - 1 ==> Undecided(Seen(k), fp))
            && reply == if FindsJob(Seen(to - 1), fp) then Record(Seen(to - 1).phase.job, true) else Raised)
    }

    lemma PollTurn(k: nat)
      requires OthersAreForeign() && Course() && IsAt(k, Wait)
      ensures Undecided(Seen(k), fp) ==> IsAt(k + 1, Wait)
      ensures !Undecided(Seen(k), fp) ==>
        IsAt(k + 1, Finished(if FindsJob(Seen(k), fp) then Record(Seen(k).phase.job, true) else Raised))
    {
      ReadTaken(k, Wait);
    }

    // As long as the request lives it has found nothing that decides.
    lemma {:induction false} StillWaiting(from: nat, k: nat)
      requires OthersAreForeign() && Course() && IsAt(from, Wait) && from <= k && LiveUpTo(k + 1)
      ensures IsAt(k, Wait) && forall i: nat :: from <= i < k ==> Undecided(Seen(i), fp)
      decreases k
    {
      if from < k {
        StillWaiting(from, k - 1);
        PollTurn(k - 1);
        assert Live(k);
      }
    }

    lemma PollsDecide(from: nat, polls: nat, to: nat, reply: Reply)
      requires OthersAreForeign() && Course() && IsAt(from, Wait) && EndsAs(to, reply) && from < to <= from + polls
      ensures PollsTold(from, polls, to, false, reply)
    {
      var last := to - 1;
      StillWaiting(from, last);
      PollTurn(last);
      assert Undecided(Seen(last), fp) ==> IsAt(to, Wait);
    }

    lemma PollsExpire(from: nat, polls: nat, to: nat)
      requires OthersAreForeign() && Course() && IsAt(from, Wait) && LiveUpTo(to) && to == from + polls + 1
      ensures PollsTold(from, polls, to, true, Raised)
    {
      StillWaiting(from, from + polls);
    }

    // ---- Submit

    // What the second read, at turn k, leads to: the job that it finds, or sbatch if it finds
    // PREPARED and the mark can be made, or an error after the release of the claim.
    ghost predicate ClaimTold(k: nat, to: nat, reply: Reply) {
      if FindsJob(Seen(k), fp) then reply == Record(Seen(k).phase.job, true) && to == k + 1 && states(to) == Left(k, Finished(reply))
      else if Seen(k) != Content(fp, Prepared) then reply == Raised && to == k + 2
      else if !Works(k + 1) then reply == Raised && to == k + 3
      else if !Works(k + 2) then reply == Raised && to == k + 4
      else to > k + 4 && reply == (if turns(k + 3).outcome.Accepts? then Record(turns(k + 3).outcome.job, false) else Raised)
    }

    lemma ClaimedSubmit(k: nat, to: nat, reply: Reply)
      requires OthersAreForeign() && Course() && IsAt(k, SubmitReread) && EndsAs(to, reply) && k <= to
      ensures ClaimTold(k, to, reply)
    {
      ReadTaken(k, SubmitReread);
      if FindsJob(Seen(k), fp) {
        EndedAt(k, to, Record(Seen(k).phase.job, true), reply);
      } else if Seen(k) != Content(fp, Prepared) {
        Releases(k + 1, to, Raised, reply);
      } else {
        MarkingSubmit(k + 1, to, reply);
      }
    }

    lemma MarkingSubmit(k: nat, to: nat, reply: Reply)
      requires OthersAreForeign() && Course() && IsAt(k, WriteBegin(ToSubmitting)) && EndsAs(to, reply) && k <= to
      ensures if !Works(k) then reply == Raised && to == k + 2
              else if !Works(k + 1) then reply == Raised && to == k + 3
              else to > k + 3 && reply == (if turns(k + 2).outcome.Accepts? then Record(turns(k + 2).outcome.job, false) else Raised)
    {
      WriteTurn(k, ToSubmitting);
      NotEnded(k, to, WriteBegin(ToSubmitting), reply);
      if !Works(k) { Releases(k + 1, to, Raised, reply); } else { FillingSubmit(k + 1, to, reply); }
    }

    lemma FillingSubmit(k: nat, to: nat, reply: Reply)
      requires OthersAreForeign() && Course() && IsAt(k, WriteEnd(ToSubmitting)) && EndsAs(to, reply) && k <= to
      ensures if !Works(k) then reply == Raised && to == k + 2
              else to > k + 2 && reply == (if turns(k + 1).outcome.Accepts? then Record(turns(k + 1).outcome.job, false) else Raised)
    {
      FillTurn(k, ToSubmitting);
      NotEnded(k, to, WriteEnd(ToSubmitting), reply);
      if !Works(k) { Releases(k + 1, to, Raised, reply); } else { MarkedSubmit(k + 1, to, reply); }
    }

    lemma Releases(k: nat, to: nat, reply: Reply, last: Reply)
      requires OthersAreForeign() && Course() && IsAt(k, Release(reply)) && EndsAs(to, last) && k <= to
      ensures to == k + 1 && last == reply && (TakesEffect(turns(k).outcome) ==> states(to).lock == None)
    {
      ReleaseTurn(k, reply);
      NotEnded(k, to, Release(reply), last);
      EndedAt(k, to, reply, last);
    }

    lemma MarkedSubmit(k: nat, to: nat, reply: Reply)
      requires OthersAreForeign() && Course() && IsAt(k, Sbatch) && EndsAs(to, reply) && k <= to
      ensures to > k + 1 && reply == (if turns(k).outcome.Accepts? then Record(turns(k).outcome.job, false) else Raised)
    {
      SbatchTurn(k);
      NotEnded(k, to, Sbatch, reply);
      if turns(k).outcome.Accepts? {
        LastWrite(k + 1, to, ToSubmitted(turns(k).outcome.job), reply);
      } else if IsAt(k + 1, WriteBegin(BackToPrepared)) {
        LastWrite(k + 1, to, BackToPrepared, reply);
      } else {
        LastWrite(k + 1, to, StillUncertain, reply);
      }
    }

    lemma LastWrite(k: nat, to: nat, g: Goal, reply: Reply)
      requires OthersAreForeign() && Course() && IsAt(k, WriteBegin(g)) && EndsAs(to, reply) && k <= to
      requires g.ToSubmitted? || g.BackToPrepared? || g.StillUncertain?
      ensures to > k && reply == if g.ToSubmitted? then Record(g.job, false) else Raised
    {
      var last := if g.ToSubmitted? then Record(g.job, false) else Raised;
      WriteTurn(k, g);
      NotEnded(k, to, WriteBegin(g), reply);
      if !Works(k) { EndedAt(k, to, last, reply); } else { LastFill(k + 1, to, g, reply); }
    }

    lemma LastFill(k: nat, to: nat, g: Goal, reply: Reply)
      requires OthersAreForeign() && Course() && IsAt(k, WriteEnd(g)) && EndsAs(to, reply) && k <= to
      requires g.ToSubmitted? || g.BackToPrepared? || g.StillUncertain?
      ensures to > k && reply == if g.ToSubmitted? then Record(g.job, false) else Raised
    {
      var last := if g.ToSubmitted? then Record(g.job, false) else Raised;
      FillTurn(k, g);
      NotEnded(k, to, WriteEnd(g), reply);
      if AfterWrite(g, Works(k)).Finished? { EndedAt(k, to, last, reply); } else { Releases(k + 1, to, last, reply); }
    }

    // What a Submit that reads at turn k comes to, told from what it sees.
    ghost predicate SubmitTold(k: nat, polls: nat, to: nat, expired: bool, reply: Reply) {
      var r := Seen(k);
      if !r.Content? || r.fp != fp then
        !expired && to == k + 1 && reply == Raised && states(to) == Left(k, Finished(reply))
      else match r.phase
        case Submitted(j) => !expired && to == k + 1 && reply == Record(j, true) && states(to) == Left(k, Finished(reply))
        case Submitting => PollsTold(k + 1, polls, to, expired, reply)
        case Prepared =>
          if ClaimMade(k + 1) then !expired && ClaimTold(k + 2, to, reply)
          else if ClaimTaken(k + 1) then PollsTold(k + 2, polls, to, expired, reply)
          else !expired && to == k + 2 && reply == Raised
    }

    lemma SubmitDecided(k: nat, polls: nat, to: nat, reply: Reply)
      requires OthersAreForeign() && Course() && IsAt(k, SubmitRead) && EndsAs(to, reply) && k <= to
      requires IsAt(k + 1, Wait) ==> to <= k + 1 + polls
      requires IsAt(k + 2, Wait) && IsAt(k + 1, SubmitClaim) ==> to <= k + 2 + polls
      ensures SubmitTold(k, polls, to, false, reply)
    {
      ReadTaken(k, SubmitRead);
      NotEnded(k, to, SubmitRead, reply);
      var r := Seen(k);
      if !r.Content? || r.fp != fp {
        EndedAt(k, to, Raised, reply);
      } else if r.phase.Submitted? {
        EndedAt(k, to, Record(r.phase.job, true), reply);
      } else if r.phase.Submitting? {
        NotEnded(k + 1, to, Wait, reply);
        PollsDecide(k + 1, polls, to, reply);
      } else {
        ClaimTurn(k + 1, SubmitClaim);
        NotEnded(k + 1, to, SubmitClaim, reply);
        if ClaimMade(k + 1) {
          ClaimedSubmit(k + 2, to, reply);
        } else if ClaimTaken(k + 1) {
          NotEnded(k + 2, to, Wait, reply);
          PollsDecide(k + 2, polls, to, reply);
        } else {
          EndedAt(k + 1, to, Raised, reply);
        }
      }
    }

    lemma SubmitExpired(k: nat, polls: nat, to: nat)
      requires OthersAreForeign() && Course() && IsAt(k, SubmitRead) && LiveUpTo(to)
      requires (IsAt(k + 1, Wait) && to == k + polls + 2)
        || (IsAt(k + 1, SubmitClaim) && IsAt(k + 2, Wait) && to == k + polls + 3)
      ensures SubmitTold(k, polls, to, true, Raised)
    {
      ReadTaken(k, SubmitRead);
      if IsAt(k + 1, Wait) {
        PollsExpire(k + 1, polls, to);
      } else {
        ClaimTurn(k + 1, SubmitClaim);
        PollsExpire(k + 2, polls, to);
      }
    }

    // ---- Prepare

    // What the third read, at turn k, leads to: PREPARED is written unless another state of the
    // same specification is there, and a state that cannot be read or trusted is an error.
    ghost predicate ConfirmTold(k: nat, to: nat, reply: Reply) {
      var r := Seen(k);
      if r.Unreadable? || (r.Content? && r.fp != fp) then reply == Raised && to == k + 2
      else if r.Content? && !r.phase.Prepared? then reply == DryRun && to == k + 2
      else if !Works(k + 1) then reply == Raised && to == k + 3
      else reply == (if Works(k + 2) then DryRun else Raised) && to == k + 4
    }

    lemma ConfirmDecided(k: nat, to: nat, reply: Reply)
      requires OthersAreForeign() && Course() && IsAt(k, Confirm) && EndsAs(to, reply) && k <= to
      ensures ConfirmTold(k, to, reply) && (TakesEffect(turns(to - 1).outcome) ==> states(to).lock == None)
    {
      ReadTaken(k, Confirm);
      NotEnded(k, to, Confirm, reply);
      var r := Seen(k);
      if r.Unreadable? || (r.Content? && r.fp != fp) {
        Releases(k + 1, to, Raised, reply);
      } else if r.Content? && !r.phase.Prepared? {
        Releases(k + 1, to, DryRun, reply);
      } else {
        WritesPrepared(k + 1, to, reply);
      }
    }

    lemma WritesPrepared(k: nat, to: nat, reply: Reply)
      requires OthersAreForeign() && Course() && IsAt(k, WriteBegin(ToPrepared)) && EndsAs(to, reply) && k <= to
      ensures if !Works(k) then reply == Raised && to == k + 2
              else reply == (if Works(k + 1) then DryRun else Raised) && to == k + 3
      ensures TakesEffect(turns(to - 1).outcome) ==> states(to).lock == None
    {
      WriteTurn(k, ToPrepared);
      NotEnded(k, to, WriteBegin(ToPrepared), reply);
      if !Works(k) { Releases(k + 1, to, Raised, reply); } else { FillsPrepared(k + 1, to, reply); }
    }

    lemma FillsPrepared(k: nat, to: nat, reply: Reply)
      requires OthersAreForeign() && Course() && IsAt(k, WriteEnd(ToPrepared)) && EndsAs(to, reply) && k <= to
      ensures reply == (if Works(k) then DryRun else Raised) && to == k + 2
      ensures TakesEffect(turns(to - 1).outcome) ==> states(to).lock == None
    {
      FillTurn(k, ToPrepared);
      NotEnded(k, to, WriteEnd(ToPrepared), reply);
      Releases(k + 1, to, if Works(k) then DryRun else Raised, reply);
    }

    lemma UploadTurn(k: nat, i: nat)
      requires OthersAreForeign() && Course() && IsAt(k, Upload(i))
      ensures |states(k + 1).artifacts| == |states(k).artifacts|
      ensures i >= |states(k).artifacts| ==> IsAt(k + 1, Confirm)
      ensures i < |states(k).artifacts| ==> IsAt(k + 1, if Works(k) then Upload(i + 1) else Release(Raised))
    {
      TurnTaken(k, Upload(i));
    }

    // The uploads from file i on, at turn k: the first that fails ends the Prepare, and when
    // all work the third read comes at turn k + n - i + 1.
    ghost predicate UploadsTold(k: nat, i: nat, n: nat, to: nat, reply: Reply)
      decreases n - i
    {
      if i >= n then ConfirmTold(k + 1, to, reply)
      else if !Works(k) then reply == Raised && to == k + 2
      else UploadsTold(k + 1, i + 1, n, to, reply)
    }

    lemma {:induction false} UploadsDecided(k: nat, i: nat, n: nat, to: nat, reply: Reply)
      requires OthersAreForeign() && Course() && IsAt(k, Upload(i)) && EndsAs(to, reply) && k <= to
      requires |states(k).artifacts| == n
      ensures UploadsTold(k, i, n, to, reply) && to > k && (TakesEffect(turns(to - 1).outcome) ==> states(to).lock == None)
      decreases n - i
    {
      UploadTurn(k, i);
      NotEnded(k, to, Upload(i), reply);
      if i >= n {
        ConfirmDecided(k + 1, to, reply);
      } else if !Works(k) {
        Releases(k + 1, to, Raised, reply);
      } else {
        UploadsDecided(k + 1, i + 1, n, to, reply);
      }
    }

    // What a Prepare that reads at turn k comes to, told from what it sees; once it has made
    // its claim its last turn gives it up.
    ghost predicate PrepareTold(k: nat, to: nat, reply: Reply) {
      if Seen(k) != Nothing && Seen(k) != Content(fp, Prepared) then
        to == k + 1 && reply == Raised && states(to) == Left(k, Finished(reply))
      else if !ClaimMade(k + 1) then to == k + 2 && reply == Raised
      else
        && to > k + 3 && (TakesEffect(turns(to - 1).outcome) ==> states(to).lock == None)
        && if Seen(k + 2) != Nothing && Seen(k + 2) != Content(fp, Prepared) then to == k + 4 && reply == Raised
           else UploadsTold(k + 3, 0, |states(k + 3).artifacts|, to, reply)
    }

    lemma PrepareDecided(k: nat, to: nat, reply: Reply)
      requires OthersAreForeign() && Course() && IsAt(k, PrepareCheck) && EndsAs(to, reply) && k <= to
      ensures PrepareTold(k, to, reply)
    {
      ReadTaken(k, PrepareCheck);
      NotEnded(k, to, PrepareCheck, reply);
      if Seen(k) != Nothing && Seen(k) != Content(fp, Prepared) {
        EndedAt(k, to, Raised, reply);
      } else {
        ClaimTurn(k + 1, PrepareClaim);
        NotEnded(k + 1, to, PrepareClaim, reply);
        if !ClaimMade(k + 1) { EndedAt(k + 1, to, Raised, reply); } else { ClaimedPrepare(k + 2, to, reply); }
      }
    }

    lemma ClaimedPrepare(k: nat, to: nat, reply: Reply)
      requires OthersAreForeign() && Course() && IsAt(k, PrepareRecheck) && EndsAs(to, reply) && k <= to
      ensures to > k + 1 && (TakesEffect(turns(to - 1).outcome) ==> states(to).lock == None)
      ensures if Seen(k) != Nothing && Seen(k) != Content(fp, Prepared) then to == k + 2 && reply == Raised
              else UploadsTold(k + 1, 0, |states(k + 1).artifacts|, to, reply)
    {
      ReadTaken(k, PrepareRecheck);
      NotEnded(k, to, PrepareRecheck, reply);
      if Seen(k) != Nothing && Seen(k) != Content(fp, Prepared) {
        Releases(k + 1, to, Raised, reply);
      } else {
        UploadsDecided(k + 1, 0, |states(k + 1).artifacts|, to, reply);
      }
    }

    // --------------------------------------------------------- the program

    // A request begins, after whatever has happened to the attempt before.
    constructor (p: Pid, fp: Fingerprint, files: nat, history: seq<Event>, turns: nat -> Turn, preparing: bool)
      requires p !in Run(Init(files), history).procs && forall k: nat :: Foreign(turns(k).others, p)
      ensures Valid() && at == 0 && !expired && this.p == p && this.fp == fp && this.turns == turns && this.files == files
      ensures past == history + [if preparing then StartPrepare(p, fp) else StartSubmit(p, fp)]
      ensures Pc() == if preparing then PrepareCheck else SubmitRead
    {
      var s := Run(Init(files), history);
      var pc := if preparing then PrepareCheck else SubmitRead;
      ghost var events := history + [if preparing then StartPrepare(p, fp) else StartSubmit(p, fp)];
      Opens(files, history, p, fp, preparing);
      CourseOf(files, events, turns, p);
      this.p, this.fp, this.turns, this.files, at, expired := p, fp, turns, files, 0, false;
      file, lock, artifacts, jobs, bound := s.file, s.lock, s.artifacts, s.jobs, s.bound;
      past, procs := events, s.procs[p := Process(fp, pc)];
      states := StatesOf(files, events, turns, p);
      befores := BeforesOf(files, events, turns, p);
      lapsed := LapsedOf(BeforesOf(files, events, turns, p), p);
      new;
      assert IsTurn(0);
    }

    method MoveTo(pc: Pc)
      requires p in procs
      modifies this`procs
      ensures procs == old(procs)[p := old(procs)[p].(pc := pc)]
    {
      procs := procs[p := procs[p].(pc := pc)];
    }

    // Lets the other requests of the turn act, and says how this one's operation ends.
    method Next() returns (o: Outcome)
      requires Valid() && !expired
      modifies this`file, this`lock, this`artifacts, this`jobs, this`procs, this`bound
      ensures Now() == befores(at) && o == turns(at).outcome
      ensures p in procs && procs[p] == old(procs[p]) && |artifacts| == old(|artifacts|)
    {
      var turn := turns(at);
      o := turn.outcome;
      var s := Run(Now(), turn.others);
      OthersLeaveAlone(Now(), turn.others, p);
      assert IsTurn(at);
      file, lock, artifacts, jobs, procs, bound := s.file, s.lock, s.artifacts, s.jobs, s.procs, s.bound;
    }

    // The operation of the turn has been performed on what the others left.
    method EndTurn(ghost late: bool)
      requires OthersAreForeign() && Course() && LiveUpTo(at) && !expired && p in procs && procs[p].fp == fp
      requires Live(at) && (late ==> IsAt(at, Wait))
      requires Now() == Apply(befores(at), Go(p, if late then Expires else turns(at).outcome))
      modifies this`at, this`expired
      ensures Valid() && at == old(at) + 1 && expired == late && Now() == old(Now())
    {
      assert IsTurn(at);
      at, expired := at + 1, late;
    }

    // ---------------------------------------------------------- operations

    // What is read is the file as the foreign events of the turn have left it.
    method ReadAttemptState() returns (r: Reading)
      requires Valid() && !expired && Reads(Pc())
      modifies this
      ensures Valid() && !expired && at == old(at) + 1 && |artifacts| == old(|artifacts|)
      ensures r == Seen(old(at)) && Now() == Left(old(at), Pc())
      ensures Pc() == AfterRead(old(Pc()), r, fp) || (old(Pc()).Wait? && Pc() == Finished(Raised) && r.Unreadable?)
    {
      var o := Next();
      if o.ReportsMissing? {
        r := Nothing;
      } else if !o.Works? || file.Torn? {
        r := Unreadable;
      } else if file.Absent? {
        r := Nothing;
      } else {
        r := Content(file.fp, file.phase);
      }
      MoveTo(if Pc().Wait? && o.Expires? then Finished(Raised) else AfterRead(Pc(), r, fp));
      EndTurn(false);
    }

    // Made: `mkdir` made the lock directory and said so. A call that raised, or that lost
    // its exit code, may have made it too. Taken: it exited non-zero, which it also does
    // when it could not make the directory although nobody has.
    method ClaimAttempt() returns (c: Claimed)
      requires Valid() && !expired && (Pc().PrepareClaim? || Pc().SubmitClaim?)
      modifies this
      ensures Valid() && !expired && at == old(at) + 1 && |artifacts| == old(|artifacts|)
      ensures var was, o := befores(old(at)).lock, turns(old(at)).outcome;
        && (c.Made? <==> o.Works? && was.None?)
        && (c.Taken? <==> o.LosesExit? || o.Refuses? || (o.Works? && was.Some?))
        && lock == (if was.None? && TakesEffect(o) then Some(p) else was)
      ensures Pc() == match c
                      case Made => (if old(Pc()).PrepareClaim? then PrepareRecheck else SubmitReread)
                      case Taken => (if old(Pc()).PrepareClaim? then Finished(Raised) else Wait)
                      case NotTold => Finished(Raised)
    {
      var o := Next();
      var preparing := Pc().PrepareClaim?;
      var created := TakesEffect(o) && lock.None?;
      if created { lock := Some(p); }
      if o.Works? && created {
        c := Made;
      } else if o.Works? || o.LosesExit? || o.Refuses? {
        c := Taken;
      } else {
        c := NotTold;
      }
      MoveTo(if c.Made? then (if preparing then PrepareRecheck else SubmitReread)
             else if c.Taken? && !preparing then Wait
             else Finished(Raised));
      EndTurn(false);
    }

    method UploadArtifact(k: nat) returns (ok: bool)
      requires Valid() && !expired && Pc() == Upload(k) && k < |artifacts|
      modifies this
      ensures Valid() && !expired && at == old(at) + 1 && |artifacts| == old(|artifacts|)
      ensures ok == turns(old(at)).outcome.Works?
      ensures var was, o := befores(old(at)).artifacts, turns(old(at)).outcome;
        && k < |was|
        && artifacts == if o.Works? || o.WorksThenRaises? then was[k := Uploaded(fp, true)]
                        else if o.HalfThenRaises? then was[k := Uploaded(fp, false)] else was
      ensures Pc() == if ok then Upload(k + 1) else Release(Raised)
    {
      var o := Next();
      ok := o.Works?;
      if o.Works? || o.WorksThenRaises? {
        artifacts := artifacts[k := Uploaded(fp, true)];
      } else if o.HalfThenRaises? {
        artifacts := artifacts[k := Uploaded(fp, false)];
      }
      MoveTo(if ok then Upload(k + 1) else Release(Raised));
      EndTurn(false);
    }

    method FinishUploads()
      requires Valid() && !expired && Pc() == Upload(|artifacts|)
      modifies this
      ensures Valid() && !expired && at == old(at) + 1 && Pc() == Confirm
    {
      var _ := Next();
      MoveTo(Confirm);
      EndTurn(false);
    }

    // Opening the file for writing truncates it.
    method Truncate(g: Goal) returns (ok: bool)
      requires Valid() && !expired && Pc() == WriteBegin(g)
      modifies this
      ensures Valid() && !expired && at == old(at) + 1
      ensures ok == turns(old(at)).outcome.Works? && (ok ==> file == Torn)
      ensures Pc() == if ok then WriteEnd(g) else AfterWrite(g, false)
    {
      var o := Next();
      ok := o.Works?;
      if ok { file := Torn; }
      MoveTo(if ok then WriteEnd(g) else AfterWrite(g, false));
      EndTurn(false);
    }

    // The content arrives, and may have arrived although the call raised.
    method Fill(g: Goal) returns (ok: bool)
      requires Valid() && !expired && Pc() == WriteEnd(g)
      modifies this
      ensures Valid() && !expired && at == old(at) + 1
      ensures ok == turns(old(at)).outcome.Works?
      ensures ok || turns(old(at)).outcome.WorksThenRaises? ==> file == Holds(fp, PhaseFor(g))
      ensures Pc() == AfterWrite(g, ok)
    {
      var o := Next();
      ok := o.Works?;
      if o.Works? || o.WorksThenRaises? {
        file := Holds(fp, PhaseFor(g));
        if bound.None? { bound := Some(fp); }
      }
      MoveTo(AfterWrite(g, ok));
      EndTurn(false);
    }

    method WriteAttemptState(g: Goal) returns (ok: bool)
      requires Valid() && !expired && Pc() == WriteBegin(g)
      modifies this
      ensures Valid() && !expired
      ensures at == old(at) + if turns(old(at)).outcome.Works? then 2 else 1
      ensures ok <==> turns(old(at)).outcome.Works? && turns(old(at) + 1).outcome.Works?
      ensures ok ==> file == Holds(fp, PhaseFor(g))
      ensures Pc() == AfterWrite(g, ok)
    {
      ok := Truncate(g);
      if ok { ok := Fill(g); }
    }

    method SubmitBatch() returns (a: Answer)
      requires Valid() && !expired && Pc() == Sbatch
      modifies this
      ensures Valid() && !expired && at == old(at) + 1
      ensures var before, o := befores(old(at)).jobs, turns(old(at)).outcome;
        && (a.Queued? <==> o.Accepts?) && (a.Queued? ==> o == Accepts(a.job) && jobs == before + [Job(a.job, p, fp, artifacts)])
        && (a.Refused? <==> o.Refuses? || o.RefusesButQueues?) && (o.Refuses? ==> jobs == before)
        && (o.RefusesButQueues? ==> jobs == before + [Job(o.job, p, fp, artifacts)])
        && (o.LosesReply? ==> jobs == before + if o.queued.Some? then [Job(o.queued.value, p, fp, artifacts)] else [])
      ensures Pc() == WriteBegin(GoalFor(a))
    {
      var o := Next();
      match o {
        case Accepts(j) =>
          jobs := jobs + [Job(j, p, fp, artifacts)];
          a := Queued(j);
        case Refuses => a := Refused;
        case RefusesButQueues(j) =>
          jobs := jobs + [Job(j, p, fp, artifacts)];
          a := Refused;
        case LosesReply(Some(j)) =>
          jobs := jobs + [Job(j, p, fp, artifacts)];
          a := NoAnswer;
        case _ => a := NoAnswer;
      }
      MoveTo(WriteBegin(GoalFor(a)));
      EndTurn(false);
    }

    // Whatever becomes of the `rmdir`, the request goes on to its reply.
    method ReleaseClaim()
      requires Valid() && !expired && Pc().Release?
      modifies this
      ensures Valid() && !expired && at == old(at) + 1
      ensures TakesEffect(turns(old(at)).outcome) ==> lock == None
      ensures Pc() == Finished(old(Pc()).reply)
    {
      var o := Next();
      if TakesEffect(o) { lock := None; }
      MoveTo(Finished(Pc().reply));
      EndTurn(false);
    }

    // The deadline of the polling loop passes.
    method Expire()
      requires Valid() && !expired && Pc() == Wait
      modifies this
      ensures Valid() && expired && at == old(at) + 1 && Pc() == Finished(Raised)
    {
      var _ := Next();
      MoveTo(Finished(Raised));
      EndTurn(true);
    }

    // ------------------------------------------------------------ requests

    // submit(dry_run = true), from the first read of the state file on: it ends when, and
    // as, the machine's request ends, and as PrepareTold tells.
    method Prepare() returns (reply: Reply)
      requires Valid() && !expired && Pc() == PrepareCheck
      modifies this
      ensures Valid() && !expired && Pc() == Finished(reply)
      ensures !reply.Record?
      ensures PrepareTold(old(at), at, reply)
    {
      ghost var k := at;
      reply := RunPrepare();
      PrepareDecided(k, at, reply);
    }

    method RunPrepare() returns (reply: Reply)
      requires Valid() && !expired && Pc() == PrepareCheck
      modifies this
      ensures Valid() && !expired && Pc() == Finished(reply)
      ensures !reply.Record? && at > old(at)
    {
      var r := ReadAttemptState();
      if !Preparable(r, fp) { return Raised; }
      var c := ClaimAttempt();
      if !c.Made? { return Raised; }
      reply := PrepareClaimed();
    }

    // The second read, and the release whatever comes of it.
    method PrepareClaimed() returns (reply: Reply)
      requires Valid() && !expired && Pc() == PrepareRecheck
      modifies this
      ensures Valid() && !expired && Pc() == Finished(reply)
      ensures !reply.Record? && at > old(at)
      ensures TakesEffect(turns(at - 1).outcome) ==> lock == None
    {
      reply := Raised;
      var r := ReadAttemptState();
      if Preparable(r, fp) { reply := PrepareUnderClaim(); }
      ReleaseClaim();
    }

    // Uploads every file, reads the state once more and writes PREPARED.
    method PrepareUnderClaim() returns (reply: Reply)
      requires Valid() && !expired && Pc() == Upload(0)
      modifies this
      ensures Valid() && !expired && Pc() == Release(reply) && !reply.Record? && at > old(at)
    {
      var ok := UploadAll();
      if ok { reply := ConfirmAndWrite(); } else { reply := Raised; }
    }

    method UploadAll() returns (ok: bool)
      requires Valid() && !expired && Pc() == Upload(0)
      modifies this
      ensures Valid() && !expired && |artifacts| == old(|artifacts|) && at >= old(at) && (!ok ==> at > old(at))
      ensures Pc() == if ok then Upload(|artifacts|) else Release(Raised)
      ensures ok <==> forall k: nat :: old(at) <= k < old(at) + |artifacts| ==> turns(k).outcome.Works?
    {
      var k := 0;
      while k < |artifacts|
        invariant 0 <= k <= |artifacts| == old(|artifacts|) && at == old(at) + k
        invariant Valid() && !expired && Pc() == Upload(k)
        invariant forall i: nat :: old(at) <= i < at ==> turns(i).outcome.Works?
      {
        var done := UploadArtifact(k);
        if !done { return false; }
        k := k + 1;
      }
      ok := true;
    }

    method ConfirmAndWrite() returns (reply: Reply)
      requires Valid() && !expired && Pc() == Upload(|artifacts|)
      modifies this
      ensures Valid() && !expired && Pc() == Release(reply) && !reply.Record? && at > old(at)
    {
      FinishUploads();
      var r := ReadAttemptState();
      if r.Unreadable? || (r.Content? && r.fp != fp) { return Raised; }
      if r.Content? && !r.phase.Prepared? { return DryRun; }
      var ok := WriteAttemptState(ToPrepared);
      reply := if ok then DryRun else Raised;
    }

    // submit(dry_run = false), from the first read of the state file on, as SubmitTold tells.
    // It expires only while the machine waits, after as many polls as the deadline allows.
    method Submit(polls: nat) returns (reply: Reply)
      requires Valid() && !expired && Pc() == SubmitRead
      modifies this
      ensures Valid() && Pc() == Finished(reply)
      ensures SubmitTold(old(at), polls, at, expired, reply)
    {
      ghost var k := at;
      reply := RunSubmit(polls);
      if expired { SubmitExpired(k, polls, at); } else { SubmitDecided(k, polls, at, reply); }
    }

    method RunSubmit(polls: nat) returns (reply: Reply)
      requires Valid() && !expired && Pc() == SubmitRead
      modifies this
      ensures Valid() && Pc() == Finished(reply) && at > old(at) && (expired ==> reply == Raised)
      ensures !expired && IsAt(old(at) + 1, Wait) ==> at <= old(at) + 1 + polls
      ensures !expired && IsAt(old(at) + 1, SubmitClaim) && IsAt(old(at) + 2, Wait) ==> at <= old(at) + 2 + polls
      ensures expired ==>
        || (IsAt(old(at) + 1, Wait) && at == old(at) + polls + 2)
        || (IsAt(old(at) + 1, SubmitClaim) && IsAt(old(at) + 2, Wait) && at == old(at) + polls + 3)
    {
      var r := ReadAttemptState();
      assert IsAt(at, Pc());
      if !r.Content? || r.fp != fp { return Raised; }
      match r.phase {
        case Submitted(j) => reply := Record(j, true);
        case Submitting => reply := WaitForResolution(polls);
        case Prepared => reply := SubmitPrepared(polls);
      }
    }

    method SubmitPrepared(polls: nat) returns (reply: Reply)
      requires Valid() && !expired && Pc() == SubmitClaim
      modifies this
      ensures Valid() && Pc() == Finished(reply) && at > old(at) && (expired ==> reply == Raised)
      ensures !expired && IsAt(old(at) + 1, Wait) ==> at <= old(at) + 1 + polls
      ensures expired ==> IsAt(old(at) + 1, Wait) && at == old(at) + polls + 2
    {
      var c := ClaimAttempt();
      assert IsAt(at, Pc());
      match c {
        case NotTold => reply := Raised;
        case Taken => reply := WaitForResolution(polls);
        case Made => reply := SubmitClaimed();
      }
    }

    // The second read. An attempt found SUBMITTED is answered, the claim being kept.
    method SubmitClaimed() returns (reply: Reply)
      requires Valid() && !expired && Pc() == SubmitReread
      modifies this
      ensures Valid() && !expired && Pc() == Finished(reply) && at > old(at)
    {
      var r := ReadAttemptState();
      if r.Content? && r.fp == fp && r.phase.Submitted? {
        return Record(r.phase.job, true);
      }
      var marked := false;
      if r.Content? && r.fp == fp && r.phase.Prepared? { marked := WriteAttemptState(ToSubmitting); }
      if marked {
        reply := SubmitMarked();
      } else {
        ReleaseClaim();
        reply := Raised;
      }
    }

    // The last write of a request whose sbatch was answered; the claim is given up only
    // when that write has been completed.
    method WriteAndRelease(g: Goal) returns (ok: bool)
      requires Valid() && !expired && Pc() == WriteBegin(g) && (g.BackToPrepared? || g.ToSubmitted?)
      modifies this
      ensures Valid() && !expired
      ensures Pc() == Finished(if g.ToSubmitted? then Record(g.job, false) else Raised)
      ensures ok <==> turns(old(at)).outcome.Works? && turns(old(at) + 1).outcome.Works?
      ensures at == old(at) + if !turns(old(at)).outcome.Works? then 1 else if ok then 3 else 2
      ensures ok && TakesEffect(turns(old(at) + 2).outcome) ==> lock == None
    {
      ok := WriteAttemptState(g);
      if ok { ReleaseClaim(); }
    }

    // sbatch, and the write that its answer calls for; never is the claim given up when the
    // answer was lost.
    method SubmitMarked() returns (reply: Reply)
      requires Valid() && !expired && Pc() == Sbatch
      modifies this
      ensures Valid() && !expired && Pc() == Finished(reply) && at > old(at)
      ensures reply.Raised? || (reply.Record? && !reply.already)
      ensures reply.Record? ==> turns(old(at)).outcome == Accepts(reply.job)
      ensures at == old(at) + 4 <==>
        && (turns(old(at)).outcome.Accepts? || turns(old(at)).outcome.Refuses? || turns(old(at)).outcome.RefusesButQueues?)
        && turns(old(at) + 1).outcome.Works? && turns(old(at) + 2).outcome.Works?
      ensures at == old(at) + 4 && TakesEffect(turns(old(at) + 3).outcome) ==> lock == None
    {
      var a := SubmitBatch();
      match a {
        case Refused =>
          var _ := WriteAndRelease(BackToPrepared);
          reply := Raised;
        case NoAnswer =>
          var _ := WriteAttemptState(StillUncertain);
          reply := Raised;
        case Queued(j) =>
          var _ := WriteAndRelease(ToSubmitted(j));
          reply := Record(j, false);
      }
    }

    // Polls the state file until it says SUBMITTED, at most `polls` times. A record that
    // is answered is the one that the last poll read.
    method WaitForResolution(polls: nat) returns (reply: Reply)
      requires Valid() && !expired && Pc() == Wait
      modifies this
      ensures Valid() && Pc() == Finished(reply) && at > old(at) && (expired ==> reply == Raised)
      ensures reply.Raised? || (reply.Record? && reply.already)
      ensures reply.Record? ==> at > old(at) && file == Holds(fp, Submitted(reply.job))
      ensures if expired then at == old(at) + polls + 1 else at <= old(at) + polls
    {
      var i := 0;
      while i < polls
        invariant 0 <= i <= polls && at == old(at) + i
        invariant Valid() && !expired && Pc() == Wait
      {
        var r := ReadAttemptState();
        if r.Unreadable? || (r.Content? && r.fp != fp) { return Raised; }
        if r.Content? && r.phase.Submitted? { return Record(r.phase.job, true); }
        i := i + 1;
      }
      Expire();
      reply := Raised;
    }

    // A Submit that answers with a job names the one job that the attempt ever queued, and
    // that job reads files uploaded from its own specification, whole ones if no upload
    // ended halfway: among any other requests, while exit codes and file tests tell the truth.
    method SubmitAnswersTheJob(polls: nat) returns (reply: Reply)
      requires Valid() && !expired && Pc() == SubmitRead && at == 0
      requires AllAllowed(TRUTHFUL, past) && forall k: nat :: AllAllowed(TRUTHFUL, TurnEvents(turns(k), p))
      modifies this
      ensures Valid() && Pc() == Finished(reply)
      ensures reply.Record? ==>
        && |jobs| == 1 && jobs[0].id == reply.job && jobs[0].fp == fp
        && AllFrom(jobs[0].inputs, fp)
        && (Unbroken(past) && (forall k: nat :: Unbroken(TurnEvents(turns(k), p))) ==> AllWhole(jobs[0].inputs))
    {
      reply := Submit(polls);
      if reply.Record? {
        NowIsTheMachines();
        ScriptIsAllowed(turns, p, at, expired);
        AllowedConcat(TRUTHFUL, past, Script(turns, p, at, expired));
        RecordsNameTheJob(files, History(), p, reply.job, reply.already);
        if Unbroken(past) && forall k: nat :: Unbroken(TurnEvents(turns(k), p)) {
          ScriptIsUnbroken(turns, p, at, expired);
          JobsReadWholeFiles(files, History(), 0);
        }
      }
    }
  }

  function TurnEvents(t: Turn, p: Pid): seq<Event> { t.others + [Go(p, t.outcome)] }

  lemma {:induction false} ScriptIsAllowed(turns: nat -> Turn, p: Pid, to: nat, expired: bool)
    requires forall k: nat :: AllAllowed(TRUTHFUL, TurnEvents(turns(k), p))
    ensures AllAllowed(TRUTHFUL, Script(turns, p, to, expired))
  {
    if to > 0 {
      ScriptIsAllowed(turns, p, to - 1, false);
      var t := turns(to - 1);
      assert AllAllowed(TRUTHFUL, TurnEvents(t, p));
      forall i | 0 <= i < |t.others| ensures Allowed(TRUTHFUL, t.others[i]) {
        assert TurnEvents(t, p)[i] == t.others[i];
      }
      assert TurnEvents(t, p)[|t.others|] == Go(p, t.outcome);
    }
  }

  lemma {:induction false} ScriptIsUnbroken(turns: nat -> Turn, p: Pid, to: nat, expired: bool)
    requires forall k: nat :: Unbroken(TurnEvents(turns(k), p))
    ensures Unbroken(Script(turns, p, to, expired))
  {
    if to > 0 {
      ScriptIsUnbroken(turns, p, to - 1, false);
      var t := turns(to - 1);
      assert Unbroken(TurnEvents(t, p));
      forall i | 0 <= i < |t.others| && t.others[i].Go? ensures !t.others[i].o.HalfThenRaises? {
        assert TurnEvents(t, p)[i] == t.others[i];
      }
      assert TurnEvents(t, p)[|t.others|] == Go(p, t.outcome);
    }
  }
}
