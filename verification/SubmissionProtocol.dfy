/**
 The submission-attempt protocol: any number of Prepare and Submit requests race
 on the remote state file, the `mkdir` lock, the run artifacts and `sbatch` of
 one submission attempt (backend/paramiko_remote.py).

 A request is a process with a program counter. One event performs one remote
 operation of one process, and carries the way in which the environment lets
 that operation end. `Apply` is total: an event that cannot happen changes
 nothing. A run is therefore simply a sequence of events.

 Writing the state file takes two events, because the file is truncated before
 the new content arrives; a reader in between sees a torn file.
 */
module SubmissionProtocol {
  import opened Wrappers

  type Pid = nat
  type Fingerprint = nat
  type JobId = nat

  // ------------------------------------------------------------------ state

  datatype Phase = Prepared | Submitting | Submitted(job: JobId)

  datatype StateFile = Absent | Torn | Holds(fp: Fingerprint, phase: Phase)

  // One uploaded run file: the specification it came from, and whether its
  // last upload finished.
  datatype Artifact = NotUploaded | Uploaded(fp: Fingerprint, whole: bool)

  datatype Job = Job(id: JobId, owner: Pid, fp: Fingerprint, inputs: seq<Artifact>)

  datatype Reply = Raised | DryRun | Record(job: JobId, already: bool)

  // What a write of the state file is for.
  datatype Goal =
    | ToPrepared           // the end of Prepare
    | ToSubmitting         // the mark made before sbatch
    | BackToPrepared       // sbatch refused the job
    | StillUncertain       // the sbatch outcome is unknown
    | ToSubmitted(job: JobId)

  datatype Pc =
    | PrepareCheck | PrepareClaim | PrepareRecheck | Upload(next: nat) | Confirm
    | SubmitRead | SubmitClaim | SubmitReread | Sbatch | Wait
    | WriteBegin(goal: Goal) | WriteEnd(goal: Goal)
    | Release(reply: Reply) | Finished(reply: Reply) | Crashed

  datatype Process = Process(fp: Fingerprint, pc: Pc)

  // `bound` is a history variable: the fingerprint of the first complete state
  // file ever written. No operation reads it.
  datatype State = State(
    file: StateFile,
    lock: Option<Pid>,
    artifacts: seq<Artifact>,
    jobs: seq<Job>,
    procs: map<Pid, Process>,
    bound: Option<Fingerprint>)

  function Init(files: nat): State {
    State(Absent, None, seq(files, _ => NotUploaded), [], map[], None)
  }

  // ----------------------------------------------------------------- events

  datatype Outcome =
    | Works                 // completed, and said so
    | Raises                // raised, with no effect
    | HalfThenRaises        // raised after part of the effect
    | WorksThenRaises       // took full effect, then raised
    | LosesExit             // took full effect, but reported a non-zero exit
    | Expires               // the polling deadline passed
    | Accepts(job: JobId)   // sbatch queued the job and returned its id
    | Refuses               // exited non-zero, having queued or created nothing
    | LosesReply(queued: Option<JobId>) // no usable answer from sbatch
    | RefusesButQueues(job: JobId) // sbatch exited non-zero, yet queued the job
    | ReportsMissing        // `test -f` failed, whether or not the file exists

  datatype Event =
    | StartPrepare(p: Pid, fp: Fingerprint)
    | StartSubmit(p: Pid, fp: Fingerprint)
    | Go(p: Pid, o: Outcome)
    | Crash(p: Pid)

  // Which reports of the environment may be false.
  datatype Environment = Environment(exitMayLie: bool, testMayLie: bool)

  predicate Allowed(env: Environment, e: Event) {
    e.Go? ==>
      && (e.o.RefusesButQueues? ==> env.exitMayLie)
      && (e.o.ReportsMissing? ==> env.testMayLie)
  }

  predicate AllAllowed(env: Environment, es: seq<Event>) {
    forall i :: 0 <= i < |es| ==> Allowed(env, es[i])
  }

  const TRUTHFUL := Environment(false, false)

  // ------------------------------------------------------------- operations

  datatype Reading = Nothing | Content(fp: Fingerprint, phase: Phase) | Unreadable

  function Read(s: State, o: Outcome): Reading {
    if o.ReportsMissing? then Nothing
    else if !o.Works? || s.file.Torn? then Unreadable
    else if s.file.Absent? then Nothing
    else Content(s.file.fp, s.file.phase)
  }

  predicate Preparable(r: Reading, fp: Fingerprint) {
    r.Nothing? || r == Content(fp, Prepared)
  }

  predicate TakesEffect(o: Outcome) {
    o.Works? || o.WorksThenRaises? || o.LosesExit?
  }

  function PhaseFor(g: Goal): Phase {
    match g
    case ToPrepared | BackToPrepared => Prepared
    case ToSubmitting | StillUncertain => Submitting
    case ToSubmitted(j) => Submitted(j)
  }

  // Where a write of the state file leads, completed or raised.
  function AfterWrite(g: Goal, ok: bool): Pc {
    match g
    case ToPrepared => Release(if ok then DryRun else Raised)
    case ToSubmitting => if ok then Sbatch else Release(Raised)
    case BackToPrepared => if ok then Release(Raised) else Finished(Raised)
    case StillUncertain => Finished(Raised)
    case ToSubmitted(j) => if ok then Release(Record(j, false)) else Finished(Record(j, false))
  }

  function At(s: State, p: Pid, pc: Pc): State
    requires p in s.procs
  {
    s.(procs := s.procs[p := s.procs[p].(pc := pc)])
  }

  // `mkdir` of the lock directory; `won` and `lost` are where the two answers lead.
  function Claim(s: State, p: Pid, o: Outcome, won: Pc, lost: Pc): State
    requires p in s.procs
  {
    var created := TakesEffect(o) && s.lock.None?;
    var s' := if created then s.(lock := Some(p)) else s;
    if o.Works? then At(s', p, if created then won else lost)
    else if o.LosesExit? || o.Refuses? then At(s', p, lost)
    else At(s', p, Finished(Raised))
  }

  function UploadNext(s: State, p: Pid, k: nat, o: Outcome): State
    requires p in s.procs
  {
    var fp := s.procs[p].fp;
    if k >= |s.artifacts| then At(s, p, Confirm)
    else if o.Works? then At(s.(artifacts := s.artifacts[k := Uploaded(fp, true)]), p, Upload(k + 1))
    else if o.WorksThenRaises? then
      At(s.(artifacts := s.artifacts[k := Uploaded(fp, true)]), p, Release(Raised))
    else if o.HalfThenRaises? then
      At(s.(artifacts := s.artifacts[k := Uploaded(fp, false)]), p, Release(Raised))
    else At(s, p, Release(Raised))
  }

  function BeginWrite(s: State, p: Pid, g: Goal, o: Outcome): State
    requires p in s.procs
  {
    if o.Works? then At(s.(file := Torn), p, WriteEnd(g)) else At(s, p, AfterWrite(g, false))
  }

  function EndWrite(s: State, p: Pid, g: Goal, o: Outcome): State
    requires p in s.procs
  {
    if o.Works? || o.WorksThenRaises? then
      var fp := s.procs[p].fp;
      At(s.(file := Holds(fp, PhaseFor(g)), bound := if s.bound.None? then Some(fp) else s.bound),
         p, AfterWrite(g, o.Works?))
    else At(s, p, AfterWrite(g, false))
  }

  function Queue(s: State, p: Pid, id: JobId): State
    requires p in s.procs
  {
    s.(jobs := s.jobs + [Job(id, p, s.procs[p].fp, s.artifacts)])
  }

  function CallSbatch(s: State, p: Pid, o: Outcome): State
    requires p in s.procs
  {
    match o
    case Accepts(j) => At(Queue(s, p, j), p, WriteBegin(ToSubmitted(j)))
    case Refuses => At(s, p, WriteBegin(BackToPrepared))
    case RefusesButQueues(j) => At(Queue(s, p, j), p, WriteBegin(BackToPrepared))
    case LosesReply(Some(j)) => At(Queue(s, p, j), p, WriteBegin(StillUncertain))
    case _ => At(s, p, WriteBegin(StillUncertain))
  }

  // The first read of Submit, before any claim.
  function AfterSubmitRead(r: Reading, fp: Fingerprint): Pc {
    if !r.Content? || r.fp != fp then Finished(Raised)
    else match r.phase
      case Submitted(j) => Finished(Record(j, true))
      case Submitting => Wait
      case Prepared => SubmitClaim
  }

  // The second read of Submit, under the claim. An attempt found SUBMITTED is
  // answered without releasing the claim.
  function AfterSubmitReread(r: Reading, fp: Fingerprint): Pc {
    if !r.Content? || r.fp != fp then Release(Raised)
    else match r.phase
      case Submitted(j) => Finished(Record(j, true))
      case Submitting => Release(Raised)
      case Prepared => WriteBegin(ToSubmitting)
  }

  function AfterPoll(r: Reading, fp: Fingerprint): Pc {
    if r.Nothing? then Wait
    else if r.Unreadable? || r.fp != fp then Finished(Raised)
    else if r.phase.Submitted? then Finished(Record(r.phase.job, true))
    else Wait
  }

  // The re-read at the end of Prepare, just before PREPARED is written.
  function AfterConfirm(r: Reading, fp: Fingerprint): Pc {
    if r.Nothing? then WriteBegin(ToPrepared)
    else if r.Unreadable? || r.fp != fp then Release(Raised)
    else if r.phase.Prepared? then WriteBegin(ToPrepared)
    else Release(DryRun)
  }

  // Process p performs its next operation, which ends as o.
  function Act(s: State, p: Pid, o: Outcome): State
    requires p in s.procs
  {
    var fp := s.procs[p].fp;
    var r := Read(s, o);
    match s.procs[p].pc
    case PrepareCheck => At(s, p, if Preparable(r, fp) then PrepareClaim else Finished(Raised))
    case PrepareClaim => Claim(s, p, o, PrepareRecheck, Finished(Raised))
    case PrepareRecheck => At(s, p, if Preparable(r, fp) then Upload(0) else Release(Raised))
    case Upload(k) => UploadNext(s, p, k, o)
    case Confirm => At(s, p, AfterConfirm(r, fp))
    case SubmitRead => At(s, p, AfterSubmitRead(r, fp))
    case SubmitClaim => Claim(s, p, o, SubmitReread, Wait)
    case SubmitReread => At(s, p, AfterSubmitReread(r, fp))
    case Sbatch => CallSbatch(s, p, o)
    case Wait => At(s, p, if o.Expires? then Finished(Raised) else AfterPoll(r, fp))
    case WriteBegin(g) => BeginWrite(s, p, g, o)
    case WriteEnd(g) => EndWrite(s, p, g, o)
    case Release(reply) =>
      At(if TakesEffect(o) then s.(lock := None) else s, p, Finished(reply))
    case Finished(_) => s
    case Crashed => s
  }

  function Apply(s: State, e: Event): State {
    match e
    case StartPrepare(p, fp) =>
      if p in s.procs then s else s.(procs := s.procs[p := Process(fp, PrepareCheck)])
    case StartSubmit(p, fp) =>
      if p in s.procs then s else s.(procs := s.procs[p := Process(fp, SubmitRead)])
    case Crash(p) =>
      if p in s.procs && !s.procs[p].pc.Finished? then At(s, p, Crashed) else s
    case Go(p, o) =>
      if p in s.procs then Act(s, p, o) else s
  }

  function Run(s: State, es: seq<Event>): State
    decreases |es|
  {
    if es == [] then s else Run(Apply(s, es[0]), es[1..])
  }
}
