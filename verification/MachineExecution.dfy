/**
 The machine API over the submission protocol (compute_api/execution.py:633-720):
 PUT requests, lookups and scheduler refreshes of one attempt, each working from
 what it last read of the remote state, while the rest of the ledger goes on.

 PUT number i owns the remote processes 2*i (its Prepare) and 2*i + 1 (its
 Submit). As in SubmissionProtocol, an event that cannot happen changes nothing.
 */
module MachineExecution {
  import opened Wrappers
  import opened SubmissionProtocol
  import L = Ledger

  type PutId = nat

  datatype PutPc =
    | FirstRead | Preparing | ReadPrepared | RecordPrepared | Reserving
    | SubmittingJob | ReadSubmitted(sbatchRan: bool) | Releasing
    | RecordFinal(seen: Phase) | Answered

  datatype Put = Put(pc: PutPc, wantsJob: bool)

  // `attempt` is the attempt all PUTs and lookups below are about; `lookups`
  // holds the reading of each lookup that has read but not yet recorded.
  datatype World = World(
    attempt: L.AttemptId,
    fp: Fingerprint,
    remote: State,
    ledger: L.LedgerState,
    puts: map<PutId, Put>,
    lookups: map<nat, Phase>)

  datatype WorldEvent =
    | StartPut(i: PutId, wantsJob: bool)
    | PutStep(i: PutId, ok: bool, now: nat) // ok: the step's own call works
    | Remote(e: Event)
    | CrashPut(i: PutId)
    | LookupRead(k: nat)
    | LookupRecord(k: nat, now: nat)
    | Elsewhere(le: L.LedgerEvent)          // other attempts; any scheduler refresh

  function PreparePid(i: PutId): Pid { 2 * i }
  function SubmitPid(i: PutId): Pid { 2 * i + 1 }

  function LivePuts(w: World): set<PutId> {
    set i | i in w.puts && !w.puts[i].pc.Answered?
  }

  function GoTo(w: World, i: PutId, pc: PutPc): World
    requires i in w.puts
  {
    w.(puts := w.puts[i := w.puts[i].(pc := pc)])
  }

  predicate Over(remote: State, p: Pid) {
    p !in remote.procs || remote.procs[p].pc.Finished? || remote.procs[p].pc.Crashed?
  }

  // Where a PUT goes after reading the remote state; nothing readable, or
  // another specification's state, ends it.
  function AfterRead(w: World, ifAbsent: PutPc, ifPrepared: PutPc): PutPc {
    if w.remote.file.Absent? then ifAbsent
    else if w.remote.file.Torn? || w.remote.file.fp != w.fp then Answered
    else if w.remote.file.phase.Prepared? then ifPrepared
    else RecordFinal(w.remote.file.phase)
  }

  function Recorded(w: World, p: L.Policy, e: L.LedgerEvent): World {
    w.(ledger := L.Step(w.ledger, p, e))
  }

  function Submission(w: World): L.Submission
    requires w.attempt in w.ledger.records
  {
    w.ledger.records[w.attempt].submission
  }

  function StepPut(w: World, p: L.Policy, i: PutId, ok: bool, now: nat): World
    requires i in w.puts && w.attempt in w.ledger.records
  {
    match w.puts[i].pc
    case FirstRead =>
      var pc := if ok then AfterRead(w, Preparing, RecordPrepared) else Answered;
      var w' := if pc.Preparing? then w.(remote := Apply(w.remote, StartPrepare(PreparePid(i), w.fp))) else w;
      GoTo(w', i, pc)
    case Preparing => if Over(w.remote, PreparePid(i)) then GoTo(w, i, ReadPrepared) else w
    case ReadPrepared => GoTo(w, i, if ok then AfterRead(w, Answered, RecordPrepared) else Answered)
    case RecordPrepared => // not ok: the prepared runtime package has changed
      if !ok then GoTo(w, i, Answered)
      else GoTo(Recorded(w, p, L.RecordRemote(w.attempt, Some(Prepared), now)), i,
                if w.puts[i].wantsJob then Reserving else Answered)
    case Reserving =>
      var principal := w.ledger.records[w.attempt].binding.principal;
      var w' := Recorded(w, p, L.Reserve(w.attempt, principal, now, now));
      if L.Counted(Submission(w').status)
      then GoTo(w'.(remote := Apply(w'.remote, StartSubmit(SubmitPid(i), w.fp))), i, SubmittingJob)
      else GoTo(w', i, Answered)
    case SubmittingJob => // ok: the remote call ended with an exit code
      if Over(w.remote, SubmitPid(i)) then GoTo(w, i, ReadSubmitted(ok)) else w
    case ReadSubmitted(sbatchRan) =>
      GoTo(w, i, if ok then AfterRead(w, Answered, if sbatchRan then Releasing else Answered) else Answered)
    case Releasing => GoTo(Recorded(w, p, L.ReleaseReservation(w.attempt, now)), i, Answered)
    case RecordFinal(seen) => GoTo(Recorded(w, p, L.RecordRemote(w.attempt, Some(seen), now)), i, Answered)
    case Answered => w
  }

  // A remote process runs only while its PUT waits for it.
  predicate Waits(w: World, p: Pid) {
    p / 2 in w.puts && w.puts[p / 2].pc == (if p % 2 == 0 then Preparing else SubmittingJob)
  }

  // `limit` is how many PUTs of the attempt may be in flight at once.
  function ApplyWorld(w: World, p: L.Policy, limit: nat, e: WorldEvent): World {
    if w.attempt !in w.ledger.records then w
    else match e
      case StartPut(i, wantsJob) =>
        if i in w.puts || |LivePuts(w)| >= limit then w
        else w.(puts := w.puts[i := Put(FirstRead, wantsJob)])
      case PutStep(i, ok, now) => if i in w.puts then StepPut(w, p, i, ok, now) else w
      case Remote(re) =>
        if re.Go? && Waits(w, re.p) then w.(remote := Apply(w.remote, re)) else w
      case CrashPut(i) =>
        if i !in w.puts then w
        else GoTo(w.(remote := Apply(Apply(w.remote, Crash(PreparePid(i))), Crash(SubmitPid(i)))), i, Answered)
      case LookupRead(k) =>
        if w.remote.file.Holds? && w.remote.file.fp == w.fp
        then w.(lookups := w.lookups[k := w.remote.file.phase]) else w
      case LookupRecord(k, now) =>
        if k in w.lookups then Recorded(w, p, L.RecordRemote(w.attempt, Some(w.lookups[k]), now)) else w
      case Elsewhere(le) =>
        if le.id != w.attempt || le.RefreshScheduler? then Recorded(w, p, le) else w
  }

  function RunWorld(w: World, p: L.Policy, limit: nat, es: seq<WorldEvent>): World
    decreases |es|
  {
    if es == [] then w else RunWorld(ApplyWorld(w, p, limit, es[0]), p, limit, es[1..])
  }

  predicate Truthful(es: seq<WorldEvent>) {
    forall i :: 0 <= i < |es| && es[i].Remote? ==> Allowed(TRUTHFUL, es[i].e)
  }

  // An attempt has just been bound: nothing has been done remotely yet.
  predicate Bound(w: World, files: nat) {
    && w.attempt in w.ledger.records
    && w.ledger.records[w.attempt].binding.fingerprint == w.fp
    && Submission(w) == L.Submission(L.NotRequested, None, None)
    && w.remote == Init(files) && w.puts == map[] && w.lookups == map[]
  }
}
