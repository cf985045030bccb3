/**
 The machine-API ledger as a transition system (compute_api/execution.py and
 compute_api/ledger.py). Every event is one critical section under the ledger
 lock, so any interleaving of concurrent requests is a sequence of events.

 The clock counts microseconds, as `utc_now` does; the stamps written into
 records are cut to whole seconds, as `isoformat` does.
 */
module Ledger {
  import opened Wrappers
  import opened SubmissionProtocol

  type AttemptId = nat
  type Principal = nat
  type Digest = nat

  // A run timestamp, as the number written YYYYMMDDHHMMSS.
  type RunTimestamp = nat

  const MICROS := 1_000_000

  function WholeSecond(now: nat): nat { now / MICROS }

  // The moment a stored stamp stands for once it is parsed again.
  function Moment(stamp: nat): nat { stamp * MICROS }

  datatype Policy = Policy(maxActive: nat, maxSubmissions: nat, maxNew: nat, window: nat)

  const POLICY := Policy(2, 5, 20, 24 * 3600 * MICROS)

  datatype Status = NotRequested | Reserved | SubmittedToSlurm | Uncertain | Released

  datatype AttemptState = Registered | IsPrepared | IsSubmitted | IsUncertain

  datatype Submission = Submission(status: Status, reservedAt: Option<nat>, jobId: Option<JobId>)

  datatype Scheduler = Scheduler(available: bool, terminal: bool)

  // What an attempt id is bound to when its record is created.
  datatype Binding = Binding(
    principal: Principal,
    requestHash: Digest,
    planDigest: Digest,
    fingerprint: Fingerprint,
    runTimestamp: RunTimestamp)

  datatype AttemptRecord = AttemptRecord(
    binding: Binding,
    createdAt: nat,
    state: AttemptState,
    submission: Submission,
    scheduler: Option<Scheduler>)

  type Records = map<AttemptId, AttemptRecord>

  function NewRecord(b: Binding, now: nat): AttemptRecord {
    AttemptRecord(b, WholeSecond(now), Registered, Submission(NotRequested, None, None), None)
  }

  // ------------------------------------------------------- record updates

  predicate Counted(status: Status) {
    status.Reserved? || status.SubmittedToSlurm? || status.Uncertain?
  }

  predicate Terminal(r: AttemptRecord) {
    r.scheduler.Some? && r.scheduler.value.terminal
  }

  predicate IsActive(r: AttemptRecord) {
    Counted(r.submission.status) && !Terminal(r)
  }

  predicate CountsTowardWindow(r: AttemptRecord, since: int) {
    && !r.submission.status.Released?
    && r.submission.reservedAt.Some? && Moment(r.submission.reservedAt.value) >= since
  }

  // What a (possibly stale) remote state does to a record.
  function WithRemoteState(r: AttemptRecord, seen: Option<Phase>, now: nat): AttemptRecord {
    match seen
    case None => r
    case Some(Prepared) => r.(state := IsPrepared)
    case Some(Submitting) =>
      r.(state := IsUncertain,
         submission := if r.submission.status.Reserved? || r.submission.status.NotRequested?
                       then r.submission.(status := Uncertain) else r.submission)
    case Some(Submitted(j)) =>
      r.(state := IsSubmitted,
         submission := Submission(
           SubmittedToSlurm,
           if r.submission.reservedAt.Some? then r.submission.reservedAt else Some(WholeSecond(now)),
           Some(j)))
  }

  function WithReservation(r: AttemptRecord, now: nat): AttemptRecord {
    r.(submission := r.submission.(status := Reserved, reservedAt := Some(WholeSecond(now))))
  }

  function WithRelease(r: AttemptRecord): AttemptRecord {
    r.(state := IsPrepared,
       submission := if r.submission.status.Reserved?
                     then r.submission.(status := Released) else r.submission)
  }

  function WithScheduler(r: AttemptRecord, found: Scheduler): AttemptRecord {
    r.(scheduler := Some(found))
  }

  // ----------------------------------------------------------------- caps

  function OwnedBy(records: Records, principal: Principal): set<AttemptId> {
    set id | id in records && records[id].binding.principal == principal
  }

  function ActiveIds(records: Records, principal: Principal): set<AttemptId> {
    set id | id in OwnedBy(records, principal) && IsActive(records[id])
  }

  function WindowIds(records: Records, principal: Principal, since: int): set<AttemptId> {
    set id | id in OwnedBy(records, principal) && CountsTowardWindow(records[id], since)
  }

  function CreatedIds(records: Records, principal: Principal, since: int): set<AttemptId> {
    set id | id in OwnedBy(records, principal) && Moment(records[id].createdAt) >= since
  }

  predicate TimestampTaken(records: Records, ts: RunTimestamp) {
    exists id :: id in records && records[id].binding.runTimestamp == ts
  }

  // --------------------------------------------------------------- events

  // `made` and `held` are history variables: the exact moments at which each record was
  // created and last stamped with a reservation. No operation reads them.
  datatype LedgerState = LedgerState(
    records: Records, clock: nat, made: map<AttemptId, nat>, held: map<AttemptId, nat>)

  const EMPTY := LedgerState(map[], 0, map[], map[])

  datatype LedgerEvent =
    | Create(id: AttemptId, binding: Binding, checkedAt: nat, now: nat)
    | RecordRemote(id: AttemptId, seen: Option<Phase>, now: nat)
    | Reserve(id: AttemptId, principal: Principal, checkedAt: nat, now: nat)
    | ReleaseReservation(id: AttemptId, now: nat)
    | RefreshScheduler(id: AttemptId, found: Scheduler, now: nat)

  predicate MayCreate(s: LedgerState, p: Policy, id: AttemptId, b: Binding, checkedAt: nat) {
    && id !in s.records && !TimestampTaken(s.records, b.runTimestamp)
    && |CreatedIds(s.records, b.principal, checkedAt - p.window)| < p.maxNew
  }

  datatype Grant = Unknown | AlreadyCounted | WindowFull | ActiveFull | Granted

  function ReserveVerdict(records: Records, p: Policy, id: AttemptId, principal: Principal, checkedAt: nat): Grant {
    if id !in records then Unknown
    else if Counted(records[id].submission.status) then AlreadyCounted
    else if |WindowIds(records, principal, checkedAt - p.window)| >= p.maxSubmissions then WindowFull
    else if |ActiveIds(records, principal)| >= p.maxActive then ActiveFull
    else Granted
  }

  // What an update event stores for an existing record, if it applies.
  function Updated(s: LedgerState, p: Policy, e: LedgerEvent): Option<AttemptRecord> {
    if e.id !in s.records || e.now < s.clock then None
    else
      var r := s.records[e.id];
      match e
      case Create(_, _, _, _) => None
      case RecordRemote(_, seen, now) => Some(WithRemoteState(r, seen, now))
      case Reserve(id, principal, checkedAt, now) =>
        if s.clock <= checkedAt <= now && ReserveVerdict(s.records, p, id, principal, checkedAt).Granted?
        then Some(WithReservation(r, now)) else None
      case ReleaseReservation(_, _) => Some(WithRelease(r))
      case RefreshScheduler(_, found, _) => // asked only about a job
        if r.submission.jobId.Some? then Some(WithScheduler(r, found)) else None
  }

  // The updates that stamp a record with a reservation.
  predicate Stamps(r: AttemptRecord, e: LedgerEvent) {
    e.Reserve? || (e.RecordRemote? && e.seen.Some? && e.seen.value.Submitted? && r.submission.reservedAt.None?)
  }

  function Step(s: LedgerState, p: Policy, e: LedgerEvent): LedgerState {
    if e.Create? then
      if s.clock <= e.checkedAt <= e.now && MayCreate(s, p, e.id, e.binding, e.checkedAt)
      then s.(records := s.records[e.id := NewRecord(e.binding, e.now)], clock := e.now, made := s.made[e.id := e.now])
      else s
    else match Updated(s, p, e)
      case None => s
      case Some(r) =>
        s.(records := s.records[e.id := r], clock := e.now,
           held := if Stamps(s.records[e.id], e) then s.held[e.id := e.now] else s.held)
  }

  function Steps(s: LedgerState, p: Policy, es: seq<LedgerEvent>): LedgerState
    decreases |es|
  {
    if es == [] then s else Steps(Step(s, p, es[0]), p, es[1..])
  }

  lemma {:induction false} StepsConcat(s: LedgerState, p: Policy, a: seq<LedgerEvent>, b: seq<LedgerEvent>)
    ensures Steps(s, p, a + b) == Steps(Steps(s, p, a), p, b)
    decreases |a|
  {
    if a == [] {
      assert a + b == b;
    } else {
      assert (a + b)[1..] == a[1..] + b;
      StepsConcat(Step(s, p, a[0]), p, a[1..], b);
    }
  }
}
