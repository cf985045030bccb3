/**
 The ledger object and the requests on it, as programs
 (compute_api/execution.py:263-452, 526-619; compute_api/ledger.py:129-228). Every
 program is shown to be a run of the events of Ledger, other requests' events
 included, so the results about runs hold for it.
 */
module AttemptLedger {
  import opened Wrappers
  import opened SubmissionProtocol
  import opened Ledger
  import opened LedgerTheorems
  import opened LedgerRequests

  class AttemptLedger {
    const policy: Policy
    ghost const first: LedgerState
    var records: Records
    var clock: nat
    ghost var made: map<AttemptId, nat>
    ghost var held: map<AttemptId, nat>
    ghost var trace: seq<LedgerEvent>

    ghost function Now(): LedgerState
      reads this
    {
      LedgerState(records, clock, made, held)
    }

    ghost predicate Valid()
      reads this
    {
      Now() == Steps(first, policy, trace)
    }

    constructor (policy: Policy)
      ensures Valid() && this.policy == policy && first == EMPTY && trace == []
    {
      this.policy, this.first, records, clock, made, held, trace := policy, EMPTY, map[], 0, map[], map[], [];
    }

    // What has been added to the trace is what has happened since.
    lemma Since(was: seq<LedgerEvent>, es: seq<LedgerEvent>)
      requires Valid() && trace == was + es
      ensures Now() == Steps(Steps(first, policy, was), policy, es)
    {
      StepsConcat(first, policy, was, es);
    }

    // Records that the event e has just been carried out on the state `before`.
    ghost method Note(before: LedgerState, e: LedgerEvent)
      requires before == Steps(first, policy, trace) && Now() == Step(before, policy, e)
      modifies this`trace
      ensures Valid() && trace == old(trace) + [e]
    {
      StepsLast(first, policy, trace, e);
      trace := trace + [e];
    }

    // -------------------------------------------------- one record at a time

    method RecordRemoteState(id: AttemptId, seen: Option<Phase>, wait: nat)
      returns (r: Result<AttemptRecord, Refusal>)
      requires Valid()
      modifies this
      ensures Valid() && Now() == Step(old(Now()), policy, RecordRemote(id, seen, old(clock) + wait))
      ensures trace == old(trace) + [RecordRemote(id, seen, old(clock) + wait)]
      ensures r == if id in old(records) then Success(records[id]) else Failure(LedgerInconsistent)
    {
      ghost var before := Now();
      var now := clock + wait;
      if id !in records {
        r := Failure(LedgerInconsistent);
      } else {
        var record := records[id];
        var submission := record.submission;
        match seen {
          case None =>
          case Some(Prepared) => record := record.(state := IsPrepared);
          case Some(Submitting) =>
            record := record.(state := IsUncertain);
            if submission.status.Reserved? || submission.status.NotRequested? {
              submission := submission.(status := Uncertain);
            }
          case Some(Submitted(job)) =>
            record := record.(state := IsSubmitted);
            submission := submission.(status := SubmittedToSlurm, jobId := Some(job));
            if submission.reservedAt.None? {
              submission := submission.(reservedAt := Some(WholeSecond(now)));
            }
        }
        record := record.(submission := submission);
        if Stamps(records[id], RecordRemote(id, seen, now)) { held := held[id := now]; }
        records, clock := records[id := record], now;
        r := Success(record);
      }
      Note(before, RecordRemote(id, seen, now));
    }

    method ReleaseReservation(id: AttemptId, wait: nat) returns (r: Result<AttemptRecord, Refusal>)
      requires Valid()
      modifies this
      ensures Valid() && Now() == Step(old(Now()), policy, Ledger.ReleaseReservation(id, old(clock) + wait))
      ensures trace == old(trace) + [Ledger.ReleaseReservation(id, old(clock) + wait)]
      ensures r == if id in old(records) then Success(records[id]) else Failure(LedgerInconsistent)
    {
      ghost var before := Now();
      var now := clock + wait;
      if id !in records {
        r := Failure(LedgerInconsistent);
      } else {
        var record := records[id];
        if record.submission.status.Reserved? {
          record := record.(submission := record.submission.(status := Released));
        }
        record := record.(state := IsPrepared);
        records, clock := records[id := record], now;
        r := Success(record);
      }
      Note(before, Ledger.ReleaseReservation(id, now));
    }

    // A record without a job is returned as it is. Where the record that was read has a job,
    // the stored one has, by JobIsForever.
    method RefreshScheduler(id: AttemptId, stale: AttemptRecord, news: News)
      returns (r: Result<AttemptRecord, Refusal>)
      requires Valid()
      requires stale.submission.jobId.Some? && id in records ==> records[id].submission.jobId.Some?
      modifies this
      ensures Valid() && trace == old(trace) + SchedulerEvents(old(Now()), id, stale, news)
      ensures Now() == Steps(old(Now()), policy, SchedulerEvents(old(Now()), id, stale, news))
      ensures stale.submission.jobId.None? ==> r == Success(stale)
      ensures stale.submission.jobId.Some? && id in old(records) ==> id in records && r == Success(records[id])
      ensures stale.submission.jobId.Some? && id !in old(records) ==> r == Failure(LedgerInconsistent)
    {
      if stale.submission.jobId.None? { return Success(stale); }
      ghost var before := Now();
      var now := clock + news.writtenAfter;
      var found := SchedulerNews(stale, news.monitored);
      if id !in records {
        r := Failure(LedgerInconsistent);
      } else {
        var record := records[id].(scheduler := Some(found));
        records, clock := records[id := record], now;
        r := Success(record);
      }
      StepsLast(before, policy, [], Ledger.RefreshScheduler(id, found, now));
      Note(before, Ledger.RefreshScheduler(id, found, now));
    }

    // ------------------------------------------------------ other requests

    // Any other requests act, each event one critical section.
    method Others(es: seq<LedgerEvent>)
      requires Valid()
      modifies this
      ensures Valid() && Now() == Steps(old(Now()), policy, es) && trace == old(trace) + es
    {
      var state: Records, time: nat, i := records, clock, 0;
      ghost var shadow := Now();
      while i < |es|
        invariant 0 <= i <= |es| && state == shadow.records && time == shadow.clock
        invariant shadow == Steps(Now(), policy, es[..i])
        invariant Now() == old(Now()) && trace == old(trace) && Valid()
      {
        StepsLast(Now(), policy, es[..i], es[i]);
        assert es[..i] + [es[i]] == es[..i + 1];
        var e := es[i];
        shadow := Step(shadow, policy, e);
        var s := LedgerState(state, time, map[], map[]);
        if e.Create? {
          if time <= e.checkedAt <= e.now && MayCreate(s, policy, e.id, e.binding, e.checkedAt) {
            state, time := state[e.id := NewRecord(e.binding, e.now)], e.now;
          }
        } else {
          var changed := Updated(s, policy, e);
          if changed.Some? { state, time := state[e.id := changed.value], e.now; }
        }
        i := i + 1;
      }
      assert es[..i] == es;
      StepsConcat(first, policy, trace, es);
      records, clock, made, held, trace := state, time, shadow.made, shadow.held, trace + es;
    }

    // --------------------------------------------------------------- caps

    // Counts the records of a principal that a test picks out.
    method CountWhere(principal: Principal, test: AttemptRecord -> bool) returns (n: nat)
      ensures n == |set id | id in OwnedBy(records, principal) && test(records[id])|
    {
      n := 0;
      var left := records.Keys;
      ghost var counted: set<AttemptId> := {};
      while left != {}
        invariant left <= records.Keys && n == |counted|
        invariant counted == set id | id in OwnedBy(records, principal) && id !in left && test(records[id])
        decreases left
      {
        var id :| id in left;
        left := left - {id};
        if records[id].binding.principal == principal && test(records[id]) {
          n := n + 1;
          counted := counted + {id};
        }
      }
      assert counted == set id | id in OwnedBy(records, principal) && test(records[id]);
    }

    method OverCaps(principal: Principal, checkedAt: nat) returns (windowFull: bool, activeFull: bool)
      ensures windowFull <==> |WindowIds(records, principal, checkedAt - policy.window)| >= policy.maxSubmissions
      ensures activeFull <==> |ActiveIds(records, principal)| >= policy.maxActive
    {
      var since := checkedAt - policy.window;
      var inWindow := CountWhere(principal, r => CountsTowardWindow(r, since));
      assert (set id | id in OwnedBy(records, principal) && (r => CountsTowardWindow(r, since))(records[id]))
          == WindowIds(records, principal, since);
      var active := CountWhere(principal, r => IsActive(r));
      assert (set id | id in OwnedBy(records, principal) && (r => IsActive(r))(records[id]))
          == ActiveIds(records, principal);
      windowFull, activeFull := inWindow >= policy.maxSubmissions, active >= policy.maxActive;
    }

    method CountCreated(principal: Principal, since: int) returns (n: nat)
      ensures n == |CreatedIds(records, principal, since)|
    {
      n := CountWhere(principal, (r: AttemptRecord) => Moment(r.createdAt) >= since);
      assert (set id | id in OwnedBy(records, principal) && ((r: AttemptRecord) => Moment(r.createdAt) >= since)(records[id]))
          == CreatedIds(records, principal, since);
    }

    // ------------------------------------------------------------ binding

    // The locked section of a try.
    method RegisterNew(q: Request, plan: RunTimestamp -> Plan, t: Try)
      returns (answer: Option<Result<AttemptRecord, Refusal>>)
      requires Valid()
      modifies this
      ensures Valid() && answer == Register(old(Now()), policy, q, plan, t).answer
      ensures trace == old(trace) + Register(old(Now()), policy, q, plan, t).events
    {
      if q.id in records || TimestampTaken(records, t.drawn) { return None; }
      var checkedAt := clock + t.wait;
      var created := CountCreated(q.principal, checkedAt - policy.window);
      if created >= policy.maxNew { return Some(Failure(AttemptCap)); }
      ghost var before := Now();
      var b, now := NewBinding(q, plan, t.drawn), checkedAt + t.work;
      var record := NewRecord(b, now);
      records, clock, made := records[q.id := record], now, made[q.id := now];
      assert MayCreate(before, policy, q.id, b, checkedAt);
      Note(before, Create(q.id, b, checkedAt, now));
      answer := Some(Success(record));
    }

    method TryOnce(q: Request, plan: RunTimestamp -> Plan, t: Try)
      returns (answer: Option<Result<AttemptRecord, Refusal>>)
      requires Valid()
      modifies this
      ensures Valid() && answer == Attempt(old(Now()), policy, q, plan, t).answer
      ensures trace == old(trace) + Attempt(old(Now()), policy, q, plan, t).events
    {
      ghost var s, was := Now(), trace;
      Others(t.before);
      if q.id in records { return Some(AnswerWith(records[q.id], q, plan)); }
      var problem := PlanProblem(plan(t.drawn), q);
      if problem.Some? { return Some(Failure(problem.value)); }
      Others(t.between);
      ghost var own := Register(Now(), policy, q, plan, t).events;
      answer := RegisterNew(q, plan, t);
      Regrouped(was, t.before, t.between);
      Regrouped(was, t.before + t.between, own);
    }

    // Binds an attempt id to one request of one principal, in at most five tries: answer
    // and events are those of Bind, of which BindsExactly tells the rest.
    method BindAttempt(q: Request, plan: RunTimestamp -> Plan, tries: seq<Try>)
      returns (r: Result<AttemptRecord, Refusal>)
      requires Valid() && |tries| == 5
      modifies this
      ensures Valid() && r == Bind(old(Now()), policy, q, plan, tries).result
      ensures trace == old(trace) + Bind(old(Now()), policy, q, plan, tries).events
    {
      ghost var s, was, events: seq<LedgerEvent> := Now(), trace, [];
      BindingBegins(s, policy, q, plan, tries);
      var i := 0;
      while i < |tries|
        invariant 0 <= i <= |tries| && Valid() && trace == was + events && Now() == Steps(s, policy, events)
        invariant BindingAt(s, policy, q, plan, tries, i, events)
      {
        BindingGoesOn(s, policy, q, plan, tries, i, events);
        ghost var next := Attempt(Now(), policy, q, plan, tries[i]).events;
        var answer := TryOnce(q, plan, tries[i]);
        Regrouped(was, events, next);
        events := events + next;
        Since(was, events);
        if answer.Some? { return answer.value; }
        i := i + 1;
      }
      BindingEnds(s, policy, q, plan, tries, events);
      r := Failure(AttemptBusy);
    }

    // ------------------------------------------------------- reservations

    // The ids of all records, in ascending order.
    method ListIds() returns (ids: seq<AttemptId>)
      ensures ids == Ascending(records.Keys)
    {
      ids := [];
      var left := records.Keys;
      while left != {}
        invariant ids + Ascending(left) == Ascending(records.Keys)
        decreases left
      {
        LeastExists(left);
        var id :| IsLeast(left, id);
        AscendingMoves(ids, left, id);
        ids, left := ids + [id], left - {id};
      }
    }

    // Records a submission that was read, and then asks the scheduler about its job.
    method RecordAndRefresh(id: AttemptId, news: News)
      requires Valid() && SaysSubmitted(news.reading)
      modifies this
      ensures Valid() && trace == old(trace) + SubmissionEvents(old(Now()), policy, id, news)
    {
      var r := RecordRemoteState(id, news.reading.seen, news.recordedAfter);
      if r.Failure? { return; }
      var _ := RefreshScheduler(id, r.value, news);
    }

    method RefreshOne(id: AttemptId, listed: AttemptRecord, news: News)
      requires Valid()
      requires listed.submission.jobId.Some? ==> id in records && records[id].submission.jobId.Some?
      modifies this
      ensures Valid() && trace == old(trace) + RefreshEvents(old(Now()), policy, id, listed, news)
    {
      ghost var was := trace;
      if listed.submission.jobId.Some? { JobIsForever(Now(), policy, news.others, id); }
      Others(news.others);
      var record := listed;
      if Pending(record) {
        if news.reading.Unusable? { return; }
        if SaysSubmitted(news.reading) {
          ghost var told := SubmissionEvents(Now(), policy, id, news);
          RecordAndRefresh(id, news);
          Regrouped(was, news.others, told);
          return;
        }
      }
      ghost var last := SchedulerEvents(Now(), id, record, news);
      var _ := RefreshScheduler(id, record, news);
      Regrouped(was, news.others, last);
    }

    method RefreshTurn(listed: Records, id: AttemptId, principal: Principal, exclude: AttemptId, news: AttemptId -> News)
      requires Valid()
      requires id in listed && listed[id].submission.jobId.Some? ==> id in records && records[id].submission.jobId.Some?
      modifies this
      ensures Valid() && trace == old(trace) + TurnEvents(old(Now()), policy, listed, id, principal, exclude, news)
    {
      if IsRefreshed(listed, id, principal, exclude) { RefreshOne(id, listed[id], news(id)); }
    }

    // Brings the other active records of the principal up to date, one after the other.
    method RefreshActiveRecords(principal: Principal, exclude: AttemptId, news: AttemptId -> News)
      requires Valid()
      modifies this
      ensures Valid()
      ensures trace == old(trace)
        + RefreshAll(old(Now()), policy, old(records), Ascending(old(records).Keys), principal, exclude, news)
    {
      ghost var s, was, events: seq<LedgerEvent> := Now(), trace, [];
      var listed := records;
      var ids := ListIds();
      RefreshingBegins(s, policy, listed, ids, principal, exclude, news);
      var i := 0;
      while i < |ids|
        invariant 0 <= i <= |ids| && Valid() && trace == was + events && Now() == Steps(s, policy, events)
        invariant listed == s.records
        invariant RefreshingAt(s, policy, listed, ids, principal, exclude, news, i, events)
      {
        RefreshingGoesOn(s, policy, listed, ids, principal, exclude, news, i, events);
        ghost var next := TurnEvents(Now(), policy, listed, ids[i], principal, exclude, news);
        StillHasJob(s, policy, events, ids[i]);
        RefreshTurn(listed, ids[i], principal, exclude, news);
        Regrouped(was, events, next);
        events := events + next;
        Since(was, events);
        i := i + 1;
      }
      RefreshingEnds(s, policy, listed, ids, principal, exclude, news, events);
    }

    // Whether the first locked look finds only the active cap in the way.
    method FirstLook(id: AttemptId, principal: Principal, a: Surroundings) returns (needed: bool)
      requires Valid() && id in records && !Counted(records[id].submission.status)
      ensures needed == NeedsRefresh(Now(), policy, id, principal, a)
    {
      NeedsRefreshExactly(Now(), policy, id, principal, a);
      var windowFull, activeFull := OverCaps(principal, clock + a.look);
      needed := activeFull && !windowFull;
    }

    // The locked section that decides: what is granted leaves the principal within both caps.
    method DecideReservation(id: AttemptId, principal: Principal, wait: nat, work: nat) returns (r: Option<Refusal>)
      requires Valid() && id in records
      modifies this
      ensures Valid() && r == Decide(old(Now()), policy, id, principal, wait, work).refusal
      ensures trace == old(trace) + Decide(old(Now()), policy, id, principal, wait, work).events
      ensures GrantAt(old(Now()), policy, id, principal, wait).Granted? ==>
        && id in records && records[id].submission.status.Reserved?
        && |WindowIds(records, principal, old(clock) + wait - policy.window)| <= policy.maxSubmissions
        && |ActiveIds(records, principal)| <= policy.maxActive
    {
      ghost var before := Now();
      if Counted(records[id].submission.status) { return None; }
      var checkedAt, now := clock + wait, clock + wait + work;
      var windowFull, activeFull := OverCaps(principal, checkedAt);
      if windowFull { return Some(SubmissionCap); }
      if activeFull { return Some(ActiveCap); }
      var record := records[id];
      var submission := record.submission.(status := Reserved, reservedAt := Some(WholeSecond(now)));
      records, clock, held := records[id := record.(submission := submission)], now, held[id := now];
      GrantWrites(before, policy, id, principal, checkedAt, now);
      Note(before, Reserve(id, principal, checkedAt, now));
      GrantsStayWithinCaps(before, policy, Reserve(id, principal, checkedAt, now));
      r := None;
    }

    // Reserves a submission: a first locked look, a refresh when only the active cap is
    // in the way, and then the locked section that decides. Others act in between.
    method ReserveSubmission(id: AttemptId, principal: Principal, a: Surroundings) returns (r: Option<Refusal>)
      requires Valid() && id in records
      modifies this
      ensures Valid() && r == Reservation(old(Now()), policy, id, principal, a).refusal
      ensures trace == old(trace) + Reservation(old(Now()), policy, id, principal, a).events
    {
      ghost var s, was := Now(), trace;
      if Counted(records[id].submission.status) { return None; }
      NeedsRefreshExactly(s, policy, id, principal, a);
      var needed := FirstLook(id, principal, a);
      if needed { RefreshActiveRecords(principal, id, a.news); }
      Others(a.between);
      ghost var refresh := RefreshFirst(s, policy, id, principal, a);
      Regrouped(was, refresh, a.between);
      Since(was, refresh + a.between);
      BindingIsForever(s, policy, refresh + a.between, id);
      ghost var own := Decide(Now(), policy, id, principal, a.wait, a.work).events;
      r := DecideReservation(id, principal, a.wait, a.work);
      Regrouped(was, refresh + a.between, own);
    }
  }
}
