/**
 The documented caps (docs/machine_api.md:296-304) over whole runs of the ledger. First, how
 many attempts one principal can create in any stretch of time, not only in the stretches
 that end at a creation (compute_api/execution.py:583-615); then active jobs and submissions
 (compute_api/execution.py:344-381), and what has to be kept out of a run for them to hold.
 */
module LedgerCaps {
  import opened Wrappers
  import opened SubmissionProtocol
  import opened Ledger
  import opened LedgerTheorems
  import opened LedgerRequests

  // ------------------------------------------------- creations in a rolling day

  // The records the principal created in the closed stretch [from, from + length].
  function MadeIn(s: LedgerState, principal: Principal, from: nat, length: int): set<AttemptId> {
    set id | id in s.records && id in s.made
      && s.records[id].binding.principal == principal && from <= s.made[id] <= from + length
  }

  ghost predicate WindowsHold(s: LedgerState, p: Policy, length: int) {
    forall principal: Principal, from: nat :: |MadeIn(s, principal, from, length)| <= p.maxNew
  }

  // Every creation stamp is at most `slack` microseconds behind the moment it records.
  predicate Punctual(s: LedgerState, slack: nat) {
    forall id :: id in s.records && id in s.made ==> Moment(s.records[id].createdAt) >= s.made[id] - slack
  }

  predicate PunctualEvents(es: seq<LedgerEvent>, slack: nat) {
    forall i :: 0 <= i < |es| && es[i].Create? ==> Moment(WholeSecond(es[i].now)) >= es[i].now - slack
  }

  // A record made inside the stretch is among those the check counted.
  lemma MadeIsCounted(s: LedgerState, p: Policy, id: AttemptId, principal: Principal,
                      from: nat, length: int, slack: nat, checkedAt: nat, now: nat)
    requires LedgerInv(s) && Punctual(s, slack) && length <= p.window - slack
    requires checkedAt <= now <= from + length && id in MadeIn(s, principal, from, length)
    ensures id in CreatedIds(s.records, principal, checkedAt - p.window)
  {
    assert Moment(s.records[id].createdAt) >= s.made[id] - slack;
  }

  lemma MadeAreCounted(s: LedgerState, p: Policy, principal: Principal,
                       from: nat, length: int, slack: nat, checkedAt: nat, now: nat)
    requires LedgerInv(s) && Punctual(s, slack) && length <= p.window - slack
    requires checkedAt <= now <= from + length
    ensures MadeIn(s, principal, from, length) <= CreatedIds(s.records, principal, checkedAt - p.window)
  {
    forall id | id in MadeIn(s, principal, from, length)
      ensures id in CreatedIds(s.records, principal, checkedAt - p.window)
    {
      MadeIsCounted(s, p, id, principal, from, length, slack, checkedAt, now);
    }
  }

  // A new record adds only itself, and there was room for it.
  lemma MadeAfterCreate(s: LedgerState, p: Policy, e: LedgerEvent, from: nat, length: int)
    requires e.Create? && s.clock <= e.checkedAt <= e.now
    requires MayCreate(s, p, e.id, e.binding, e.checkedAt)
    ensures MadeIn(Step(s, p, e), e.binding.principal, from, length)
         <= MadeIn(s, e.binding.principal, from, length) + {e.id}
    ensures |CreatedIds(s.records, e.binding.principal, e.checkedAt - p.window)| < p.maxNew
  {
  }

  lemma OneMore(made: set<AttemptId>, counted: set<AttemptId>, id: AttemptId)
    requires made <= counted + {id}
    ensures |made| <= |counted| + 1
  {
    SubsetCard(made, counted + {id});
    WithoutOneCard(counted, id);
  }

  lemma NewAttemptInWindow(s: LedgerState, p: Policy, e: LedgerEvent, from: nat, length: int, slack: nat)
    requires LedgerInv(s) && e.Create? && Punctual(s, slack) && length <= p.window - slack
    requires s.clock <= e.checkedAt <= e.now && from <= e.now <= from + length
    requires MayCreate(s, p, e.id, e.binding, e.checkedAt)
    ensures |MadeIn(Step(s, p, e), e.binding.principal, from, length)| <= p.maxNew
  {
    MadeAreCounted(s, p, e.binding.principal, from, length, slack, e.checkedAt, e.now);
    MadeAfterCreate(s, p, e, from, length);
    OneMore(MadeIn(Step(s, p, e), e.binding.principal, from, length),
            CreatedIds(s.records, e.binding.principal, e.checkedAt - p.window), e.id);
  }

  // A step that creates nothing of the principal's inside the stretch changes nothing there.
  lemma MadeUnchanged(s: LedgerState, p: Policy, e: LedgerEvent, principal: Principal, from: nat, length: int)
    requires !e.Create? || Step(s, p, e) == s || e.binding.principal != principal || !(from <= e.now <= from + length)
    requires s.made.Keys == s.records.Keys
    ensures MadeIn(Step(s, p, e), principal, from, length) == MadeIn(s, principal, from, length)
  {
  }

  lemma WindowStep(s: LedgerState, p: Policy, e: LedgerEvent, length: int, slack: nat)
    requires LedgerInv(s) && WindowsHold(s, p, length) && Punctual(s, slack) && length <= p.window - slack
    ensures WindowsHold(Step(s, p, e), p, length)
  {
    var s' := Step(s, p, e);
    forall principal: Principal, from: nat ensures |MadeIn(s', principal, from, length)| <= p.maxNew {
      if !e.Create? || s' == s || e.binding.principal != principal || !(from <= e.now <= from + length) {
        MadeUnchanged(s, p, e, principal, from, length);
      } else {
        NewAttemptInWindow(s, p, e, from, length, slack);
      }
    }
  }

  lemma PunctualStep(s: LedgerState, p: Policy, e: LedgerEvent, slack: nat)
    requires LedgerInv(s) && Punctual(s, slack) && PunctualEvents([e], slack)
    ensures Punctual(Step(s, p, e), slack)
  {
    assert [e][0] == e;
  }

  lemma {:induction false} WindowRun(s: LedgerState, p: Policy, es: seq<LedgerEvent>, length: int, slack: nat)
    requires LedgerInv(s) && WindowsHold(s, p, length) && length <= p.window - slack
    requires Punctual(s, slack) && PunctualEvents(es, slack)
    ensures WindowsHold(Steps(s, p, es), p, length)
    decreases |es|
  {
    if es != [] {
      WindowStep(s, p, es[0], length, slack);
      StepInv(s, p, es[0]);
      PunctualStep(s, p, es[0], slack);
      WindowRun(Step(s, p, es[0]), p, es[1..], length, slack);
    }
  }

  lemma EmptyWindows(p: Policy, length: int)
    ensures WindowsHold(EMPTY, p, length)
  {
    forall principal: Principal, from: nat ensures |MadeIn(EMPTY, principal, from, length)| <= p.maxNew {
      assert MadeIn(EMPTY, principal, from, length) == {};
    }
  }

  // With a clock that ticks in whole seconds nothing is cut off, and the cap holds over
  // every stretch as long as the whole window.
  lemma WholeSecondWindows(p: Policy, es: seq<LedgerEvent>)
    requires forall i :: 0 <= i < |es| ==> es[i].now % MICROS == 0
    ensures WindowsHold(Steps(EMPTY, p, es), p, p.window)
  {
    EmptyWindows(p, p.window);
    WindowRun(EMPTY, p, es, p.window, 0);
  }

  // ------------------------------------------------ one second short of sharp

  function Fresh(n: nat): Binding { Binding(1, 0, 0, 0, n) }

  // Records 1..k created at `now`, next to record 0, which is older than the window.
  ghost predicate Filled(s: LedgerState, k: nat, early: nat, now: nat) {
    && s.clock <= now && s.records.Keys == s.made.Keys
    && (forall id: AttemptId :: id in s.records <==> id <= k)
    && (forall id :: id in s.records ==> s.records[id] == NewRecord(Fresh(id), s.made[id]))
    && (forall id :: id in s.records ==> s.made[id] == if id == 0 then early else now)
  }

  lemma {:induction false} Range(s: set<AttemptId>, k: nat)
    requires forall id: nat :: id in s <==> 1 <= id <= k
    ensures |s| == k
  {
    if k == 0 {
      assert s == {};
    } else {
      Range(s - {k}, k - 1);
    }
  }

  lemma FillOne(s: LedgerState, p: Policy, k: nat, early: nat, now: nat)
    requires Filled(s, k, early, now) && k < p.maxNew
    requires Moment(WholeSecond(early)) < now - p.window <= Moment(WholeSecond(now))
    ensures Filled(Step(s, p, Create(k + 1, Fresh(k + 1), now, now)), k + 1, early, now)
  {
    var counted := CreatedIds(s.records, 1, now - p.window);
    forall id: AttemptId ensures id in counted <==> 1 <= id <= k {}
    Range(counted, k);
    assert MayCreate(s, p, k + 1, Fresh(k + 1), now);
  }

  lemma {:induction false} FillAll(p: Policy, k: nat, early: nat, now: nat) returns (es: seq<LedgerEvent>)
    requires k <= p.maxNew && 0 < p.maxNew && early <= now
    requires Moment(WholeSecond(early)) < now - p.window <= Moment(WholeSecond(now))
    ensures Filled(Steps(EMPTY, p, es), k, early, now)
  {
    if k == 0 {
      es := [Create(0, Fresh(0), early, early)];
      assert CreatedIds(EMPTY.records, 1, early - p.window) == {};
      assert MayCreate(EMPTY, p, 0, Fresh(0), early);
      var s := Step(EMPTY, p, es[0]);
      assert Steps(EMPTY, p, es) == Steps(s, p, es[1..]) == s;
    } else {
      var before := FillAll(p, k - 1, early, now);
      var e := Create(k, Fresh(k), now, now);
      es := before + [e];
      var s := Steps(EMPTY, p, before);
      FillOne(s, p, k - 1, early, now);
      StepsConcat(EMPTY, p, before, [e]);
      assert Steps(s, p, [e]) == Step(s, p, e);
    }
  }

  // The cut to whole seconds lets one attempt too many into a stretch that is
  // 999998 microseconds shorter than the window.
  lemma OneTooMany(p: Policy) returns (es: seq<LedgerEvent>, from: nat)
    requires 0 < p.maxNew && MICROS <= p.window
    ensures |MadeIn(Steps(EMPTY, p, es), 1, from, p.window - (MICROS - 2))| == p.maxNew + 1
  {
    from := MICROS - 1;
    var now := from + p.window - (MICROS - 2);
    es := FillAll(p, p.maxNew, from, now);
    var s := Steps(EMPTY, p, es);
    var made := MadeIn(s, 1, from, p.window - (MICROS - 2));
    assert 0 in s.records;
    Range(made - {0}, p.maxNew);
    WithoutOneCard(made, 0);
  }

  // Over every run with a non-decreasing clock, every stretch of the given
  // length contains at most `maxNew` creations of one principal, exactly when
  // the length is at least 999999 microseconds short of the policy's window.
  lemma RollingWindowExactly(p: Policy, length: int)
    requires 0 < p.maxNew && MICROS <= p.window
    ensures (forall es :: WindowsHold(Steps(EMPTY, p, es), p, length)) <==> length <= p.window - (MICROS - 1)
  {
    if length <= p.window - (MICROS - 1) {
      EmptyWindows(p, length);
      forall es ensures WindowsHold(Steps(EMPTY, p, es), p, length) {
        WindowRun(EMPTY, p, es, length, MICROS - 1);
      }
    } else {
      var es, from := OneTooMany(p);
      var s := Steps(EMPTY, p, es);
      SubsetCard(MadeIn(s, 1, from, p.window - (MICROS - 2)), MadeIn(s, 1, from, length));
      assert !WindowsHold(s, p, length);
    }
  }

  // ------------------------------------------------ active jobs and submissions

  // late: a submission may be recorded on a record whose reservation has been released.
  // takesBack: the scheduler may report a finished job as unfinished again.
  datatype Surprises = Surprises(late: bool, takesBack: bool)

  const NO_SURPRISES := Surprises(false, false)

  predicate IsLate(s: LedgerState, e: LedgerEvent) {
    && e.RecordRemote? && e.id in s.records && s.records[e.id].submission.status.Released?
    && e.seen.Some? && e.seen.value.Submitted?
  }

  // Anything but PREPARED, read of an attempt for which nobody has asked for a reservation.
  // MachineLasting.UnaskedReadsPrepared shows that there is no such reading.
  predicate IsUnasked(s: LedgerState, e: LedgerEvent) {
    && e.RecordRemote? && e.id in s.records && s.records[e.id].submission.status.NotRequested?
    && e.seen.Some? && !e.seen.value.Prepared?
  }

  predicate TakesBack(s: LedgerState, e: LedgerEvent) {
    e.RefreshScheduler? && e.id in s.records && Terminal(s.records[e.id]) && !e.found.terminal
  }

  // Reservations are asked for by the principal of the record, as binding ensures.
  predicate Permitted(x: Surprises, s: LedgerState, e: LedgerEvent) {
    && (e.Reserve? && e.id in s.records ==> e.principal == s.records[e.id].binding.principal)
    && !IsUnasked(s, e)
    && (IsLate(s, e) ==> x.late)
    && (TakesBack(s, e) ==> x.takesBack)
  }

  predicate PermittedRun(x: Surprises, s: LedgerState, p: Policy, es: seq<LedgerEvent>)
    decreases |es|
  {
    es == [] || (Permitted(x, s, es[0]) && PermittedRun(x, Step(s, p, es[0]), p, es[1..]))
  }

  // Scheduler news takes "finished" back exactly if the stored record is finished and the
  // scheduler says that the job is not, or says nothing while the record that was read before
  // was not finished yet. Asked with the record as it is stored, only a denial takes it back.
  lemma NewsTakesBackExactly(s: LedgerState, id: AttemptId, stale: AttemptRecord, news: News, e: LedgerEvent)
    requires id in s.records && e in SchedulerEvents(s, id, stale, news)
    ensures TakesBack(s, e) <==>
      && Terminal(s.records[id])
      && (news.monitored == Answered(false) || (news.monitored.NoAnswer? && !Terminal(stale)))
    ensures stale == s.records[id] && TakesBack(s, e) ==> news.monitored == Answered(false)
  {
  }

  // A query that is not answered leaves the job as finished as the record said it was, and
  // changes nobody's active jobs; one that is answered leaves it as the scheduler says.
  lemma RefreshWrites(s: LedgerState, p: Policy, id: AttemptId, news: News)
    requires id in s.records && s.records[id].submission.jobId.Some?
    ensures var s' := Steps(s, p, SchedulerEvents(s, id, s.records[id], news));
      && s'.records.Keys == s.records.Keys
      && s'.records[id] == s.records[id].(scheduler := Some(
           match news.monitored
           case NoAnswer => Scheduler(false, s.records[id].scheduler.Some? && s.records[id].scheduler.value.terminal)
           case Answered(terminal) => Scheduler(true, terminal)))
      && (forall other :: other in s.records && other != id ==> s'.records[other] == s.records[other])
      && (news.monitored.NoAnswer? ==>
            forall principal: Principal :: ActiveIds(s'.records, principal) == ActiveIds(s.records, principal))
  {
    var es := SchedulerEvents(s, id, s.records[id], news);
    OneEvent(NO_SURPRISES, s, p, es[0]);
  }

  // --------------------------------------------------------- active jobs

  ghost predicate WithinActiveCap(s: LedgerState, p: Policy) {
    forall principal: Principal :: |ActiveIds(s.records, principal)| <= p.maxActive
  }

  lemma ActiveCapStep(s: LedgerState, p: Policy, e: LedgerEvent)
    requires WithinActiveCap(s, p) && Permitted(NO_SURPRISES, s, e)
    ensures WithinActiveCap(Step(s, p, e), p)
  {
    forall principal: Principal ensures |ActiveIds(Step(s, p, e).records, principal)| <= p.maxActive {
      ActiveCountRisesExactly(s, p, e, principal);
      if Activates(s, p, e, principal) { GrantsStayWithinCaps(s, p, e); }
    }
  }

  lemma {:induction false} ActiveCapRun(s: LedgerState, p: Policy, es: seq<LedgerEvent>)
    requires WithinActiveCap(s, p) && PermittedRun(NO_SURPRISES, s, p, es)
    ensures WithinActiveCap(Steps(s, p, es), p)
    decreases |es|
  {
    if es != [] {
      ActiveCapStep(s, p, es[0]);
      ActiveCapRun(Step(s, p, es[0]), p, es[1..]);
    }
  }

  // --------------------------------------------------------- submissions

  // The principal's submissions whose reservation was stamped in the closed stretch
  // [from, from + length] of the exact clock.
  function HeldIn(s: LedgerState, principal: Principal, from: nat, length: int): set<AttemptId> {
    set id | id in OwnedBy(s.records, principal) && InStretch(s, id, from, length)
  }

  predicate InStretch(s: LedgerState, id: AttemptId, from: nat, length: int)
    requires id in s.records
  {
    && !s.records[id].submission.status.Released? && s.records[id].submission.reservedAt.Some?
    && id in s.held && from <= s.held[id] <= from + length
  }

  ghost predicate WithinSubmissionCap(s: LedgerState, p: Policy, length: int) {
    forall principal: Principal, from: nat :: |HeldIn(s, principal, from, length)| <= p.maxSubmissions
  }

  // Every counted record has a stamp, and every stamp is the whole second of its moment.
  predicate Stamped(s: LedgerState) {
    forall id :: id in s.records ==>
      var sub := s.records[id].submission;
      && (Counted(sub.status) ==> sub.reservedAt.Some?)
      && (sub.reservedAt.Some? ==>
            id in s.held && s.held[id] <= s.clock && sub.reservedAt.value == WholeSecond(s.held[id]))
  }

  lemma StampedStep(s: LedgerState, p: Policy, e: LedgerEvent)
    requires Stamped(s) && !IsUnasked(s, e)
    ensures Stamped(Step(s, p, e))
  {
  }

  // What was stamped less than the window ago, and a second short, is still counted.
  lemma EarlierAreCounted(s: LedgerState, p: Policy, principal: Principal,
                          from: nat, length: int, checkedAt: nat, now: nat)
    requires Stamped(s) && length <= p.window - (MICROS - 1) && checkedAt <= now <= from + length
    ensures HeldIn(s, principal, from, length) <= WindowIds(s.records, principal, checkedAt - p.window)
  {
    forall id | id in HeldIn(s, principal, from, length)
      ensures id in WindowIds(s.records, principal, checkedAt - p.window)
    {
      assert Moment(s.records[id].submission.reservedAt.value) >= s.held[id] - (MICROS - 1);
    }
  }

  // An event that is no late recording brings no record into a stretch but the one it reserves.
  lemma StretchAfter(s: LedgerState, p: Policy, e: LedgerEvent, principal: Principal, from: nat, length: int)
    requires Stamped(s) && !IsUnasked(s, e) && !IsLate(s, e)
    ensures var before, after := HeldIn(s, principal, from, length), HeldIn(Step(s, p, e), principal, from, length);
      && after <= before + {e.id}
      && (after <= before || (e.Reserve? && Updated(s, p, e).Some? && from <= e.now <= from + length
                              && s.records[e.id].binding.principal == principal))
  {
    var before, after := HeldIn(s, principal, from, length), HeldIn(Step(s, p, e), principal, from, length);
    if e.id !in s.records { assert after <= before; }
  }

  lemma SubmissionCapStep(s: LedgerState, p: Policy, e: LedgerEvent, principal: Principal, from: nat, length: int)
    requires WithinSubmissionCap(s, p, length) && Stamped(s) && length <= p.window - (MICROS - 1)
    requires !IsUnasked(s, e) && !IsLate(s, e) && (e.Reserve? && e.id in s.records ==> e.principal == s.records[e.id].binding.principal)
    ensures |HeldIn(Step(s, p, e), principal, from, length)| <= p.maxSubmissions
  {
    var before, after := HeldIn(s, principal, from, length), HeldIn(Step(s, p, e), principal, from, length);
    StretchAfter(s, p, e, principal, from, length);
    if after <= before {
      SubsetCard(after, before);
    } else {
      EarlierAreCounted(s, p, principal, from, length, e.checkedAt, e.now);
      SubsetCard(before, WindowIds(s.records, principal, e.checkedAt - p.window));
      OneMore(after, before, e.id);
    }
  }

  lemma {:induction false} SubmissionCapRun(s: LedgerState, p: Policy, es: seq<LedgerEvent>, x: Surprises, length: int)
    requires WithinSubmissionCap(s, p, length) && Stamped(s) && PermittedRun(x, s, p, es) && !x.late
    requires length <= p.window - (MICROS - 1)
    ensures WithinSubmissionCap(Steps(s, p, es), p, length)
    decreases |es|
  {
    if es != [] {
      StampedStep(s, p, es[0]);
      forall principal: Principal, from: nat
        ensures |HeldIn(Step(s, p, es[0]), principal, from, length)| <= p.maxSubmissions
      {
        SubmissionCapStep(s, p, es[0], principal, from, length);
      }
      SubmissionCapRun(Step(s, p, es[0]), p, es[1..], x, length);
    }
  }

  // ------------------------------------------------------------ runs at hand

  lemma {:induction false} PermittedConcat(x: Surprises, s: LedgerState, p: Policy, a: seq<LedgerEvent>, b: seq<LedgerEvent>)
    requires PermittedRun(x, s, p, a) && PermittedRun(x, Steps(s, p, a), p, b)
    ensures PermittedRun(x, s, p, a + b)
    decreases |a|
  {
    if a == [] {
      assert a + b == b;
    } else {
      assert (a + b)[1..] == a[1..] + b;
      PermittedConcat(x, Step(s, p, a[0]), p, a[1..], b);
    }
  }

  lemma TwoEvents(x: Surprises, s: LedgerState, p: Policy, a: LedgerEvent, b: LedgerEvent)
    ensures Steps(s, p, [a, b]) == Step(Step(s, p, a), p, b)
    ensures PermittedRun(x, s, p, [a, b]) <==> Permitted(x, s, a) && Permitted(x, Step(s, p, a), b)
  {
    var both, one := [a, b], [b];
    assert both[1..] == one && one[1..] == [];
    assert Steps(s, p, both) == Steps(Step(s, p, a), p, one);
    assert Steps(Step(s, p, a), p, one) == Step(Step(s, p, a), p, b);
    assert PermittedRun(x, Step(s, p, a), p, one) <==> Permitted(x, Step(s, p, a), b);
  }

  lemma OneEvent(x: Surprises, s: LedgerState, p: Policy, e: LedgerEvent)
    ensures Steps(s, p, [e]) == Step(s, p, e)
    ensures PermittedRun(x, s, p, [e]) <==> Permitted(x, s, e)
  {
    assert [e][1..] == [];
  }

  // ------------------------------------------------ refusing without a refresh

  function Ready(id: AttemptId): AttemptRecord { NewRecord(Fresh(id), 0).(state := IsPrepared) }

  function Held(id: AttemptId): AttemptRecord { WithReservation(Ready(id), 0) }

  function ReadyEvents(id: AttemptId): seq<LedgerEvent> { [Create(id, Fresh(id), 0, 0), RecordRemote(id, Some(Prepared), 0)] }

  // Creating attempt k and finding it prepared.
  lemma MakeReady(s: LedgerState, k: nat, x: Surprises)
    requires s.clock == 0 && (forall id: AttemptId :: id in s.records ==> id < k && s.records[id].binding == Fresh(id))
    requires |s.records.Keys| < 3
    ensures PermittedRun(x, s, POLICY, ReadyEvents(k))
    ensures var s' := Steps(s, POLICY, ReadyEvents(k)); s'.records == s.records[k := Ready(k)] && s'.clock == 0
  {
    var a, b := Create(k, Fresh(k), 0, 0), RecordRemote(k, Some(Prepared), 0);
    TwoEvents(x, s, POLICY, a, b);
    SubsetCard(CreatedIds(s.records, 1, 0 - POLICY.window), s.records.Keys);
    assert MayCreate(s, POLICY, k, Fresh(k), 0);
    assert s.records[k := NewRecord(Fresh(k), 0)][k := Ready(k)] == s.records[k := Ready(k)];
  }

  // And reserving it at once, while the others leave room for one more.
  lemma HoldOne(s: LedgerState, k: nat, x: Surprises)
    requires s.clock == 0 && (forall id: AttemptId :: id in s.records ==> id < k && s.records[id].binding == Fresh(id))
    requires |s.records.Keys| < 3 && |ActiveIds(s.records, 1)| < 2
    ensures var es := ReadyEvents(k) + [Reserve(k, 1, 0, 0)];
      && PermittedRun(x, s, POLICY, es)
      && Steps(s, POLICY, es).records == s.records[k := Held(k)] && Steps(s, POLICY, es).clock == 0
  {
    var e := Reserve(k, 1, 0, 0);
    MakeReady(s, k, x);
    var s1 := Steps(s, POLICY, ReadyEvents(k));
    OneEvent(x, s1, POLICY, e);
    SubsetCard(WindowIds(s1.records, 1, 0 - POLICY.window), s.records.Keys);
    SubsetCard(ActiveIds(s1.records, 1), ActiveIds(s.records, 1));
    assert ReserveVerdict(s1.records, POLICY, k, 1, 0).Granted?;
    assert s.records[k := Ready(k)][k := Held(k)] == s.records[k := Held(k)];
    StepsConcat(s, POLICY, ReadyEvents(k), [e]);
    PermittedConcat(x, s, POLICY, ReadyEvents(k), [e]);
  }

  // An attempt finds one active job at its first look; another attempt of the principal is
  // reserved before it decides; and it is refused for the active cap, nothing having been
  // refreshed although the job it is refused for might long be finished.
  lemma RefusedWithoutRefresh(x: Surprises, news: AttemptId -> News) returns (es: seq<LedgerEvent>, a: Surroundings)
    ensures PermittedRun(x, EMPTY, POLICY, es)
    ensures var s := Steps(EMPTY, POLICY, es);
      && 1 in s.records && PermittedRun(x, s, POLICY, a.between) && a.news == news
      && Reservation(s, POLICY, 1, 1, a) == Reserving(Some(ActiveCap), a.between)
      && RefreshFirst(s, POLICY, 1, 1, a) == []
  {
    var first := ReadyEvents(0) + [Reserve(0, 1, 0, 0)];
    assert ActiveIds(EMPTY.records, 1) == {};
    HoldOne(EMPTY, 0, x);
    var s0 := Steps(EMPTY, POLICY, first);
    assert s0.records == map[0 := Held(0)];
    MakeReady(s0, 1, x);
    es := first + ReadyEvents(1);
    StepsConcat(EMPTY, POLICY, first, ReadyEvents(1));
    PermittedConcat(x, EMPTY, POLICY, first, ReadyEvents(1));
    a := Surroundings(0, news, ReadyEvents(2) + [Reserve(2, 1, 0, 0)], 0, 0);
    ThirdComesBetween(Steps(EMPTY, POLICY, es), x, a);
  }

  lemma ThirdComesBetween(s: LedgerState, x: Surprises, a: Surroundings)
    requires s.clock == 0 && s.records == map[0 := Held(0), 1 := Ready(1)]
    requires a.look == 0 && a.wait == 0 && a.between == ReadyEvents(2) + [Reserve(2, 1, 0, 0)]
    ensures PermittedRun(x, s, POLICY, a.between)
    ensures Reservation(s, POLICY, 1, 1, a) == Reserving(Some(ActiveCap), a.between)
    ensures RefreshFirst(s, POLICY, 1, 1, a) == []
  {
    assert s.records.Keys == {0, 1} && ActiveIds(s.records, 1) == {0};
    NeedsRefreshExactly(s, POLICY, 1, 1, a);
    HoldOne(s, 2, x);
    assert [] + a.between == a.between;
    NowTwoAreHeld(Steps(s, POLICY, a.between));
    assert a.between + [] == a.between;
  }

  lemma NowTwoAreHeld(s: LedgerState)
    requires s.clock == 0 && s.records == map[0 := Held(0), 1 := Ready(1)][2 := Held(2)]
    ensures forall work: nat :: Decide(s, POLICY, 1, 1, 0, work) == Reserving(Some(ActiveCap), [])
  {
    assert ActiveIds(s.records, 1) == {0, 2} == WindowIds(s.records, 1, 0 - POLICY.window);
  }

  // ----------------------------------------------------------- the two caps

  ghost predicate ActiveCapHolds(p: Policy, x: Surprises) {
    forall es :: PermittedRun(x, EMPTY, p, es) ==> WithinActiveCap(Steps(EMPTY, p, es), p)
  }

  ghost predicate SubmissionCapHolds(p: Policy, x: Surprises, length: nat) {
    forall es :: PermittedRun(x, EMPTY, p, es) ==> WithinSubmissionCap(Steps(EMPTY, p, es), p, length)
  }

  lemma ActiveCapKept(p: Policy)
    ensures ActiveCapHolds(p, NO_SURPRISES)
  {
    forall principal: Principal ensures ActiveIds(EMPTY.records, principal) == {} {}
    forall es | PermittedRun(NO_SURPRISES, EMPTY, p, es) ensures WithinActiveCap(Steps(EMPTY, p, es), p) {
      ActiveCapRun(EMPTY, p, es);
    }
  }

  lemma SubmissionCapKept(p: Policy, x: Surprises, length: nat)
    requires !x.late && length <= p.window - (MICROS - 1)
    ensures SubmissionCapHolds(p, x, length)
  {
    forall principal: Principal, from: nat ensures HeldIn(EMPTY, principal, from, length) == {} {}
    forall es | PermittedRun(x, EMPTY, p, es) ensures WithinSubmissionCap(Steps(EMPTY, p, es), p, length) {
      SubmissionCapRun(EMPTY, p, es, x, length);
    }
  }
}
