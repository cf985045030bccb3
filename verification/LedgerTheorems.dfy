/** What every run of the machine-API ledger keeps. */
module LedgerTheorems {
  import opened Wrappers
  import opened SubmissionProtocol
  import opened Ledger

  // -------------------------------------------------------------- binding

  predicate LedgerInv(s: LedgerState) {
    && s.made.Keys == s.records.Keys
    && (forall id :: id in s.records ==>
          s.made[id] <= s.clock && s.records[id].createdAt == WholeSecond(s.made[id]))
    && (forall a, b :: a in s.records && b in s.records && a != b ==>
          s.records[a].binding.runTimestamp != s.records[b].binding.runTimestamp)
    && (forall id :: id in s.records && s.records[id].submission.status.NotRequested? ==>
          s.records[id].submission.reservedAt.None?)
  }

  // An update that keeps a record's binding and creation stamp.
  lemma UpdateInv(s: LedgerState, id: AttemptId, r: AttemptRecord, now: nat, held: map<AttemptId, nat>)
    requires LedgerInv(s) && id in s.records && s.clock <= now
    requires r.binding == s.records[id].binding && r.createdAt == s.records[id].createdAt
    requires r.submission.status.NotRequested? ==> r.submission == s.records[id].submission
    ensures LedgerInv(s.(records := s.records[id := r], clock := now, held := held))
  {
  }

  lemma CreateInv(s: LedgerState, p: Policy, e: LedgerEvent)
    requires LedgerInv(s) && e.Create?
    ensures LedgerInv(Step(s, p, e))
  {
    if s.clock <= e.checkedAt <= e.now && MayCreate(s, p, e.id, e.binding, e.checkedAt) {
      forall id | id in s.records ensures s.records[id].binding.runTimestamp != e.binding.runTimestamp {}
    }
  }

  lemma StepInv(s: LedgerState, p: Policy, e: LedgerEvent)
    requires LedgerInv(s)
    ensures LedgerInv(Step(s, p, e))
  {
    if e.Create? {
      CreateInv(s, p, e);
    } else if Updated(s, p, e).Some? {
      UpdateInv(s, e.id, Updated(s, p, e).value, e.now, Step(s, p, e).held);
    }
  }

  lemma {:induction false} StepsInv(s: LedgerState, p: Policy, es: seq<LedgerEvent>)
    requires LedgerInv(s)
    ensures LedgerInv(Steps(s, p, es))
    decreases |es|
  {
    if es != [] {
      StepInv(s, p, es[0]);
      StepsInv(Step(s, p, es[0]), p, es[1..]);
    }
  }

  // First writer wins, for ever: no later event, in whatever order, removes a
  // record or changes what it is bound to or when it was created.
  lemma {:induction false} BindingIsForever(s: LedgerState, p: Policy, es: seq<LedgerEvent>, id: AttemptId)
    requires id in s.records
    ensures var s' := Steps(s, p, es);
      && id in s'.records && s'.records[id].binding == s.records[id].binding
      && s'.records[id].createdAt == s.records[id].createdAt
    decreases |es|
  {
    if es != [] {
      BindingIsForever(Step(s, p, es[0]), p, es[1..], id);
    }
  }

  // However stale either is, scheduler news of a job and submission news can be written
  // in either order, about one record or two: neither overwrites the other.
  lemma UpdatesCommute(s: LedgerState, p: Policy, news: LedgerEvent, refresh: LedgerEvent)
    requires news.RecordRemote? || news.ReleaseReservation?
    requires refresh.RefreshScheduler? && news.now == refresh.now
    requires refresh.id in s.records ==> s.records[refresh.id].submission.jobId.Some?
    ensures Step(Step(s, p, news), p, refresh) == Step(Step(s, p, refresh), p, news)
  {
    if s.clock <= news.now && news.id in s.records && refresh.id in s.records {
      var r := s.records[news.id];
      if news.id == refresh.id {
        assert Step(Step(s, p, news), p, refresh).records[news.id]
            == Step(Step(s, p, refresh), p, news).records[news.id];
      }
      assert Step(Step(s, p, news), p, refresh).records == Step(Step(s, p, refresh), p, news).records;
    }
  }

  // The state of an attempt follows the last news of it: what was read of the remote state if
  // anything was, PREPARED after a release, REGISTERED at first; nothing else touches it.
  lemma StateFollowsNews(s: LedgerState, p: Policy, e: LedgerEvent, id: AttemptId)
    requires id in Step(s, p, e).records
    ensures var state := Step(s, p, e).records[id].state;
      if id !in s.records then e.Create? && state == Registered
      else if e.id == id && s.clock <= e.now && e.ReleaseReservation? then state == IsPrepared
      else if e.id == id && s.clock <= e.now && e.RecordRemote? && e.seen.Some? then
        state == match e.seen.value case Prepared => IsPrepared case Submitting => IsUncertain case Submitted(_) => IsSubmitted
      else state == s.records[id].state
  {
  }

  // Nothing read of the remote state, nothing changed.
  lemma NoNewsChangesNothing(s: LedgerState, p: Policy, id: AttemptId, now: nat)
    ensures Step(s, p, RecordRemote(id, None, now)).records == s.records
  {
    if id in s.records { assert s.records[id := s.records[id]] == s.records; }
  }

  // A job once recorded is never taken off its record, so what is asked of the scheduler
  // about a stale record is written to a record that has the job.
  lemma {:induction false} JobIsForever(s: LedgerState, p: Policy, es: seq<LedgerEvent>, id: AttemptId)
    requires id in s.records && s.records[id].submission.jobId.Some?
    ensures var s' := Steps(s, p, es); id in s'.records && s'.records[id].submission.jobId.Some?
    decreases |es|
  {
    if es != [] { JobIsForever(Step(s, p, es[0]), p, es[1..], id); }
  }

  lemma StillHasJob(s: LedgerState, p: Policy, es: seq<LedgerEvent>, id: AttemptId)
    ensures id in s.records && s.records[id].submission.jobId.Some? ==>
      id in Steps(s, p, es).records && Steps(s, p, es).records[id].submission.jobId.Some?
  {
    if id in s.records && s.records[id].submission.jobId.Some? { JobIsForever(s, p, es, id); }
  }

  predicate ReportsOnly(es: seq<LedgerEvent>, id: AttemptId, job: JobId) {
    forall i :: 0 <= i < |es| && es[i].RecordRemote? && es[i].id == id ==>
      (es[i].seen.Some? && es[i].seen.value.Submitted? ==> es[i].seen.value.job == job)
  }

  // Once SUBMITTED, a record stays SUBMITTED with the same job, whatever stale
  // readings, releases and reservations follow, as long as no reading announces
  // a different job.
  lemma {:induction false} SubmittedIsAbsorbing(s: LedgerState, p: Policy, es: seq<LedgerEvent>, id: AttemptId, job: JobId)
    requires id in s.records && ReportsOnly(es, id, job)
    requires s.records[id].submission.status.SubmittedToSlurm? && s.records[id].submission.jobId == Some(job)
    ensures var s' := Steps(s, p, es);
      && id in s'.records
      && s'.records[id].submission.status.SubmittedToSlurm? && s'.records[id].submission.jobId == Some(job)
    decreases |es|
  {
    if es != [] {
      SubmittedIsAbsorbing(Step(s, p, es[0]), p, es[1..], id, job);
    }
  }

  // ----------------------------------------------------------------- caps

  lemma WithoutOneCard<T>(s: set<T>, x: T)
    ensures |s + {x}| == if x in s then |s| else |s| + 1
    ensures |s - {x}| == if x in s then |s| - 1 else |s|
  {
    if x in s { assert s + {x} == s; } else { assert s - {x} == s; }
  }

  lemma SubsetCard<T>(a: set<T>, b: set<T>)
    requires a <= b
    ensures |a| <= |b|
  {
    assert b == a + (b - a);
  }

  // Updating one record changes the active set by at most that record.
  lemma ActiveAfterUpdate(records: Records, id: AttemptId, r: AttemptRecord, principal: Principal)
    requires id in records && r.binding == records[id].binding
    ensures ActiveIds(records[id := r], principal) ==
      if r.binding.principal == principal && IsActive(r)
      then ActiveIds(records, principal) + {id} else ActiveIds(records, principal) - {id}
  {
  }

  lemma WindowAfterUpdate(records: Records, id: AttemptId, r: AttemptRecord, principal: Principal, since: int)
    requires id in records && r.binding == records[id].binding
    ensures WindowIds(records[id := r], principal, since) ==
      if r.binding.principal == principal && CountsTowardWindow(r, since)
      then WindowIds(records, principal, since) + {id} else WindowIds(records, principal, since) - {id}
  {
  }

  lemma CountsAfterUpdate(records: Records, id: AttemptId, r: AttemptRecord, principal: Principal, since: int)
    requires id in records && r.binding == records[id].binding
    ensures |ActiveIds(records[id := r], principal)| <= |ActiveIds(records, principal)| + 1
    ensures |WindowIds(records[id := r], principal, since)| <= |WindowIds(records, principal, since)| + 1
  {
    ActiveAfterUpdate(records, id, r, principal);
    WindowAfterUpdate(records, id, r, principal, since);
    WithoutOneCard(ActiveIds(records, principal), id);
    WithoutOneCard(WindowIds(records, principal, since), id);
  }

  // A granted reservation leaves its principal within both caps.
  lemma GrantsStayWithinCaps(s: LedgerState, p: Policy, e: LedgerEvent)
    requires e.Reserve? && s.clock <= e.checkedAt <= e.now
    requires ReserveVerdict(s.records, p, e.id, e.principal, e.checkedAt).Granted?
    ensures var records' := Step(s, p, e).records;
      && e.id in records' && records'[e.id].submission.status.Reserved?
      && |ActiveIds(records', e.principal)| <= p.maxActive
      && |WindowIds(records', e.principal, e.checkedAt - p.window)| <= p.maxSubmissions
  {
    var r := WithReservation(s.records[e.id], e.now);
    assert Step(s, p, e).records == s.records[e.id := r];
    CountsAfterUpdate(s.records, e.id, r, e.principal, e.checkedAt - p.window);
  }

  // What a granted reservation writes.
  lemma GrantWrites(s: LedgerState, p: Policy, id: AttemptId, principal: Principal, checkedAt: nat, now: nat)
    requires s.clock <= checkedAt <= now && ReserveVerdict(s.records, p, id, principal, checkedAt).Granted?
    ensures Step(s, p, Reserve(id, principal, checkedAt, now))
         == s.(records := s.records[id := WithReservation(s.records[id], now)], clock := now, held := s.held[id := now])
  {
  }

  // Exactly when an event raises a principal's active count.
  predicate Activates(s: LedgerState, p: Policy, e: LedgerEvent, principal: Principal) {
    && !e.Create? && s.clock <= e.now && e.id in s.records
    && s.records[e.id].binding.principal == principal
    && var r := s.records[e.id];
       match e
       case RecordRemote(_, seen, _) =>
         && !Terminal(r) && !Counted(r.submission.status) && seen.Some?
         && (seen.value.Submitted? || (seen.value.Submitting? && r.submission.status.NotRequested?))
       case Reserve(id, claimant, checkedAt, _) =>
         && !Terminal(r) && s.clock <= checkedAt <= e.now
         && ReserveVerdict(s.records, p, id, claimant, checkedAt).Granted?
       case RefreshScheduler(_, found, _) =>
         r.submission.jobId.Some? && Counted(r.submission.status) && Terminal(r) && !found.terminal
       case ReleaseReservation(_, _) => false
       case Create(_, _, _, _) => false
  }

  // The active count of a principal rises through nothing but a granted
  // reservation, a remote submission recorded on a record that was not counted,
  // or a scheduler report that takes back "finished"; and then by one.
  lemma ActiveCountRisesExactly(s: LedgerState, p: Policy, e: LedgerEvent, principal: Principal)
    ensures var before := |ActiveIds(s.records, principal)|;
            var after := |ActiveIds(Step(s, p, e).records, principal)|;
      && (after > before <==> Activates(s, p, e, principal))
      && before - 1 <= after <= before + 1
  {
    if e.Create? {
      assert ActiveIds(Step(s, p, e).records, principal) == ActiveIds(s.records, principal);
    } else if Updated(s, p, e).Some? {
      assert Step(s, p, e).records == s.records[e.id := Updated(s, p, e).value];
      ActiveCountAfter(s.records, e.id, Updated(s, p, e).value, principal);
      if s.records[e.id].binding.principal == principal { ActivatesExactly(s, p, e, principal); }
    }
  }

  lemma ActiveCountAfter(records: Records, id: AttemptId, r: AttemptRecord, principal: Principal)
    requires id in records && r.binding == records[id].binding
    ensures var before, after := |ActiveIds(records, principal)|, |ActiveIds(records[id := r], principal)|;
      && (after > before <==> r.binding.principal == principal && !IsActive(records[id]) && IsActive(r))
      && before - 1 <= after <= before + 1
  {
    ActiveAfterUpdate(records, id, r, principal);
    WithoutOneCard(ActiveIds(records, principal), id);
  }

  lemma ActivatesExactly(s: LedgerState, p: Policy, e: LedgerEvent, principal: Principal)
    requires Updated(s, p, e).Some? && s.records[e.id].binding.principal == principal
    ensures Activates(s, p, e, principal) <==> !IsActive(s.records[e.id]) && IsActive(Updated(s, p, e).value)
  {
  }

}
