/**
 What the requests on the ledger do (compute_api/execution.py:324-381, 526-619): as
 functions of the state they start from and of all that other requests do meanwhile,
 each giving its answer and every event of the stretch, foreign ones included.
 */
module LedgerRequests {
  import opened Wrappers
  import opened SubmissionProtocol
  import opened Ledger
  import opened LedgerTheorems

  datatype Refusal =
    | LedgerInconsistent | AttemptForbidden | RequestMismatch | PlanDigestMismatch | OutsidePolicy
    | PlanChanged | FingerprintMismatch | AttemptCap | AttemptBusy | SubmissionCap | ActiveCap

  lemma StepsLast(s: LedgerState, p: Policy, es: seq<LedgerEvent>, e: LedgerEvent)
    ensures Steps(s, p, es + [e]) == Step(Steps(s, p, es), p, e)
  {
    StepsConcat(s, p, es, [e]);
    assert Steps(Steps(s, p, es), p, [e]) == Step(Steps(s, p, es), p, e);
  }

  // A record, once there, is there for the rest of the run, bound as before.
  lemma StillBound(s: LedgerState, p: Policy, earlier: seq<LedgerEvent>, later: seq<LedgerEvent>, id: AttemptId)
    requires earlier <= later && id in Steps(s, p, earlier).records
    ensures id in Steps(s, p, later).records
    ensures Steps(s, p, later).records[id].binding == Steps(s, p, earlier).records[id].binding
  {
    assert later == earlier + later[|earlier|..];
    StepsConcat(s, p, earlier, later[|earlier|..]);
    BindingIsForever(Steps(s, p, earlier), p, later[|earlier|..], id);
  }

  // ---------------------------------------------------------------- binding

  datatype Request = Request(id: AttemptId, principal: Principal, requestHash: Digest, expected: Digest)

  // What the planner makes of a request for one run timestamp.
  datatype Plan = Plan(digest: Digest, fingerprint: Fingerprint, withinPolicy: bool)

  // One try of the binding loop: what others do before the first read and between it
  // and the locked section, the timestamp drawn, and how long the two steps take.
  datatype Try = Try(
    before: seq<LedgerEvent>, between: seq<LedgerEvent>, drawn: RunTimestamp, wait: nat, work: nat)

  function PlanProblem(planned: Plan, q: Request): Option<Refusal> {
    if planned.digest != q.expected then Some(PlanDigestMismatch)
    else if !planned.withinPolicy then Some(OutsidePolicy)
    else None
  }

  // What stands against answering a request with a record so bound.
  function BindingProblem(b: Binding, q: Request, plan: RunTimestamp -> Plan): Option<Refusal> {
    var planned := plan(b.runTimestamp);
    if b.principal != q.principal then Some(AttemptForbidden)
    else if b.requestHash != q.requestHash then Some(RequestMismatch)
    else if PlanProblem(planned, q).Some? then PlanProblem(planned, q)
    else if b.planDigest != planned.digest then Some(PlanChanged)
    else if b.fingerprint != planned.fingerprint then Some(FingerprintMismatch)
    else None
  }

  function NewBinding(q: Request, plan: RunTimestamp -> Plan, drawn: RunTimestamp): Binding {
    Binding(q.principal, q.requestHash, q.expected, plan(drawn).fingerprint, drawn)
  }

  // None: the loop goes on to its next try.
  datatype Tried = Tried(answer: Option<Result<AttemptRecord, Refusal>>, events: seq<LedgerEvent>)

  function AnswerWith(r: AttemptRecord, q: Request, plan: RunTimestamp -> Plan): Result<AttemptRecord, Refusal> {
    var problem := BindingProblem(r.binding, q, plan);
    if problem.None? then Success(r) else Failure(problem.value)
  }

  // The locked section of a try, on the state it finds.
  function Register(s: LedgerState, p: Policy, q: Request, plan: RunTimestamp -> Plan, t: Try): Tried {
    var checkedAt := s.clock + t.wait;
    if q.id in s.records || TimestampTaken(s.records, t.drawn) then Tried(None, [])
    else if |CreatedIds(s.records, q.principal, checkedAt - p.window)| >= p.maxNew then
      Tried(Some(Failure(AttemptCap)), [])
    else
      var b := NewBinding(q, plan, t.drawn);
      Tried(Some(Success(NewRecord(b, checkedAt + t.work))), [Create(q.id, b, checkedAt, checkedAt + t.work)])
  }

  function Attempt(s: LedgerState, p: Policy, q: Request, plan: RunTimestamp -> Plan, t: Try): Tried {
    var s1 := Steps(s, p, t.before);
    if q.id in s1.records then Tried(Some(AnswerWith(s1.records[q.id], q, plan)), t.before)
    else if PlanProblem(plan(t.drawn), q).Some? then
      Tried(Some(Failure(PlanProblem(plan(t.drawn), q).value)), t.before)
    else
      var registered := Register(Steps(s1, p, t.between), p, q, plan, t);
      Tried(registered.answer, t.before + t.between + registered.events)
  }

  datatype Bound = Bound(result: Result<AttemptRecord, Refusal>, events: seq<LedgerEvent>)

  function Bind(s: LedgerState, p: Policy, q: Request, plan: RunTimestamp -> Plan, tries: seq<Try>): Bound
    decreases |tries|
  {
    if tries == [] then Bound(Failure(AttemptBusy), [])
    else
      var tried := Attempt(s, p, q, plan, tries[0]);
      if tried.answer.Some? then Bound(tried.answer.value, tried.events)
      else
        var rest := Bind(AfterTry(s, p, tries[0]), p, q, plan, tries[1..]);
        Bound(rest.result, tried.events + rest.events)
  }

  // The state once all the foreign events of a try have happened.
  function AfterTry(s: LedgerState, p: Policy, t: Try): LedgerState { Steps(Steps(s, p, t.before), p, t.between) }

  // -------------------------------------------------- what a binding comes to

  // The foreign events of the first i tries.
  function Meanwhile(tries: seq<Try>, i: nat): seq<LedgerEvent>
    requires i <= |tries|
  {
    if i == 0 then [] else Meanwhile(tries, i - 1) + (tries[i - 1].before + tries[i - 1].between)
  }

  // The state in which try i begins, if no earlier try decided.
  function Begin(s: LedgerState, p: Policy, tries: seq<Try>, i: nat): LedgerState
    requires i <= |tries|
  {
    if i == 0 then s else AfterTry(Begin(s, p, tries, i - 1), p, tries[i - 1])
  }

  // A try is given up: the plan is fine, and the id or the timestamp is taken under the lock.
  predicate GivenUp(s: LedgerState, p: Policy, q: Request, plan: RunTimestamp -> Plan, t: Try) {
    && q.id !in Steps(s, p, t.before).records
    && plan(t.drawn).digest == q.expected && plan(t.drawn).withinPolicy
    && (q.id in AfterTry(s, p, t).records || TimestampTaken(AfterTry(s, p, t).records, t.drawn))
  }

  lemma {:induction false} MeanwhileLeads(s: LedgerState, p: Policy, tries: seq<Try>, i: nat)
    requires i <= |tries|
    ensures Steps(s, p, Meanwhile(tries, i)) == Begin(s, p, tries, i)
  {
    if i > 0 {
      MeanwhileLeads(s, p, tries, i - 1);
      StepsConcat(s, p, Meanwhile(tries, i - 1), tries[i - 1].before + tries[i - 1].between);
      StepsConcat(Begin(s, p, tries, i - 1), p, tries[i - 1].before, tries[i - 1].between);
    }
  }

  lemma GivenUpExactly(s: LedgerState, p: Policy, q: Request, plan: RunTimestamp -> Plan, t: Try)
    ensures var tried := Attempt(s, p, q, plan, t);
      && (tried.answer.None? <==> GivenUp(s, p, q, plan, t))
      && (tried.answer.None? ==> tried.events == t.before + t.between)
  {
  }

  lemma BindUnrolled(s: LedgerState, p: Policy, q: Request, plan: RunTimestamp -> Plan, tries: seq<Try>)
    requires tries != []
    ensures var tried := Attempt(s, p, q, plan, tries[0]);
      Bind(s, p, q, plan, tries) ==
        if tried.answer.Some? then Bound(tried.answer.value, tried.events)
        else
          var rest := Bind(Steps(s, p, tried.events), p, q, plan, tries[1..]);
          Bound(rest.result, tried.events + rest.events)
  {
    GivenUpExactly(s, p, q, plan, tries[0]);
    StepsConcat(s, p, tries[0].before, tries[0].between);
  }

  // In the middle of the loop: `events` have happened since s, and tries[i..] are left.
  ghost predicate BindingAt(s: LedgerState, p: Policy, q: Request, plan: RunTimestamp -> Plan, tries: seq<Try>, i: nat, events: seq<LedgerEvent>) {
    i <= |tries| && Bind(s, p, q, plan, tries) == GoneOn(s, p, q, plan, tries[i..], events)
  }

  // What the loop comes to when `events` have happened and `left` are the tries left.
  function GoneOn(s: LedgerState, p: Policy, q: Request, plan: RunTimestamp -> Plan, left: seq<Try>, events: seq<LedgerEvent>): Bound {
    var rest := Bind(Steps(s, p, events), p, q, plan, left);
    Bound(rest.result, events + rest.events)
  }

  lemma BindingBegins(s: LedgerState, p: Policy, q: Request, plan: RunTimestamp -> Plan, tries: seq<Try>)
    ensures BindingAt(s, p, q, plan, tries, 0, [])
  {
    assert tries[0..] == tries && Steps(s, p, []) == s;
  }

  // One turn of the loop.
  lemma BindingGoesOn(s: LedgerState, p: Policy, q: Request, plan: RunTimestamp -> Plan, tries: seq<Try>, i: nat, events: seq<LedgerEvent>)
    requires BindingAt(s, p, q, plan, tries, i, events) && i < |tries|
    ensures var tried := Attempt(Steps(s, p, events), p, q, plan, tries[i]);
      if tried.answer.Some? then Bind(s, p, q, plan, tries) == Bound(tried.answer.value, events + tried.events)
      else BindingAt(s, p, q, plan, tries, i + 1, events + tried.events)
  {
    var here, tried := Steps(s, p, events), Attempt(Steps(s, p, events), p, q, plan, tries[i]);
    BindUnrolled(here, p, q, plan, tries[i..]);
    assert tries[i..][1..] == tries[i + 1..] && tries[i..][0] == tries[i];
    if tried.answer.None? {
      StepsConcat(s, p, events, tried.events);
      Chained(Bind(s, p, q, plan, tries), Bind(here, p, q, plan, tries[i..]),
              Bind(Steps(s, p, events + tried.events), p, q, plan, tries[i + 1..]), events, tried.events);
    }
  }

  lemma BindingEnds(s: LedgerState, p: Policy, q: Request, plan: RunTimestamp -> Plan, tries: seq<Try>, events: seq<LedgerEvent>)
    requires BindingAt(s, p, q, plan, tries, |tries|, events)
    ensures Bind(s, p, q, plan, tries) == Bound(Failure(AttemptBusy), events)
  {
    assert tries[|tries|..] == [] && events + [] == events;
  }

  lemma Chained(whole: Bound, from: Bound, rest: Bound, before: seq<LedgerEvent>, between: seq<LedgerEvent>)
    requires whole == Bound(from.result, before + from.events) && from == Bound(rest.result, between + rest.events)
    ensures whole == Bound(rest.result, (before + between) + rest.events)
  {
    Regrouped(before, between, rest.events);
  }

  // The first place that does not hold, or the length if all do.
  function FirstFalse(marks: seq<bool>, i: nat): (d: nat)
    requires i <= |marks|
    ensures i <= d <= |marks|
    ensures forall j :: i <= j < d ==> marks[j]
    ensures d < |marks| ==> !marks[d]
    decreases |marks| - i
  {
    if i == |marks| || !marks[i] then i else FirstFalse(marks, i + 1)
  }

  function GivenUpMarks(s: LedgerState, p: Policy, q: Request, plan: RunTimestamp -> Plan, tries: seq<Try>): seq<bool> {
    seq(|tries|, i requires 0 <= i < |tries| => GivenUp(Begin(s, p, tries, i), p, q, plan, tries[i]))
  }

  // The try that decides, or the number of tries if every one is given up.
  function Deciding(s: LedgerState, p: Policy, q: Request, plan: RunTimestamp -> Plan, tries: seq<Try>): (d: nat)
    ensures d <= |tries|
  {
    FirstFalse(GivenUpMarks(s, p, q, plan, tries), 0)
  }

  lemma EarlierGivenUp(s: LedgerState, p: Policy, q: Request, plan: RunTimestamp -> Plan, tries: seq<Try>, j: nat)
    requires j < Deciding(s, p, q, plan, tries)
    ensures GivenUp(Begin(s, p, tries, j), p, q, plan, tries[j])
  {
    assert GivenUpMarks(s, p, q, plan, tries)[j];
  }

  lemma DecidingNotGivenUp(s: LedgerState, p: Policy, q: Request, plan: RunTimestamp -> Plan, tries: seq<Try>)
    requires Deciding(s, p, q, plan, tries) < |tries|
    ensures var d := Deciding(s, p, q, plan, tries); !GivenUp(Begin(s, p, tries, d), p, q, plan, tries[d])
  {
    assert !GivenUpMarks(s, p, q, plan, tries)[Deciding(s, p, q, plan, tries)];
  }

  lemma GivenUpEvents(s: LedgerState, p: Policy, q: Request, plan: RunTimestamp -> Plan, tries: seq<Try>, i: nat)
    requires i < Deciding(s, p, q, plan, tries)
    ensures Attempt(Begin(s, p, tries, i), p, q, plan, tries[i]) == Tried(None, tries[i].before + tries[i].between)
  {
    EarlierGivenUp(s, p, q, plan, tries, i);
    GivenUpExactly(Begin(s, p, tries, i), p, q, plan, tries[i]);
  }

  // Up to the try that decides, nothing but foreign events happens.
  lemma {:induction false} BindingUpTo(s: LedgerState, p: Policy, q: Request, plan: RunTimestamp -> Plan, tries: seq<Try>, i: nat)
    requires i <= Deciding(s, p, q, plan, tries)
    ensures BindingAt(s, p, q, plan, tries, i, Meanwhile(tries, i))
    decreases i, 0
  {
    if i == 0 { BindingBegins(s, p, q, plan, tries); } else { BindingNext(s, p, q, plan, tries, i - 1); }
  }

  // A try that is given up adds its foreign events.
  lemma {:induction false} BindingNext(s: LedgerState, p: Policy, q: Request, plan: RunTimestamp -> Plan, tries: seq<Try>, i: nat)
    requires i < Deciding(s, p, q, plan, tries)
    ensures BindingAt(s, p, q, plan, tries, i + 1, Meanwhile(tries, i + 1))
    decreases i, 1
  {
    BindingUpTo(s, p, q, plan, tries, i);
    MeanwhileLeads(s, p, tries, i);
    GivenUpEvents(s, p, q, plan, tries, i);
    BindingGoesOn(s, p, q, plan, tries, i, Meanwhile(tries, i));
  }

  // The room left for new attempts under the lock of a try.
  predicate RoomForNew(lock: LedgerState, p: Policy, q: Request, t: Try) {
    |CreatedIds(lock.records, q.principal, lock.clock + t.wait - p.window)| < p.maxNew
  }

  // The record is bound to this very principal, request, plan and fingerprint, and its plan
  // is within the policy.
  predicate BelongsTo(b: Binding, q: Request, plan: RunTimestamp -> Plan) {
    && b.principal == q.principal && b.requestHash == q.requestHash && b.planDigest == q.expected
    && plan(b.runTimestamp) == Plan(q.expected, b.fingerprint, true)
  }

  // How a request is answered from a record bound as b: with the record exactly if it
  // belongs to the request, and else by the first thing that does not agree.
  predicate AnsweredFrom(result: Result<AttemptRecord, Refusal>, b: Binding, q: Request, plan: RunTimestamp -> Plan) {
    var planned := plan(b.runTimestamp);
    var own := b.principal == q.principal;
    var same := own && b.requestHash == q.requestHash;
    var expected := same && planned.digest == q.expected;
    && (result.Success? <==> BelongsTo(b, q, plan))
    && (result == Failure(AttemptForbidden) <==> !own)
    && (result == Failure(RequestMismatch) <==> own && b.requestHash != q.requestHash)
    && (result == Failure(PlanDigestMismatch) <==> same && planned.digest != q.expected)
    && (result == Failure(OutsidePolicy) <==> expected && !planned.withinPolicy)
    && (result == Failure(PlanChanged) <==> expected && planned.withinPolicy && b.planDigest != q.expected)
    && (result == Failure(FingerprintMismatch) <==>
          expected && planned.withinPolicy && b.planDigest == q.expected && b.fingerprint != planned.fingerprint)
  }

  // What a try answers and writes when it is not given up. A record found at the read
  // decides alone; a plan that does not fit is refused; and a new id is bound exactly when
  // there is no record, a fitting plan, a free timestamp and room under the cap. Its
  // Create is then the only event of the request's own, and the last one.
  predicate Decides(b: Bound, s: LedgerState, p: Policy, q: Request, plan: RunTimestamp -> Plan, t: Try) {
    var read, lock := Steps(s, p, t.before), AfterTry(s, p, t);
    var now := lock.clock + t.wait + t.work;
    var planned := plan(t.drawn);
    if q.id in read.records then
      && b.events == t.before && AnsweredFrom(b.result, read.records[q.id].binding, q, plan)
      && (b.result.Success? ==> b.result.value == read.records[q.id])
    else if planned.digest != q.expected then b == Bound(Failure(PlanDigestMismatch), t.before)
    else if !planned.withinPolicy then b == Bound(Failure(OutsidePolicy), t.before)
    else if !RoomForNew(lock, p, q, t) then b == Bound(Failure(AttemptCap), t.before + t.between)
    else
      var binding := Binding(q.principal, q.requestHash, q.expected, planned.fingerprint, t.drawn);
      && b.result == Success(NewRecord(binding, now))
      && b.events == t.before + t.between + [Create(q.id, binding, lock.clock + t.wait, now)]
  }

  lemma TryDecides(s: LedgerState, p: Policy, q: Request, plan: RunTimestamp -> Plan, tries: seq<Try>)
    requires tries != [] && !GivenUp(s, p, q, plan, tries[0])
    ensures Decides(Bind(s, p, q, plan, tries), s, p, q, plan, tries[0])
  {
    GivenUpExactly(s, p, q, plan, tries[0]);
  }

  // The loop, by the try that decides: the first that is not given up decides as above,
  // after nothing but foreign events; and the attempt is busy exactly when all are given up.
  lemma BindsExactly(s: LedgerState, p: Policy, q: Request, plan: RunTimestamp -> Plan, tries: seq<Try>)
    returns (rest: Bound)
    ensures var d := Deciding(s, p, q, plan, tries);
      && Bind(s, p, q, plan, tries) == Bound(rest.result, Meanwhile(tries, d) + rest.events)
      && (if d == |tries| then rest == Bound(Failure(AttemptBusy), [])
          else Decides(rest, Begin(s, p, tries, d), p, q, plan, tries[d]))
  {
    var d := Deciding(s, p, q, plan, tries);
    BindingUpTo(s, p, q, plan, tries, d);
    MeanwhileLeads(s, p, tries, d);
    rest := Bind(Begin(s, p, tries, d), p, q, plan, tries[d..]);
    if d < |tries| {
      DecidingNotGivenUp(s, p, q, plan, tries);
      TryDecides(Begin(s, p, tries, d), p, q, plan, tries[d..]);
    }
  }

  // A new id is bound at the end of the run that its Create belongs to.
  lemma NewIsBound(s: LedgerState, p: Policy, q: Request, plan: RunTimestamp -> Plan, t: Try)
    requires Register(s, p, q, plan, t).events != []
    ensures var r := Register(s, p, q, plan, t);
      r.answer.Some? && r.answer.value.Success? &&
      Steps(s, p, r.events).records == s.records[q.id := r.answer.value.value]
  {
    var es := Register(s, p, q, plan, t).events;
    assert MayCreate(s, p, q.id, NewBinding(q, plan, t.drawn), s.clock + t.wait);
    assert Steps(s, p, es) == Steps(Step(s, p, es[0]), p, es[1..]) == Step(s, p, es[0]);
  }

  lemma AttemptBinds(s: LedgerState, p: Policy, q: Request, plan: RunTimestamp -> Plan, t: Try)
    requires var a := Attempt(s, p, q, plan, t).answer; a.Some? && a.value.Success?
    ensures var tried := Attempt(s, p, q, plan, t); var s' := Steps(s, p, tried.events);
      && q.id in s'.records && s'.records[q.id] == tried.answer.value.value
      && BelongsTo(s'.records[q.id].binding, q, plan)
  {
    var s1 := Steps(s, p, t.before);
    if q.id !in s1.records {
      var s2 := Steps(s1, p, t.between);
      var own := Register(s2, p, q, plan, t).events;
      StepsConcat(s, p, t.before, t.between);
      StepsConcat(s, p, t.before + t.between, own);
      NewIsBound(s2, p, q, plan, t);
    }
  }

  // A request that is answered with a record is answered with the one the ledger then
  // holds, bound to this very principal, request, plan and fingerprint.
  lemma {:induction false} BoundToThisRequest(s: LedgerState, p: Policy, q: Request, plan: RunTimestamp -> Plan, tries: seq<Try>)
    requires Bind(s, p, q, plan, tries).result.Success?
    ensures var b := Bind(s, p, q, plan, tries); var s' := Steps(s, p, b.events);
      && q.id in s'.records && s'.records[q.id] == b.result.value
      && BelongsTo(s'.records[q.id].binding, q, plan)
    decreases |tries|
  {
    var tried := Attempt(s, p, q, plan, tries[0]);
    if tried.answer.Some? {
      AttemptBinds(s, p, q, plan, tries[0]);
    } else {
      GivenUpExactly(s, p, q, plan, tries[0]);
      var s1 := AfterTry(s, p, tries[0]);
      BoundToThisRequest(s1, p, q, plan, tries[1..]);
      StepsConcat(s, p, tries[0].before, tries[0].between);
      StepsConcat(s, p, tried.events, Bind(s1, p, q, plan, tries[1..]).events);
    }
  }

  // First writer wins: a record that is there already decides alone, whatever happens meanwhile:
  // the request is answered with it exactly if it belongs to the request, and refused otherwise.
  lemma ExistingDecides(s: LedgerState, p: Policy, q: Request, plan: RunTimestamp -> Plan, tries: seq<Try>)
    requires tries != [] && q.id in s.records
    ensures var result := Bind(s, p, q, plan, tries).result; var b := s.records[q.id].binding;
      AnsweredFrom(result, b, q, plan) && (result.Success? ==> result.value.binding == b)
  {
    BindingIsForever(s, p, tries[0].before, q.id);
  }

  // Of two tries in a row that are given up, the first met a taken timestamp: an id that
  // others take between read and lock is met again, and answered, by the next try. So
  // Busy means that every timestamp but perhaps the last collided.
  lemma RetriedTwiceMeansCollision(s: LedgerState, p: Policy, q: Request, plan: RunTimestamp -> Plan, t: Try, next: Try)
    requires GivenUp(s, p, q, plan, t) && GivenUp(AfterTry(s, p, t), p, q, plan, next)
    ensures TimestampTaken(AfterTry(s, p, t).records, t.drawn)
  {
    var lock := AfterTry(s, p, t);
    if q.id in lock.records { BindingIsForever(lock, p, next.before, q.id); }
  }

  // -------------------------------------------------------------- refreshing

  // What the cluster says of one other attempt while it is refreshed: the events of others
  // just before, its remote state (or nothing usable) and when that is recorded, and the
  // answer of the scheduler and when that is written.
  datatype Reading = Unusable | Usable(seen: Option<Phase>)
  datatype Monitored = NoAnswer | Answered(terminal: bool)
  datatype News = News(
    others: seq<LedgerEvent>, reading: Reading, recordedAfter: nat, monitored: Monitored, writtenAfter: nat)

  // An unanswered query keeps what the (possibly stale) record says.
  function SchedulerNews(stale: AttemptRecord, m: Monitored): Scheduler {
    match m
    case NoAnswer => Scheduler(false, Terminal(stale))
    case Answered(terminal) => Scheduler(true, terminal)
  }

  predicate SaysSubmitted(reading: Reading) {
    reading.Usable? && reading.seen.Some? && reading.seen.value.Submitted?
  }

  predicate Pending(r: AttemptRecord) { r.submission.status.Reserved? || r.submission.status.Uncertain? }

  // The event that writes scheduler news of a record, if it has a job.
  function SchedulerEvents(s: LedgerState, id: AttemptId, stale: AttemptRecord, news: News): seq<LedgerEvent> {
    if stale.submission.jobId.None? then [] else [RefreshScheduler(id, SchedulerNews(stale, news.monitored), s.clock + news.writtenAfter)]
  }

  // The events of recording a submission that was read, and of what follows from it.
  function SubmissionEvents(s: LedgerState, p: Policy, id: AttemptId, news: News): seq<LedgerEvent>
    requires SaysSubmitted(news.reading)
  {
    var e := RecordRemote(id, news.reading.seen, s.clock + news.recordedAfter);
    var s' := Step(s, p, e);
    if id in s.records then [e] + SchedulerEvents(s', id, s'.records[id], news) else [e]
  }

  // The events of refreshing one listed record.
  function RefreshEvents(s: LedgerState, p: Policy, id: AttemptId, listed: AttemptRecord, news: News): seq<LedgerEvent>
  {
    var s1 := Steps(s, p, news.others);
    news.others +
    if Pending(listed) && news.reading.Unusable? then []
    else if Pending(listed) && SaysSubmitted(news.reading) then SubmissionEvents(s1, p, id, news)
    else SchedulerEvents(s1, id, listed, news)
  }

  // Other attempts of the principal that were active in the listing.
  predicate IsRefreshed(listed: Records, id: AttemptId, principal: Principal, exclude: AttemptId) {
    id in ActiveIds(listed, principal) && id != exclude
  }

  // The events of refreshing the listed records in the given order.
  function RefreshAll(s: LedgerState, p: Policy, listed: Records, ids: seq<AttemptId>, principal: Principal,
                      exclude: AttemptId, news: AttemptId -> News): seq<LedgerEvent>
    decreases |ids|
  {
    if ids == [] then []
    else
      var es := TurnEvents(s, p, listed, ids[0], principal, exclude, news);
      es + RefreshAll(Steps(s, p, es), p, listed, ids[1..], principal, exclude, news)
  }

  predicate IsLeast(ids: set<AttemptId>, least: AttemptId) {
    least in ids && forall other :: other in ids ==> least <= other
  }

  lemma {:induction false} Least(ids: set<AttemptId>) returns (least: AttemptId)
    requires ids != {}
    ensures IsLeast(ids, least)
    decreases |ids|
  {
    var one :| one in ids;
    var rest := ids - {one};
    least := one;
    if rest != {} {
      var low := Least(rest);
      if low < one { least := low; }
      forall other | other in ids ensures least <= other {
        if other != one { assert other in rest; }
      }
    } else {
      assert ids == {one};
    }
  }

  lemma LeastExists(ids: set<AttemptId>)
    requires ids != {}
    ensures exists id :: IsLeast(ids, id)
  {
    var _ := Least(ids);
  }

  // In the middle of the refreshing loop: `events` have happened since s, and ids[i..] are left.
  ghost predicate RefreshingAt(s: LedgerState, p: Policy, listed: Records, ids: seq<AttemptId>, principal: Principal,
                               exclude: AttemptId, news: AttemptId -> News, i: nat, events: seq<LedgerEvent>)
  {
    i <= |ids| && RefreshAll(s, p, listed, ids, principal, exclude, news)
      == events + RefreshAll(Steps(s, p, events), p, listed, ids[i..], principal, exclude, news)
  }

  function TurnEvents(s: LedgerState, p: Policy, listed: Records, id: AttemptId, principal: Principal,
                      exclude: AttemptId, news: AttemptId -> News): seq<LedgerEvent>
  {
    if IsRefreshed(listed, id, principal, exclude) then RefreshEvents(s, p, id, listed[id], news(id)) else []
  }

  lemma RefreshingBegins(s: LedgerState, p: Policy, listed: Records, ids: seq<AttemptId>, principal: Principal,
                         exclude: AttemptId, news: AttemptId -> News)
    ensures RefreshingAt(s, p, listed, ids, principal, exclude, news, 0, [])
  {
    assert ids[0..] == ids && Steps(s, p, []) == s;
  }

  lemma RefreshingGoesOn(s: LedgerState, p: Policy, listed: Records, ids: seq<AttemptId>, principal: Principal,
                         exclude: AttemptId, news: AttemptId -> News, i: nat, events: seq<LedgerEvent>)
    requires RefreshingAt(s, p, listed, ids, principal, exclude, news, i, events) && i < |ids|
    ensures RefreshingAt(s, p, listed, ids, principal, exclude, news, i + 1,
      events + TurnEvents(Steps(s, p, events), p, listed, ids[i], principal, exclude, news))
  {
    var here := Steps(s, p, events);
    var es := TurnEvents(here, p, listed, ids[i], principal, exclude, news);
    assert ids[i..][1..] == ids[i + 1..] && ids[i..][0] == ids[i];
    StepsConcat(s, p, events, es);
    Regrouped(events, es, RefreshAll(Steps(here, p, es), p, listed, ids[i + 1..], principal, exclude, news));
  }

  lemma RefreshingEnds(s: LedgerState, p: Policy, listed: Records, ids: seq<AttemptId>, principal: Principal,
                       exclude: AttemptId, news: AttemptId -> News, events: seq<LedgerEvent>)
    requires RefreshingAt(s, p, listed, ids, principal, exclude, news, |ids|, events)
    ensures RefreshAll(s, p, listed, ids, principal, exclude, news) == events
  {
    assert ids[|ids|..] == [] && events + [] == events;
  }

  // The ids of a listing, in ascending order.
  ghost function Ascending(ids: set<AttemptId>): (r: seq<AttemptId>)
    ensures forall id :: id in r <==> id in ids
  {
    if ids == {} then []
    else
      LeastExists(ids);
      var least :| IsLeast(ids, least);
      [least] + Ascending(ids - {least})
  }

  lemma AscendingFrom(ids: set<AttemptId>, least: AttemptId)
    requires IsLeast(ids, least)
    ensures Ascending(ids) == [least] + Ascending(ids - {least})
  {
  }

  lemma AscendingMoves(done: seq<AttemptId>, ids: set<AttemptId>, least: AttemptId)
    requires IsLeast(ids, least)
    ensures done + Ascending(ids) == (done + [least]) + Ascending(ids - {least})
  {
    AscendingFrom(ids, least);
  }

  // Whether an event brings scheduler news, or a submission, of one attempt.
  predicate TellsScheduler(es: seq<LedgerEvent>, id: AttemptId, terminal: bool) {
    exists e :: e in es && e.RefreshScheduler? && e.id == id && e.found == Scheduler(true, terminal)
  }

  predicate TellsSubmission(es: seq<LedgerEvent>, id: AttemptId, seen: Option<Phase>) {
    exists e :: e in es && e.RecordRemote? && e.id == id && e.seen == seen
  }

  lemma OneIsRefreshed(s: LedgerState, p: Policy, id: AttemptId, listed: AttemptRecord, news: News)
    requires id in s.records && (Pending(listed) ==> news.reading.Usable?)
    ensures var es := RefreshEvents(s, p, id, listed, news);
      && (Pending(listed) && SaysSubmitted(news.reading) ==> TellsSubmission(es, id, news.reading.seen))
      && (news.monitored.Answered?
          && (listed.submission.jobId.Some? || (Pending(listed) && SaysSubmitted(news.reading)))
          ==> TellsScheduler(es, id, news.monitored.terminal))
  {
    var s1 := Steps(s, p, news.others);
    BindingIsForever(s, p, news.others, id);
    var es := RefreshEvents(s, p, id, listed, news);
    if Pending(listed) && SaysSubmitted(news.reading) {
      assert es[|news.others|] == RecordRemote(id, news.reading.seen, s1.clock + news.recordedAfter);
      if news.monitored.Answered? { assert es[|news.others| + 1].RefreshScheduler?; }
    } else if listed.submission.jobId.Some? {
      assert es[|news.others|].RefreshScheduler?;
    }
  }

  // Every other active attempt of the principal about which the cluster has usable news is
  // brought up to date: its submission is recorded and its scheduler state written.
  lemma {:induction false} AllAreRefreshed(s: LedgerState, p: Policy, listed: Records, ids: seq<AttemptId>, principal: Principal,
                                           exclude: AttemptId, news: AttemptId -> News, id: AttemptId)
    requires id in ids && id in s.records && IsRefreshed(listed, id, principal, exclude)
    requires Pending(listed[id]) ==> news(id).reading.Usable?
    ensures var es := RefreshAll(s, p, listed, ids, principal, exclude, news);
      && (Pending(listed[id]) && SaysSubmitted(news(id).reading) ==> TellsSubmission(es, id, news(id).reading.seen))
      && (news(id).monitored.Answered?
          && (listed[id].submission.jobId.Some? || (Pending(listed[id]) && SaysSubmitted(news(id).reading)))
          ==> TellsScheduler(es, id, news(id).monitored.terminal))
    decreases |ids|
  {
    var here := TurnEvents(s, p, listed, ids[0], principal, exclude, news);
    if id == ids[0] {
      OneIsRefreshed(s, p, id, listed[id], news(id));
    } else {
      BindingIsForever(s, p, here, id);
      AllAreRefreshed(Steps(s, p, here), p, listed, ids[1..], principal, exclude, news, id);
    }
  }

  // What scheduler news is written of a job: the answer, or what was known to be finished.
  function FoundOut(r: AttemptRecord, m: Monitored): Scheduler {
    if m.Answered? then Scheduler(true, m.terminal)
    else Scheduler(false, r.scheduler.Some? && r.scheduler.value.terminal)
  }

  // What refreshing one listed record writes, told from its status and job, from what is read
  // of it and from what the scheduler says. A reservation or an uncertain submission whose
  // remote state cannot be used is left alone.
  lemma RefreshedExactly(s: LedgerState, p: Policy, id: AttemptId, listed: AttemptRecord, news: News)
    ensures var s1 := Steps(s, p, news.others);
      var open := listed.submission.status == Reserved || listed.submission.status == Uncertain;
      var told := news.reading.Usable? && news.reading.seen.Some? && news.reading.seen.value.Submitted?;
      RefreshEvents(s, p, id, listed, news) == news.others +
        if open && news.reading.Unusable? then []
        else if open && told then
          [RecordRemote(id, news.reading.seen, s1.clock + news.recordedAfter)]
          + (if id !in s1.records then []
             else [RefreshScheduler(id, FoundOut(s1.records[id], news.monitored), s1.clock + news.recordedAfter + news.writtenAfter)])
        else if listed.submission.jobId.None? then []
        else [RefreshScheduler(id, FoundOut(listed, news.monitored), s1.clock + news.writtenAfter)]
  {
  }

  // Exactly the other active attempts of the principal are refreshed: reserved, submitted or
  // uncertain in the listing, and not known there to be finished.
  lemma OthersAreRefreshed(s: LedgerState, p: Policy, listed: Records, id: AttemptId, principal: Principal,
                           exclude: AttemptId, news: AttemptId -> News)
    requires id in listed
    ensures var r := listed[id]; var status := r.submission.status;
      TurnEvents(s, p, listed, id, principal, exclude, news) ==
        if id != exclude && r.binding.principal == principal
           && (status == Reserved || status == SubmittedToSlurm || status == Uncertain)
           && !(r.scheduler.Some? && r.scheduler.value.terminal)
        then RefreshEvents(s, p, id, r, news(id)) else []
  {
  }

  // --------------------------------------------------------------- reserving

  function RefusalFor(g: Grant): Option<Refusal> {
    match g
    case Unknown => Some(LedgerInconsistent)
    case AlreadyCounted => None
    case WindowFull => Some(SubmissionCap)
    case ActiveFull => Some(ActiveCap)
    case Granted => None
  }

  function GrantAt(s: LedgerState, p: Policy, id: AttemptId, principal: Principal, wait: nat): Grant {
    ReserveVerdict(s.records, p, id, principal, s.clock + wait)
  }

  // What surrounds a reservation: how long until the first look, what the refresh finds,
  // what others do before the deciding section, and how long that takes.
  datatype Surroundings = Surroundings(
    look: nat, news: AttemptId -> News, between: seq<LedgerEvent>, wait: nat, work: nat)

  // The first look finds the active cap, and only that, in the way.
  predicate NeedsRefresh(s: LedgerState, p: Policy, id: AttemptId, principal: Principal, a: Surroundings) {
    GrantAt(s, p, id, principal, a.look).ActiveFull?
  }

  lemma NeedsRefreshExactly(s: LedgerState, p: Policy, id: AttemptId, principal: Principal, a: Surroundings)
    requires id in s.records && !Counted(s.records[id].submission.status)
    ensures !GrantAt(s, p, id, principal, a.look).AlreadyCounted?
    ensures NeedsRefresh(s, p, id, principal, a) <==>
      && |WindowIds(s.records, principal, s.clock + a.look - p.window)| < p.maxSubmissions
      && |ActiveIds(s.records, principal)| >= p.maxActive
  {
  }

  // The refresh, if there is one.
  ghost function RefreshFirst(s: LedgerState, p: Policy, id: AttemptId, principal: Principal, a: Surroundings): seq<LedgerEvent> {
    if NeedsRefresh(s, p, id, principal, a)
    then RefreshAll(s, p, s.records, Ascending(s.records.Keys), principal, id, a.news) else []
  }

  datatype Reserving = Reserving(refusal: Option<Refusal>, events: seq<LedgerEvent>)

  // The deciding section, on the state it finds.
  function Decide(s: LedgerState, p: Policy, id: AttemptId, principal: Principal, wait: nat, work: nat): Reserving {
    var verdict := GrantAt(s, p, id, principal, wait);
    Reserving(RefusalFor(verdict),
              if verdict.Granted? then [Reserve(id, principal, s.clock + wait, s.clock + wait + work)] else [])
  }

  ghost function Reservation(s: LedgerState, p: Policy, id: AttemptId, principal: Principal, a: Surroundings): Reserving {
    if GrantAt(s, p, id, principal, a.look).AlreadyCounted? then Reserving(None, [])
    else
      var before := RefreshFirst(s, p, id, principal, a) + a.between;
      var decided := Decide(Steps(s, p, before), p, id, principal, a.wait, a.work);
      Reserving(decided.refusal, before + decided.events)
  }

  // After a reservation that is not refused the record is counted.
  lemma ReservedMeansCounted(s: LedgerState, p: Policy, id: AttemptId, principal: Principal, a: Surroundings)
    requires id in s.records && Reservation(s, p, id, principal, a).refusal.None?
    ensures var s' := Steps(s, p, Reservation(s, p, id, principal, a).events);
      id in s'.records && Counted(s'.records[id].submission.status)
  {
    if !GrantAt(s, p, id, principal, a.look).AlreadyCounted? {
      var before := RefreshFirst(s, p, id, principal, a) + a.between;
      var s1 := Steps(s, p, before);
      BindingIsForever(s, p, before, id);
      var own := Decide(s1, p, id, principal, a.wait, a.work).events;
      StepsConcat(s, p, before, own);
      if own != [] { assert Steps(s1, p, own) == Steps(Step(s1, p, own[0]), p, own[1..]); }
    }
  }

  // What a reservation answers, told from the record and the two counts: at its first look a
  // record that is counted already decides; otherwise the state at the second section does,
  // by the window first and the active jobs then, unless the record is counted by now.
  lemma ReservationExactly(s: LedgerState, p: Policy, id: AttemptId, principal: Principal, a: Surroundings)
    requires id in s.records
    ensures var r := Reservation(s, p, id, principal, a);
      if Counted(s.records[id].submission.status) then r == Reserving(None, [])
      else
        var before := RefreshFirst(s, p, id, principal, a) + a.between;
        var now := Steps(s, p, before);
        var counted := id in now.records && Counted(now.records[id].submission.status);
        var full := |WindowIds(now.records, principal, now.clock + a.wait - p.window)| >= p.maxSubmissions;
        var busy := |ActiveIds(now.records, principal)| >= p.maxActive;
        var at := now.clock + a.wait;
        && (r.refusal == Some(SubmissionCap) <==> !counted && full)
        && (r.refusal == Some(ActiveCap) <==> !counted && !full && busy)
        && (r.refusal == None <==> counted || (!full && !busy))
        && r.events == before + (if !counted && !full && !busy then [Reserve(id, principal, at, at + a.work)] else [])
  {
    if !Counted(s.records[id].submission.status) {
      NeedsRefreshExactly(s, p, id, principal, a);
      BindingIsForever(s, p, RefreshFirst(s, p, id, principal, a) + a.between, id);
    }
  }

  // "Before refusing, Compute refreshes the principal's other jobs": of the refusals for the
  // active cap, those come without a refresh whose first look finds the window full or the
  // active cap not reached; and in the second case others raised the active count after it.
  lemma UnrefreshedRefusalExactly(s: LedgerState, p: Policy, id: AttemptId, principal: Principal, a: Surroundings)
    requires id in s.records && Reservation(s, p, id, principal, a).refusal == Some(ActiveCap)
    ensures !NeedsRefresh(s, p, id, principal, a) <==>
      || |WindowIds(s.records, principal, s.clock + a.look - p.window)| >= p.maxSubmissions
      || |ActiveIds(s.records, principal)| < p.maxActive
    ensures !NeedsRefresh(s, p, id, principal, a) ==> RefreshFirst(s, p, id, principal, a) == []
    ensures |ActiveIds(s.records, principal)| < p.maxActive ==>
      |ActiveIds(Steps(s, p, a.between).records, principal)| > |ActiveIds(s.records, principal)|
  {
    assert [] + a.between == a.between;
    NeedsRefreshExactly(s, p, id, principal, a);
  }
}
