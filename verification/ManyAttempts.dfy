/**
 The machine API over any number of attempts (compute_api/execution.py:263-722): one
 ledger, and for each bound attempt the machine of MachineExecution. Whatever PUTs,
 lookups, refreshes and remote steps of whatever attempts interleave, what is done to the
 ledger is a permitted run of it.
 */
module ManyAttempts {
  import opened Wrappers
  import opened SubmissionProtocol
  import L = Ledger
  import opened LedgerCaps
  import opened MachineExecution
  import opened MachineTheorems
  import opened MachineLasting

  // What an attempt's machine has beside the ledger.
  datatype Part = Part(fp: Fingerprint, remote: State, puts: map<PutId, Put>, lookups: map<nat, Phase>)

  datatype Many = Many(ledger: L.LedgerState, parts: map<L.AttemptId, Part>)

  const NOTHING := Many(L.EMPTY, map[])

  datatype ManyEvent =
    | Bind(id: L.AttemptId, binding: L.Binding, files: nat, checkedAt: nat, now: nat)
    | At(id: L.AttemptId, e: WorldEvent)

  function NewPart(fp: Fingerprint, files: nat): Part { Part(fp, Init(files), map[], map[]) }

  // The machine of one attempt, and what it leaves of the whole.
  function View(m: Many, id: L.AttemptId): World
    requires id in m.parts
  {
    var part := m.parts[id];
    World(id, part.fp, part.remote, m.ledger, part.puts, part.lookups)
  }

  function Back(m: Many, w: World): Many {
    Many(w.ledger, m.parts[w.attempt := Part(w.fp, w.remote, w.puts, w.lookups)])
  }

  // What one attempt's machine takes for events elsewhere is here done by the others; only
  // the scheduler's news of the attempt itself remains.
  predicate Concerns(id: L.AttemptId, e: WorldEvent) {
    e.Elsewhere? ==> e.le.RefreshScheduler? && e.le.id == id
  }

  function ApplyMany(m: Many, p: L.Policy, limit: nat, e: ManyEvent): Many {
    match e
    case Bind(id, b, files, checkedAt, now) =>
      var s := L.Step(m.ledger, p, L.Create(id, b, checkedAt, now));
      Many(s, if id in s.records && id !in m.ledger.records then m.parts[id := NewPart(b.fingerprint, files)] else m.parts)
    case At(id, we) =>
      if id in m.parts && Concerns(id, we) then Back(m, ApplyWorld(View(m, id), p, limit, we)) else m
  }

  function RunMany(m: Many, p: L.Policy, limit: nat, es: seq<ManyEvent>): Many
    decreases |es|
  {
    if es == [] then m else RunMany(ApplyMany(m, p, limit, es[0]), p, limit, es[1..])
  }

  // Remote reports are true, and the scheduler takes "finished" back only if it may.
  predicate IsOrderly(m: Many, takesBack: bool, e: ManyEvent) {
    e.At? ==>
      && (e.e.Remote? ==> Allowed(TRUTHFUL, e.e.e))
      && (e.e.Elsewhere? && TakesBack(m.ledger, e.e.le) ==> takesBack)
  }

  predicate Orderly(m: Many, p: L.Policy, limit: nat, takesBack: bool, es: seq<ManyEvent>)
    decreases |es|
  {
    es == [] || (IsOrderly(m, takesBack, es[0]) && Orderly(ApplyMany(m, p, limit, es[0]), p, limit, takesBack, es[1..]))
  }

  lemma {:induction false} RunManyConcat(m: Many, p: L.Policy, limit: nat, takesBack: bool, a: seq<ManyEvent>, b: seq<ManyEvent>)
    ensures RunMany(m, p, limit, a + b) == RunMany(RunMany(m, p, limit, a), p, limit, b)
    ensures Orderly(m, p, limit, takesBack, a) && Orderly(RunMany(m, p, limit, a), p, limit, takesBack, b)
      ==> Orderly(m, p, limit, takesBack, a + b)
    decreases |a|
  {
    if a == [] {
      assert a + b == b;
    } else {
      assert (a + b)[1..] == a[1..] + b;
      RunManyConcat(ApplyMany(m, p, limit, a[0]), p, limit, takesBack, a[1..], b);
    }
  }

  // ------------------------------------------------------------- the ledger's run

  // What an event does to the ledger, if anything.
  function Does(m: Many, e: ManyEvent): Option<L.LedgerEvent> {
    match e
    case Bind(id, b, files, checkedAt, now) => Some(L.Create(id, b, checkedAt, now))
    case At(id, we) =>
      if id in m.parts && id in m.ledger.records && Concerns(id, we) then Written(View(m, id), we) else None
  }

  function Trace(m: Many, p: L.Policy, limit: nat, es: seq<ManyEvent>): seq<L.LedgerEvent>
    decreases |es|
  {
    if es == [] then []
    else
      (if Does(m, es[0]).Some? then [Does(m, es[0]).value] else [])
      + Trace(ApplyMany(m, p, limit, es[0]), p, limit, es[1..])
  }

  // alone: no attempt has two PUTs in flight.
  ghost predicate ManyInv(m: Many, alone: bool) {
    && m.parts.Keys == m.ledger.records.Keys
    && forall id :: id in m.parts ==> PartInv(View(m, id), alone)
  }

  ghost predicate PartInv(w: World, alone: bool) {
    WorldInv(w) && RequestedInv(w) && (alone ==> CountedInv(w))
  }

  lemma DoesExactly(m: Many, p: L.Policy, limit: nat, e: ManyEvent)
    requires m.parts.Keys == m.ledger.records.Keys
    ensures ApplyMany(m, p, limit, e).ledger
         == if Does(m, e).Some? then L.Step(m.ledger, p, Does(m, e).value) else m.ledger
  {
    if e.At? && e.id in m.parts { WrittenExactly(View(m, e.id), p, limit, e.e); }
  }

  // Only the record of the attempt changes, and none comes or goes.
  lemma StepFrame(s: L.LedgerState, p: L.Policy, e: L.LedgerEvent)
    ensures !e.Create? ==> L.Step(s, p, e).records.Keys == s.records.Keys
    ensures L.Step(s, p, e).records.Keys <= s.records.Keys + {e.id}
    ensures forall id :: id in s.records && (id != e.id || e.Create?) ==>
      id in L.Step(s, p, e).records && L.Step(s, p, e).records[id] == s.records[id]
  {
  }

  lemma WrittenIsOwn(w: World, e: WorldEvent)
    requires w.attempt in w.ledger.records && Concerns(w.attempt, e) && Written(w, e).Some?
    ensures Written(w, e).value.id == w.attempt && !Written(w, e).value.Create?
  {
  }

  // The rest of the ledger may change without an attempt's machine being concerned.
  lemma PartFrame(w: World, ledger: L.LedgerState, alone: bool)
    requires PartInv(w, alone)
    requires w.attempt in ledger.records && ledger.records[w.attempt] == w.ledger.records[w.attempt]
    ensures PartInv(w.(ledger := ledger), alone)
  {
    var w' := w.(ledger := ledger);
    forall q | q in w'.remote.procs ensures ProcInv(w', q) { assert ProcInv(w, q); }
    assert Submission(w') == Submission(w);
  }

  lemma NewPartInv(w: World, files: nat)
    requires Bound(w, files)
    ensures PartInv(w, true)
  {
    BoundInv(w, files);
  }

  lemma PartStep(w: World, p: L.Policy, limit: nat, e: WorldEvent)
    requires PartInv(w, limit <= 1) && (e.Remote? ==> Allowed(TRUTHFUL, e.e))
    ensures PartInv(ApplyWorld(w, p, limit, e), limit <= 1)
  {
    WorldStep(w, p, limit, e);
    RequestedStep(w, p, limit, e);
    if limit <= 1 { CountedStep(w, p, limit, e); }
  }

  lemma PartAfterBind(m: Many, p: L.Policy, e: ManyEvent, id: L.AttemptId, alone: bool)
    requires ManyInv(m, alone) && e.Bind? && id in ApplyMany(m, p, 0, e).parts
    ensures id in ApplyMany(m, p, 0, e).ledger.records && PartInv(View(ApplyMany(m, p, 0, e), id), alone)
  {
    var m' := ApplyMany(m, p, 0, e);
    StepFrame(m.ledger, p, L.Create(e.id, e.binding, e.checkedAt, e.now));
    if id in m.parts {
      PartFrame(View(m, id), m'.ledger, alone);
      assert View(m', id) == View(m, id).(ledger := m'.ledger);
    } else {
      assert m'.ledger.records[id] == L.NewRecord(e.binding, e.now);
      NewPartInv(View(m', id), e.files);
    }
  }

  lemma BindInv(m: Many, p: L.Policy, limit: nat, e: ManyEvent)
    requires ManyInv(m, limit <= 1) && e.Bind?
    ensures ManyInv(ApplyMany(m, p, limit, e), limit <= 1)
  {
    var m' := ApplyMany(m, p, limit, e);
    StepFrame(m.ledger, p, L.Create(e.id, e.binding, e.checkedAt, e.now));
    forall id | id in m'.parts ensures PartInv(View(m', id), limit <= 1) { PartAfterBind(m, p, e, id, limit <= 1); }
  }

  lemma AtInv(m: Many, p: L.Policy, limit: nat, takesBack: bool, e: ManyEvent)
    requires ManyInv(m, limit <= 1) && e.At? && IsOrderly(m, takesBack, e)
    ensures ManyInv(ApplyMany(m, p, limit, e), limit <= 1)
  {
    var m' := ApplyMany(m, p, limit, e);
    if e.id in m.parts && Concerns(e.id, e.e) {
      var w := View(m, e.id);
      var w' := ApplyWorld(w, p, limit, e.e);
      PartStep(w, p, limit, e.e);
      WrittenExactly(w, p, limit, e.e);
      if Written(w, e.e).Some? {
        WrittenIsOwn(w, e.e);
        StepFrame(m.ledger, p, Written(w, e.e).value);
      }
      assert View(m', e.id) == w';
      forall id | id in m'.parts && id != e.id ensures PartInv(View(m', id), limit <= 1) {
        PartFrame(View(m, id), m'.ledger, limit <= 1);
        assert View(m', id) == View(m, id).(ledger := m'.ledger);
      }
    }
  }

  lemma DoesPermitted(m: Many, limit: nat, takesBack: bool, e: ManyEvent)
    requires ManyInv(m, limit <= 1) && IsOrderly(m, takesBack, e) && Does(m, e).Some?
    ensures Permitted(Surprises(limit > 1, takesBack), m.ledger, Does(m, e).value)
  {
    if e.At? {
      var w := View(m, e.id);
      assert PartInv(w, limit <= 1);
      WrittenIsOwn(w, e.e);
      if Records(w, e.e) {
        AskedBefore(w, e.e);
        if limit <= 1 { RecordingIsNotLate(w, e.e); }
      }
    }
  }

  // Over any number of attempts: a run of the machine is a run of the ledger in which no
  // submission is recorded that was never asked for, none is recorded late unless some
  // attempt has two PUTs in flight, and the scheduler takes back no more than it may.
  lemma {:induction false} TraceIsPermitted(m: Many, p: L.Policy, limit: nat, takesBack: bool, es: seq<ManyEvent>)
    requires ManyInv(m, limit <= 1) && Orderly(m, p, limit, takesBack, es)
    ensures ManyInv(RunMany(m, p, limit, es), limit <= 1)
    ensures PermittedRun(Surprises(limit > 1, takesBack), m.ledger, p, Trace(m, p, limit, es))
    ensures RunMany(m, p, limit, es).ledger == L.Steps(m.ledger, p, Trace(m, p, limit, es))
    decreases |es|
  {
    if es != [] {
      var m' := ApplyMany(m, p, limit, es[0]);
      if es[0].Bind? { BindInv(m, p, limit, es[0]); } else { AtInv(m, p, limit, takesBack, es[0]); }
      DoesExactly(m, p, limit, es[0]);
      TraceIsPermitted(m', p, limit, takesBack, es[1..]);
      var rest := Trace(m', p, limit, es[1..]);
      if Does(m, es[0]).Some? {
        DoesPermitted(m, limit, takesBack, es[0]);
        assert ([Does(m, es[0]).value] + rest)[1..] == rest;
      } else {
        assert [] + rest == rest;
      }
    }
  }

  // ------------------------------------------------------------------- the caps

  ghost predicate ManyActiveCap(p: L.Policy, limit: nat, takesBack: bool) {
    forall es :: Orderly(NOTHING, p, limit, takesBack, es) ==> WithinActiveCap(RunMany(NOTHING, p, limit, es).ledger, p)
  }

  ghost predicate ManySubmissionCap(p: L.Policy, limit: nat, takesBack: bool, length: nat) {
    forall es :: Orderly(NOTHING, p, limit, takesBack, es) ==>
      WithinSubmissionCap(RunMany(NOTHING, p, limit, es).ledger, p, length)
  }

  // Over any number of attempts, of which none has two PUTs in flight: no principal has
  // more active jobs than the cap, unless the scheduler takes back "finished" ...
  lemma ActiveCapWithoutOverlap(p: L.Policy, limit: nat)
    requires limit <= 1
    ensures ManyActiveCap(p, limit, false)
  {
    ActiveCapKept(p);
    forall es | Orderly(NOTHING, p, limit, false, es) ensures WithinActiveCap(RunMany(NOTHING, p, limit, es).ledger, p) {
      TraceIsPermitted(NOTHING, p, limit, false, es);
    }
  }

  // ... and no stretch of time holds more submissions than the cap.
  lemma SubmissionCapWithoutOverlap(p: L.Policy, limit: nat, takesBack: bool, length: nat)
    requires limit <= 1 && length <= p.window - (L.MICROS - 1)
    ensures ManySubmissionCap(p, limit, takesBack, length)
  {
    var x := Surprises(false, takesBack);
    SubmissionCapKept(p, x, length);
    forall es | Orderly(NOTHING, p, limit, takesBack, es)
      ensures WithinSubmissionCap(RunMany(NOTHING, p, limit, es).ledger, p, length)
    {
      TraceIsPermitted(NOTHING, p, limit, takesBack, es);
    }
  }
}
