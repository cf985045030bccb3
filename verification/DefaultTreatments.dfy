/**
 The automatic treatment of the workflow behind a desired output
 (backend/calculations/default_treatments.py:172-291, 395-625). What the structure
 analysis found is given; it does not depend on the workflow.
 */
module DefaultTreatments {
  import opened Wrappers
  import opened Workflows

  datatype DftUDecision = NotTriggered | Suppressed | Apply(parameters: Frozen)

  // What the analysis of the structure triggered.
  datatype Findings = Findings(
    dimensionalityFailed: bool, spin: bool, dispersion: bool, soc: bool, dftU: DftUDecision)

  datatype Treatment = AddSpin | AddDispersion | AddSoc | AddDftU(parameters: Frozen)

  function Adds(t: Treatment): Modifier {
    match t
    case AddSpin => SPIN_POLARIZED
    case AddDispersion => DISPERSION
    case AddSoc => SOC
    case AddDftU(_) => DFT_U
  }

  predicate Receives(t: Treatment, s: Stage) {
    match t
    case AddSpin => true
    case AddSoc => s.kind != Relax && s.theory != HSE06
    case AddDispersion => IsPbeRelaxOrStatic(s)
    case AddDftU(_) => IsPbeRelaxOrStatic(s)
  }

  // Stages that would get SOC were it not for their theory.
  predicate Omits(t: Treatment, s: Stage) { t.AddSoc? && s.kind != Relax && s.theory == HSE06 }

  function NewOptions(t: Treatment, o: Options): Options {
    match t
    case AddDispersion => o.(dispersion := Chosen(DEFAULT_METHOD))
    case AddDftU(parameters) => o.(dftU := Some(parameters))
    case _ => o
  }

  function Treat(t: Treatment, s: Stage): Stage {
    if Receives(t, s) then s.(modifiers := s.modifiers + {Adds(t)}, options := NewOptions(t, s.options)) else s
  }

  function Treated(t: Treatment, stages: seq<Stage>): (r: seq<Stage>) {
    seq(|stages|, i requires 0 <= i < |stages| => Treat(t, stages[i]))
  }

  // Each stage that a treatment changes must be sound afterwards.
  predicate Applies(t: Treatment, stages: seq<Stage>) {
    forall i :: 0 <= i < |stages| && Receives(t, stages[i]) ==> StageProblem(Treat(t, stages[i])) == None
  }

  // The stages that a treatment changes, numbered from one.
  function Receivers(t: Treatment, stages: seq<Stage>): seq<nat> {
    if stages == [] then []
    else
      var n := |stages|;
      Receivers(t, stages[..n - 1]) + if Receives(t, stages[n - 1]) then [n] else []
  }

  function Omissions(t: Treatment, stages: seq<Stage>): seq<nat> {
    if stages == [] then []
    else
      var n := |stages|;
      Omissions(t, stages[..n - 1]) + if Omits(t, stages[n - 1]) then [n] else []
  }

  lemma NumbersStep(t: Treatment, stages: seq<Stage>, i: nat)
    requires i < |stages|
    ensures Receivers(t, stages[..i + 1]) == Receivers(t, stages[..i]) + if Receives(t, stages[i]) then [i + 1] else []
    ensures Omissions(t, stages[..i + 1]) == Omissions(t, stages[..i]) + if Omits(t, stages[i]) then [i + 1] else []
  {
    assert stages[..i + 1][..i] == stages[..i];
  }

  lemma TreatedStep(t: Treatment, stages: seq<Stage>, i: nat)
    requires i < |stages|
    ensures Treated(t, stages[..i + 1]) == Treated(t, stages[..i]) + [Treat(t, stages[i])]
    ensures Applies(t, stages[..i + 1]) <==>
      Applies(t, stages[..i]) && (Receives(t, stages[i]) ==> StageProblem(Treat(t, stages[i])) == None)
  {
    assert stages[..i + 1] == stages[..i] + [stages[i]];
    assert forall k :: 0 <= k < i ==> stages[..i + 1][k] == stages[..i][k];
  }

  method ApplyTreatment(t: Treatment, stages: seq<Stage>)
    returns (ok: bool, resolved: seq<Stage>, applied: seq<nat>, omitted: seq<nat>)
    ensures ok <==> Applies(t, stages)
    ensures ok ==> resolved == Treated(t, stages)
    ensures ok ==> applied == Receivers(t, stages) && omitted == Omissions(t, stages)
  {
    ok, resolved, applied, omitted := true, [], [], [];
    var i := 0;
    while i < |stages|
      invariant 0 <= i <= |stages|
      invariant resolved == Treated(t, stages[..i]) && Applies(t, stages[..i])
      invariant applied == Receivers(t, stages[..i]) && omitted == Omissions(t, stages[..i])
    {
      NumbersStep(t, stages, i);
      TreatedStep(t, stages, i);
      if Receives(t, stages[i]) {
        var treated := Treat(t, stages[i]);
        if StageProblem(treated).Some? {
          ok := false;
          return;
        }
        resolved, applied := resolved + [treated], applied + [i + 1];
      } else {
        if Omits(t, stages[i]) { omitted := omitted + [i + 1]; }
        resolved := resolved + [stages[i]];
      }
      i := i + 1;
    }
    assert stages[..i] == stages;
  }

  // ----------------------------------------------------------- the resolver

  datatype Record = Record(treatment: Treatment, stages: seq<nat>)

  datatype Progress = Progress(
    stages: seq<Stage>, applied: seq<Record>, omitted: seq<nat>, notApplicable: set<Modifier>)

  datatype Resolution = Resolution(base: Workflow, resolved: Workflow, report: Progress)

  function RecordOf(t: Treatment, reached: seq<nat>): seq<Record> {
    if reached == [] then [] else [Record(t, reached)]
  }

  // SOC and DFT+U are reported as not applicable when they find no stage.
  function UnusedOf(t: Treatment, reached: seq<nat>, left: seq<nat>): set<Modifier> {
    if reached == [] && left == [] && (t.AddSoc? || t.AddDftU?) then {Adds(t)} else {}
  }

  function Extended(p: Progress, t: Treatment): Result<Progress, Problem> {
    if !Applies(t, p.stages) then Failure(TreatmentUnavailable(Adds(t)))
    else
      var reached, left := Receivers(t, p.stages), Omissions(t, p.stages);
      Success(Progress(Treated(t, p.stages), p.applied + RecordOf(t, reached), p.omitted + left,
                       p.notApplicable + UnusedOf(t, reached, left)))
  }

  function When(wanted: bool, p: Result<Progress, Problem>, t: Treatment): Result<Progress, Problem> {
    if wanted && p.Success? then Extended(p.value, t) else p
  }

  function WithDftU(d: DftUDecision, p: Result<Progress, Problem>): Result<Progress, Problem> {
    match d
    case NotTriggered => p
    case Suppressed =>
      if p.Failure? then p else Success(p.value.(notApplicable := p.value.notApplicable + {DFT_U}))
    case Apply(parameters) => When(true, p, AddDftU(parameters))
  }

  function Start(base: seq<Stage>): Progress { Progress(base, [], [], {}) }

  function TreatedInTurn(f: Findings, base: seq<Stage>): Result<Progress, Problem> {
    var spun := When(f.spin, Success(Start(base)), AddSpin);
    var bound := When(f.dispersion, spun, AddDispersion);
    var coupled := When(f.soc, bound, AddSoc);
    WithDftU(f.dftU, coupled)
  }

  function Resolve(f: Findings, base: Workflow): Result<Resolution, Problem> {
    if WorkflowProblem(base.stages).Some? then Failure(WorkflowProblem(base.stages).value)
    else if f.dimensionalityFailed then Failure(DimensionalityUnknown)
    else
      match TreatedInTurn(f, base.stages)
      case Failure(problem) => Failure(problem)
      case Success(p) =>
        if WorkflowProblem(p.stages).Some? then Failure(WorkflowProblem(p.stages).value)
        else Success(Resolution(base, base.(stages := p.stages), p))
  }

  method Extend(p: Progress, t: Treatment) returns (r: Result<Progress, Problem>)
    ensures r == Extended(p, t)
  {
    var ok, stages, reached, left := ApplyTreatment(t, p.stages);
    if !ok { return Failure(TreatmentUnavailable(Adds(t))); }
    r := Success(Progress(stages, p.applied + RecordOf(t, reached), p.omitted + left,
                          p.notApplicable + UnusedOf(t, reached, left)));
  }

  method ResolveDefaultTreatments(f: Findings, base: Workflow) returns (r: Result<Resolution, Problem>)
    ensures r == Resolve(f, base)
  {
    var problem := ValidateWorkflow(base.stages);
    if problem.Some? { return Failure(problem.value); }
    if f.dimensionalityFailed { return Failure(DimensionalityUnknown); }
    var p: Result<Progress, Problem> := Success(Start(base.stages));
    if f.spin { p := Extend(p.value, AddSpin); }
    if p.Success? && f.dispersion { p := Extend(p.value, AddDispersion); }
    if p.Success? && f.soc { p := Extend(p.value, AddSoc); }
    if p.Success? && f.dftU.Apply? { p := Extend(p.value, AddDftU(f.dftU.parameters)); }
    if p.Failure? { return Failure(p.error); }
    var report := p.value;
    if f.dftU.Suppressed? { report := report.(notApplicable := report.notApplicable + {DFT_U}); }
    problem := ValidateWorkflow(report.stages);
    if problem.Some? { return Failure(problem.value); }
    r := Success(Resolution(base, base.(stages := report.stages), report));
  }
}
