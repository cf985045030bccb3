/** What the automatic treatments do to a workflow, and exactly when they cannot. */
module TreatmentTheorems {
  import opened Wrappers
  import opened Workflows
  import opened DefaultTreatments

  // ------------------------------------------------------ stage by stage

  // A stage after all the treatments that the findings ask for.
  function Final(f: Findings, s: Stage): Stage {
    var spun := if f.spin then Treat(AddSpin, s) else s;
    var bound := if f.dispersion then Treat(AddDispersion, spun) else spun;
    var coupled := if f.soc then Treat(AddSoc, bound) else bound;
    if f.dftU.Apply? then Treat(AddDftU(f.dftU.parameters), coupled) else coupled
  }

  // The modifiers that the findings put on a stage of this type and theory.
  function Added(f: Findings, s: Stage): set<Modifier> {
    (if f.spin then {SPIN_POLARIZED} else {})
    + (if f.dispersion && IsPbeRelaxOrStatic(s) then {DISPERSION} else {})
    + (if f.soc && s.kind != Relax && s.theory != HSE06 then {SOC} else {})
    + (if f.dftU.Apply? && IsPbeRelaxOrStatic(s) then {DFT_U} else {})
  }

  lemma FinalShape(f: Findings, s: Stage)
    ensures var t := Final(f, s);
      && t.kind == s.kind && t.theory == s.theory && t.name == s.name
      && t.modifiers == s.modifiers + Added(f, s)
      && t.options.foreign == s.options.foreign
      && t.options.dispersion ==
         (if f.dispersion && IsPbeRelaxOrStatic(s) then Chosen(DEFAULT_METHOD) else s.options.dispersion)
      && t.options.dftU ==
         (if f.dftU.Apply? && IsPbeRelaxOrStatic(s) then Some(f.dftU.parameters) else s.options.dftU)
  {
  }

  lemma FinalTwice(f: Findings, s: Stage)
    ensures Final(f, Final(f, s)) == Final(f, s)
  {
    FinalShape(f, s);
    FinalShape(f, Final(f, s));
  }

  // When a sound stage can carry a treatment: only SOC on a PBE analysis and
  // malformed DFT+U parameters are refused.
  predicate Bears(t: Treatment, s: Stage) {
    match t
    case AddSoc => !(IsAnalysis(s) && s.theory == PBE)
    case AddDftU(parameters) => IsPbeRelaxOrStatic(s) ==> parameters.wellFormed
    case _ => true
  }

  lemma BearsExactly(t: Treatment, s: Stage)
    requires StageProblem(s) == None
    ensures StageProblem(Treat(t, s)) == None <==> Bears(t, s)
  {
  }

  lemma AppliesExactly(t: Treatment, stages: seq<Stage>)
    requires StagesOk(stages)
    ensures Applies(t, stages) <==> forall i :: 0 <= i < |stages| ==> Bears(t, stages[i])
    ensures Applies(t, stages) ==> StagesOk(Treated(t, stages))
  {
    forall i | 0 <= i < |stages|
      ensures StageProblem(Treat(t, stages[i])) == None <==> Bears(t, stages[i])
      ensures !Receives(t, stages[i]) ==> Treat(t, stages[i]) == stages[i]
    {
      BearsExactly(t, stages[i]);
    }
  }

  predicate SameShape(a: seq<Stage>, b: seq<Stage>) {
    |a| == |b| && forall i :: 0 <= i < |a| ==> a[i].kind == b[i].kind && a[i].theory == b[i].theory
  }

  lemma {:induction false} SameNumbers(t: Treatment, a: seq<Stage>, b: seq<Stage>)
    requires SameShape(a, b)
    ensures Receivers(t, a) == Receivers(t, b) && Omissions(t, a) == Omissions(t, b)
    decreases |a|
  {
    if a != [] {
      var n := |a| - 1;
      SameNumbers(t, a[..n], b[..n]);
    }
  }

  // --------------------------------------------------------- the whole chain

  // What the chain has reached after the first few treatments.
  ghost predicate Reached(base: seq<Stage>, p: Progress) {
    SameShape(p.stages, base) && StagesOk(p.stages)
  }

  ghost predicate AllBear(t: Treatment, stages: seq<Stage>) {
    forall i :: 0 <= i < |stages| ==> Bears(t, stages[i])
  }

  lemma AllBearAlike(t: Treatment, a: seq<Stage>, b: seq<Stage>)
    requires SameShape(a, b)
    ensures AllBear(t, a) <==> AllBear(t, b)
  {
  }

  lemma ChainStep(base: seq<Stage>, p: Progress, t: Treatment)
    requires Reached(base, p)
    ensures Extended(p, t).Success? <==> AllBear(t, base)
    ensures Extended(p, t).Success? ==>
      var q := Extended(p, t).value;
      && Reached(base, q) && q.stages == Treated(t, p.stages)
      && q.applied == p.applied + RecordOf(t, Receivers(t, base))
      && q.omitted == p.omitted + Omissions(t, base)
      && q.notApplicable == p.notApplicable + UnusedOf(t, Receivers(t, base), Omissions(t, base))
  {
    AppliesExactly(t, p.stages);
    SameNumbers(t, p.stages, base);
    AllBearAlike(t, p.stages, base);
  }

  // Every treatment that the findings ask for can be carried by every stage.
  ghost predicate Bearable(f: Findings, base: seq<Stage>) {
    && (f.soc ==> AllBear(AddSoc, base))
    && (f.dftU.Apply? ==> AllBear(AddDftU(f.dftU.parameters), base))
  }

  function RecordIf(wanted: bool, t: Treatment, base: seq<Stage>): seq<Record> {
    if wanted then RecordOf(t, Receivers(t, base)) else []
  }

  function AppliedOf(f: Findings, base: seq<Stage>): seq<Record> {
    RecordIf(f.spin, AddSpin, base) + RecordIf(f.dispersion, AddDispersion, base)
    + RecordIf(f.soc, AddSoc, base)
    + (if f.dftU.Apply? then RecordIf(true, AddDftU(f.dftU.parameters), base) else [])
  }

  // The stages that the treatments leave.
  function FinalStages(f: Findings, base: seq<Stage>): (stages: seq<Stage>) {
    seq(|base|, i requires 0 <= i < |base| => Final(f, base[i]))
  }

  // The report, told from the base alone.
  function ReportOf(f: Findings, base: seq<Stage>): Progress {
    Progress(
      FinalStages(f, base),
      AppliedOf(f, base),
      if f.soc then Omissions(AddSoc, base) else [],
      (if f.soc then UnusedOf(AddSoc, Receivers(AddSoc, base), Omissions(AddSoc, base)) else {})
      + DftUUnused(f.dftU, base))
  }

  function DftUUnused(d: DftUDecision, base: seq<Stage>): set<Modifier> {
    match d
    case NotTriggered => {}
    case Suppressed => {DFT_U}
    case Apply(p) => UnusedOf(AddDftU(p), Receivers(AddDftU(p), base), [])
  }

  lemma {:induction false} OnlySocOmits(t: Treatment, stages: seq<Stage>)
    requires !t.AddSoc?
    ensures Omissions(t, stages) == []
    decreases |stages|
  {
    if stages != [] { OnlySocOmits(t, stages[..|stages| - 1]); }
  }

  lemma AfterSpin(f: Findings, base: seq<Stage>) returns (p: Progress)
    requires StagesOk(base)
    ensures When(f.spin, Success(Start(base)), AddSpin) == Success(p) && Reached(base, p)
    ensures p == Progress(if f.spin then Treated(AddSpin, base) else base, RecordIf(f.spin, AddSpin, base), [], {})
  {
    p := Start(base);
    if f.spin {
      ChainStep(base, p, AddSpin);
      OnlySocOmits(AddSpin, base);
      p := Extended(p, AddSpin).value;
    }
  }

  lemma AfterDispersion(f: Findings, base: seq<Stage>, spun: Progress) returns (p: Progress)
    requires Reached(base, spun)
    ensures When(f.dispersion, Success(spun), AddDispersion) == Success(p) && Reached(base, p)
    ensures p == Progress(
      if f.dispersion then Treated(AddDispersion, spun.stages) else spun.stages,
      spun.applied + RecordIf(f.dispersion, AddDispersion, base), spun.omitted, spun.notApplicable)
  {
    p := spun;
    if f.dispersion {
      ChainStep(base, p, AddDispersion);
      OnlySocOmits(AddDispersion, base);
      p := Extended(p, AddDispersion).value;
    }
  }

  lemma BeforeSoc(f: Findings, base: seq<Stage>) returns (bound: Progress)
    requires StagesOk(base)
    ensures TreatedInTurn(f, base) == WithDftU(f.dftU, When(f.soc, Success(bound), AddSoc))
    ensures Reached(base, bound)
    ensures var spun := if f.spin then Treated(AddSpin, base) else base;
      bound == Progress(
        if f.dispersion then Treated(AddDispersion, spun) else spun,
        RecordIf(f.spin, AddSpin, base) + RecordIf(f.dispersion, AddDispersion, base), [], {})
  {
    var spun := AfterSpin(f, base);
    bound := AfterDispersion(f, base, spun);
  }

  lemma AfterSoc(f: Findings, base: seq<Stage>, bound: Progress)
    requires Reached(base, bound)
    ensures When(f.soc, Success(bound), AddSoc).Success? <==> (f.soc ==> AllBear(AddSoc, base))
    ensures When(f.soc, Success(bound), AddSoc).Success? ==>
      var p := When(f.soc, Success(bound), AddSoc).value;
      && Reached(base, p)
      && p == Progress(
           if f.soc then Treated(AddSoc, bound.stages) else bound.stages,
           bound.applied + RecordIf(f.soc, AddSoc, base),
           bound.omitted + (if f.soc then Omissions(AddSoc, base) else []),
           bound.notApplicable + if f.soc then UnusedOf(AddSoc, Receivers(AddSoc, base), Omissions(AddSoc, base)) else {})
  {
    if f.soc { ChainStep(base, bound, AddSoc); }
  }

  lemma AfterDftU(d: DftUDecision, base: seq<Stage>, coupled: Progress)
    requires Reached(base, coupled)
    ensures WithDftU(d, Success(coupled)).Success? <==> (d.Apply? ==> AllBear(AddDftU(d.parameters), base))
    ensures WithDftU(d, Success(coupled)).Success? ==>
      var p := WithDftU(d, Success(coupled)).value;
      && Reached(base, p)
      && p == Progress(
           if d.Apply? then Treated(AddDftU(d.parameters), coupled.stages) else coupled.stages,
           coupled.applied + (if d.Apply? then RecordIf(true, AddDftU(d.parameters), base) else []),
           coupled.omitted, coupled.notApplicable + DftUUnused(d, base))
  {
    if d.Apply? {
      ChainStep(base, coupled, AddDftU(d.parameters));
      OnlySocOmits(AddDftU(d.parameters), base);
    }
  }

  // The treatments over the whole list are the treatments of each stage.
  lemma TurnedIsFinal(f: Findings, base: seq<Stage>)
    ensures
      var spun := if f.spin then Treated(AddSpin, base) else base;
      var bound := if f.dispersion then Treated(AddDispersion, spun) else spun;
      var coupled := if f.soc then Treated(AddSoc, bound) else bound;
      (if f.dftU.Apply? then Treated(AddDftU(f.dftU.parameters), coupled) else coupled) == FinalStages(f, base)
  {
  }

  // Whether the treatments go through, and what they leave and report, told from the
  // base workflow alone.
  lemma ChainExactly(f: Findings, base: seq<Stage>)
    requires StagesOk(base)
    ensures TreatedInTurn(f, base).Success? <==> Bearable(f, base)
    ensures TreatedInTurn(f, base).Success? ==> TreatedInTurn(f, base).value == ReportOf(f, base)
    ensures TreatedInTurn(f, base).Success? ==> StagesOk(FinalStages(f, base))
  {
    var bound := BeforeSoc(f, base);
    AfterSoc(f, base, bound);
    var coupled := When(f.soc, Success(bound), AddSoc);
    if coupled.Success? {
      AfterDftU(f.dftU, base, coupled.value);
      TurnedIsFinal(f, base);
      Nothing(if f.soc then Omissions(AddSoc, base) else [],
              if f.soc then UnusedOf(AddSoc, Receivers(AddSoc, base), Omissions(AddSoc, base)) else {});
    }
  }

  lemma Nothing<T, U>(omitted: seq<T>, unused: set<U>)
    ensures [] + omitted == omitted && {} + unused == unused
  {
  }

  // --------------------------------------------------------- main theorems

  // The three ways in which a valid workflow cannot take its treatments: SOC cannot
  // reach the analysis that reads the treated static stage, DFT+U cannot, or the
  // DFT+U parameters are malformed.
  ghost predicate SocStopsShort(f: Findings, stages: seq<Stage>)
    requires Valid(stages)
  {
    var n := |stages|;
    f.soc && IsAnalysis(stages[n - 1]) &&
    (stages[n - 1].theory == PBE || (stages[n - 2].theory == PBE && SOC !in stages[n - 1].modifiers))
  }

  ghost predicate DftUStopsShort(f: Findings, stages: seq<Stage>)
    requires Valid(stages)
  {
    var last := stages[|stages| - 1];
    f.dftU.Apply? && IsAnalysis(last) && last.theory == PBE && DFT_U !in last.modifiers
  }

  ghost predicate DftUMalformed(f: Findings, stages: seq<Stage>) {
    f.dftU.Apply? && !f.dftU.parameters.wellFormed &&
    exists i :: 0 <= i < |stages| && IsPbeRelaxOrStatic(stages[i])
  }

  lemma BearableExactly(f: Findings, base: seq<Stage>)
    requires Valid(base)
    ensures Bearable(f, base) <==>
      !(f.soc && IsAnalysis(base[|base| - 1]) && base[|base| - 1].theory == PBE) && !DftUMalformed(f, base)
  {
    var n := |base|;
    if !(f.soc && IsAnalysis(base[n - 1]) && base[n - 1].theory == PBE) && f.soc {
      forall i | 0 <= i < n ensures Bears(AddSoc, base[i]) {
        if i < n - 1 { assert !IsAnalysis(base[i]); }
      }
    }
  }

  lemma PairStaysConnected(f: Findings, before: Stage, s: Stage)
    requires DispersionClash(before, s) == None
    ensures DispersionClash(Final(f, before), Final(f, s)) == None
  {
    FinalShape(f, before);
    FinalShape(f, s);
  }

  lemma DispersionStaysConnected(f: Findings, base: seq<Stage>)
    requires NeighboursAgree(base, DispersionClash)
    ensures NeighboursAgree(FinalStages(f, base), DispersionClash)
  {
    var stages := FinalStages(f, base);
    forall i | 0 < i < |stages| ensures DispersionClash(stages[i - 1], stages[i]) == None {
      PairStaysConnected(f, base[i - 1], base[i]);
    }
  }

  lemma LastPairAfterwards(f: Findings, before: Stage, s: Stage)
    requires IsAnalysis(s) && before.kind == Static && AcceptsPrecursor(s, before)
    requires StageProblem(s) == None && DataClash(before, s) == None
    requires !(f.soc && s.theory == PBE)
    ensures DataClash(Final(f, before), Final(f, s)) == None <==>
      && !(f.soc && before.theory == PBE && SOC !in s.modifiers)
      && !(f.dftU.Apply? && s.theory == PBE && DFT_U !in s.modifiers)
  {
    FinalShape(f, before);
    FinalShape(f, s);
  }

  lemma FinalValid(f: Findings, base: seq<Stage>)
    requires Valid(base) && Bearable(f, base) && StagesOk(FinalStages(f, base))
    ensures Valid(FinalStages(f, base)) <==> !SocStopsShort(f, base) && !DftUStopsShort(f, base)
  {
    var stages, n := FinalStages(f, base), |base|;
    BearableExactly(f, base);
    DispersionStaysConnected(f, base);
    forall i | 0 <= i < n
      ensures stages[i].kind == base[i].kind && stages[i].theory == base[i].theory
    {
      FinalShape(f, base[i]);
    }
    if IsAnalysis(base[n - 1]) { LastPairAfterwards(f, base[n - 2], base[n - 1]); }
  }

  // When automatic treatment goes through, exactly, and what it then returns.
  lemma ResolvesExactly(f: Findings, base: Workflow)
    ensures Resolve(f, base).Success? <==>
      && Valid(base.stages) && !f.dimensionalityFailed
      && !SocStopsShort(f, base.stages) && !DftUStopsShort(f, base.stages) && !DftUMalformed(f, base.stages)
    ensures Resolve(f, base).Success? ==>
      && Valid(FinalStages(f, base.stages))
      && Resolve(f, base).value ==
         Resolution(base, base.(stages := FinalStages(f, base.stages)), ReportOf(f, base.stages))
  {
    ValidatorExactly(base.stages);
    if Valid(base.stages) {
      ChainExactly(f, base.stages);
      BearableExactly(f, base.stages);
      if Bearable(f, base.stages) {
        FinalValid(f, base.stages);
        ValidatorExactly(FinalStages(f, base.stages));
      }
    }
  }

  // What treatment is refused for: an invalid base, then an unknown dimensionality, then SOC
  // for a PBE analysis, then malformed DFT+U parameters, and last what makes the treated
  // workflow invalid.
  lemma RefusedExactly(f: Findings, base: Workflow)
    requires Resolve(f, base).Failure?
    ensures Some(Resolve(f, base).error) ==
      if !Valid(base.stages) then WorkflowProblem(base.stages)
      else if f.dimensionalityFailed then Some(DimensionalityUnknown)
      else if f.soc && IsAnalysis(base.stages[|base.stages| - 1]) && base.stages[|base.stages| - 1].theory == PBE
      then Some(TreatmentUnavailable(SOC))
      else if DftUMalformed(f, base.stages) then Some(TreatmentUnavailable(DFT_U))
      else WorkflowProblem(FinalStages(f, base.stages))
  {
    ValidatorExactly(base.stages);
    if Valid(base.stages) && !f.dimensionalityFailed {
      ChainExactly(f, base.stages);
      BearableExactly(f, base.stages);
      ChainRefused(f, base.stages);
    }
  }

  lemma ChainRefused(f: Findings, base: seq<Stage>)
    requires StagesOk(base)
    ensures f.soc && !AllBear(AddSoc, base) ==> TreatedInTurn(f, base) == Failure(TreatmentUnavailable(SOC))
    ensures (f.soc ==> AllBear(AddSoc, base)) && TreatedInTurn(f, base).Failure? ==>
      TreatedInTurn(f, base) == Failure(TreatmentUnavailable(DFT_U))
  {
    var bound := BeforeSoc(f, base);
    AfterSoc(f, base, bound);
  }

  // What treatment leaves of a stage: its type, theory and name, and all its modifiers; it
  // gains exactly the modifiers asked for, and never a hybrid SOC stage. Of its options
  // only two can change: where dispersion is applied the method becomes D3(BJ), whatever
  // was chosen, and where DFT+U is applied the frozen parameters become those found.
  lemma TreatmentOnlyAdds(f: Findings, base: Workflow, i: nat)
    requires Resolve(f, base).Success? && i < |base.stages|
    ensures var r := Resolve(f, base).value.resolved;
      && r.name == base.name && r.recipe == base.recipe && |r.stages| == |base.stages|
      && var before, after := base.stages[i], r.stages[i];
         && after.kind == before.kind && after.theory == before.theory && after.name == before.name
         && after.modifiers == before.modifiers + Added(f, before)
         && (Admissible(after) <==> Admissible(before))
         && after.options == Options(
              if f.dispersion && IsPbeRelaxOrStatic(before) then Chosen(D3BJ) else before.options.dispersion,
              if f.dftU.Apply? && IsPbeRelaxOrStatic(before) then Some(f.dftU.parameters) else before.options.dftU,
              before.options.foreign)
  {
    ResolvesExactly(f, base);
    FinalShape(f, base.stages[i]);
  }

  // A workflow is open to new calculations after treatment exactly when it was before.
  lemma TreatmentKeepsAdmission(f: Findings, base: Workflow)
    requires Resolve(f, base).Success?
    ensures RequireAdmissible(Resolve(f, base).value.resolved).Success? <==> RequireAdmissible(base).Success?
  {
    ResolvesExactly(f, base);
    AdmittedExactly(base);
    AdmittedExactly(Resolve(f, base).value.resolved);
    var stages := FinalStages(f, base.stages);
    forall i | 0 <= i < |stages| ensures Admissible(stages[i]) <==> Admissible(base.stages[i]) {
      TreatmentOnlyAdds(f, base, i);
    }
  }

  lemma FinalStagesTwice(f: Findings, base: seq<Stage>)
    ensures FinalStages(f, FinalStages(f, base)) == FinalStages(f, base)
    ensures SameShape(FinalStages(f, base), base)
  {
    forall i | 0 <= i < |base|
      ensures Final(f, Final(f, base[i])) == Final(f, base[i])
      ensures Final(f, base[i]).kind == base[i].kind && Final(f, base[i]).theory == base[i].theory
    {
      FinalTwice(f, base[i]);
      FinalShape(f, base[i]);
    }
  }

  lemma ReportByShape(f: Findings, a: seq<Stage>, b: seq<Stage>)
    requires SameShape(a, b)
    ensures ReportOf(f, a).(stages := []) == ReportOf(f, b).(stages := [])
  {
    SameNumbers(AddSpin, a, b);
    SameNumbers(AddDispersion, a, b);
    SameNumbers(AddSoc, a, b);
    if f.dftU.Apply? { SameNumbers(AddDftU(f.dftU.parameters), a, b); }
  }

  // Treating a treated workflow again goes through and changes and reports nothing new.
  lemma TreatmentIsIdempotent(f: Findings, base: Workflow)
    requires Resolve(f, base).Success?
    ensures var r := Resolve(f, base).value;
      Resolve(f, r.resolved) == Success(r.(base := r.resolved))
  {
    ResolvesExactly(f, base);
    var again := base.(stages := FinalStages(f, base.stages));
    StillUnblocked(f, base.stages);
    ResolvesExactly(f, again);
    FinalStagesTwice(f, base.stages);
    ReportByShape(f, again.stages, base.stages);
  }

  lemma StillUnblocked(f: Findings, base: seq<Stage>)
    requires Valid(base) && Valid(FinalStages(f, base))
    requires !SocStopsShort(f, base) && !DftUStopsShort(f, base) && !DftUMalformed(f, base)
    ensures var stages := FinalStages(f, base);
      !SocStopsShort(f, stages) && !DftUStopsShort(f, stages) && !DftUMalformed(f, stages)
  {
    var stages, n := FinalStages(f, base), |base|;
    FinalStagesTwice(f, base);
    FinalShape(f, base[n - 1]);
    if i :| 0 <= i < n && IsPbeRelaxOrStatic(stages[i]) {
      assert IsPbeRelaxOrStatic(base[i]);
    }
  }

  // Workflows that the treatments never stop, whatever the structure: those whose last
  // stage is no analysis, or a hybrid analysis of a hybrid static stage.
  lemma NeverRefused(f: Findings, base: Workflow)
    requires Valid(base.stages) && !f.dimensionalityFailed
    requires f.dftU.Apply? ==> f.dftU.parameters.wellFormed
    requires var n := |base.stages|;
      IsAnalysis(base.stages[n - 1]) ==> base.stages[n - 1].theory == HSE06 == base.stages[n - 2].theory
    ensures Resolve(f, base).Success?
  {
    ResolvesExactly(f, base);
  }

  // ----------------------------------------------------------- the report

  lemma {:induction false} NumbersHave(t: Treatment, stages: seq<Stage>, k: nat)
    ensures k in Receivers(t, stages) <==> 1 <= k <= |stages| && Receives(t, stages[k - 1])
    ensures k in Omissions(t, stages) <==> 1 <= k <= |stages| && Omits(t, stages[k - 1])
    decreases |stages|
  {
    if stages != [] {
      NumbersHave(t, stages[..|stages| - 1], k);
    }
  }

  predicate Recorded(report: Progress, t: Treatment, k: nat) {
    exists r :: r in report.applied && r.treatment == t && k in r.stages
  }

  lemma RecordIfHas(wanted: bool, t: Treatment, base: seq<Stage>, r: Record)
    ensures r in RecordIf(wanted, t, base) <==>
      wanted && Receivers(t, base) != [] && r == Record(t, Receivers(t, base))
  {
  }

  lemma InOneOfFour<T>(a: seq<T>, b: seq<T>, c: seq<T>, d: seq<T>, x: T)
    ensures x in a + b + c + d <==> x in a || x in b || x in c || x in d
  {
  }

  lemma AppliedHas(f: Findings, base: seq<Stage>, r: Record)
    ensures r in AppliedOf(f, base) <==>
      Wants(f, r.treatment) && Receivers(r.treatment, base) != [] && r.stages == Receivers(r.treatment, base)
  {
    var last := if f.dftU.Apply? then RecordIf(true, AddDftU(f.dftU.parameters), base) else [];
    RecordIfHas(f.spin, AddSpin, base, r);
    RecordIfHas(f.dispersion, AddDispersion, base, r);
    RecordIfHas(f.soc, AddSoc, base, r);
    if f.dftU.Apply? { RecordIfHas(true, AddDftU(f.dftU.parameters), base, r); }
    InOneOfFour(RecordIf(f.spin, AddSpin, base), RecordIf(f.dispersion, AddDispersion, base),
                RecordIf(f.soc, AddSoc, base), last, r);
    assert AppliedOf(f, base) == RecordIf(f.spin, AddSpin, base) + RecordIf(f.dispersion, AddDispersion, base)
                                 + RecordIf(f.soc, AddSoc, base) + last;
    match r.treatment
    case AddSpin =>
    case AddDispersion =>
    case AddSoc =>
    case AddDftU(p) =>
  }

  lemma RecordedExactly(f: Findings, base: seq<Stage>, t: Treatment, k: nat)
    ensures Recorded(ReportOf(f, base), t, k) <==> Wants(f, t) && k in Receivers(t, base)
  {
    var report := ReportOf(f, base);
    if Recorded(report, t, k) {
      var r :| r in report.applied && r.treatment == t && k in r.stages;
      AppliedHas(f, base, r);
    }
    AppliedHas(f, base, Record(t, Receivers(t, base)));
  }

  predicate Wants(f: Findings, t: Treatment) {
    match t
    case AddSpin => f.spin
    case AddDispersion => f.dispersion
    case AddSoc => f.soc
    case AddDftU(p) => f.dftU == Apply(p)
  }

  lemma AddedExactly(f: Findings, t: Treatment, s: Stage)
    requires t.AddDftU? ==> f.dftU == Apply(t.parameters)
    ensures Adds(t) in Added(f, s) <==> Wants(f, t) && Receives(t, s)
  {
  }

  lemma ReportGiven(f: Findings, base: Workflow, r: Resolution)
    requires Resolve(f, base) == Success(r)
    ensures r.report == ReportOf(f, base.stages) && r.resolved.stages == FinalStages(f, base.stages)
  {
    ResolvesExactly(f, base);
  }

  // The report is honest: a stage is recorded under a treatment exactly when it now
  // carries it on the treatment's account.
  lemma ReportIsExact(f: Findings, base: Workflow, r: Resolution, t: Treatment, k: nat)
    requires Resolve(f, base) == Success(r) && 1 <= k <= |base.stages|
    requires t.AddDftU? ==> f.dftU == Apply(t.parameters)
    ensures Recorded(r.report, t, k) <==> Adds(t) in Added(f, base.stages[k - 1])
  {
    ReportGiven(f, base, r);
    RecordedExactly(f, base.stages, t, k);
    NumbersHave(t, base.stages, k);
    AddedExactly(f, t, base.stages[k - 1]);
  }

  // No stage loses SOC silently: one that should carry it either does, or is named
  // among the omissions, which are exactly the hybrid ones.
  lemma OmissionsAreNamed(f: Findings, base: Workflow, r: Resolution, k: nat)
    requires Resolve(f, base) == Success(r) && 1 <= k <= |base.stages| && f.soc
    ensures var s := base.stages[k - 1];
      && (k in r.report.omitted <==> s.kind != Relax && s.theory == HSE06)
      && |r.resolved.stages| == |base.stages|
      && (s.kind != Relax ==> SOC in r.resolved.stages[k - 1].modifiers || k in r.report.omitted)
  {
    ReportGiven(f, base, r);
    SocCarriedOrNamed(f, base.stages, r.report.omitted, r.resolved.stages, k);
  }

  lemma SocCarriedOrNamed(f: Findings, stages: seq<Stage>, omitted: seq<nat>, after: seq<Stage>, k: nat)
    requires f.soc && 1 <= k <= |stages|
    requires omitted == Omissions(AddSoc, stages) && after == FinalStages(f, stages)
    ensures var s := stages[k - 1];
      && (k in omitted <==> s.kind != Relax && s.theory == HSE06) && |after| == |stages|
      && (s.kind != Relax ==> SOC in after[k - 1].modifiers || k in omitted)
  {
    OmittedExactly(stages, k);
    FinalCarriesSoc(f, stages, k);
  }

  lemma OmittedExactly(stages: seq<Stage>, k: nat)
    requires 1 <= k <= |stages|
    ensures k in Omissions(AddSoc, stages) <==> stages[k - 1].kind != Relax && stages[k - 1].theory == HSE06
  {
    NumbersHave(AddSoc, stages, k);
  }

  lemma FinalCarriesSoc(f: Findings, stages: seq<Stage>, k: nat)
    requires f.soc && 1 <= k <= |stages|
    ensures |FinalStages(f, stages)| == |stages|
    ensures stages[k - 1].kind != Relax && stages[k - 1].theory != HSE06 ==> SOC in FinalStages(f, stages)[k - 1].modifiers
  {
    FinalShape(f, stages[k - 1]);
  }

  lemma NothingReached(t: Treatment, stages: seq<Stage>)
    ensures Receivers(t, stages) == [] <==> forall i :: 0 <= i < |stages| ==> !Receives(t, stages[i])
    ensures Omissions(t, stages) == [] <==> forall i :: 0 <= i < |stages| ==> !Omits(t, stages[i])
  {
    forall i | 0 <= i < |stages| ensures i + 1 in Receivers(t, stages) <==> Receives(t, stages[i]) { NumbersHave(t, stages, i + 1); }
    forall i | 0 <= i < |stages| ensures i + 1 in Omissions(t, stages) <==> Omits(t, stages[i]) { NumbersHave(t, stages, i + 1); }
    if Receivers(t, stages) != [] { NumbersHave(t, stages, Receivers(t, stages)[0]); }
    if Omissions(t, stages) != [] { NumbersHave(t, stages, Omissions(t, stages)[0]); }
  }

  lemma SocUnusedExactly(stages: seq<Stage>)
    ensures UnusedOf(AddSoc, Receivers(AddSoc, stages), Omissions(AddSoc, stages))
         == if forall i :: 0 <= i < |stages| ==> stages[i].kind == Relax then {SOC} else {}
  {
    NothingReached(AddSoc, stages);
    if i :| 0 <= i < |stages| && stages[i].kind != Relax { assert Receives(AddSoc, stages[i]) || Omits(AddSoc, stages[i]); }
  }

  lemma DftUUnusedExactly(d: DftUDecision, stages: seq<Stage>)
    ensures DftUUnused(d, stages)
         == if d.Suppressed? || (d.Apply? && forall i :: 0 <= i < |stages| ==> !IsPbeRelaxOrStatic(stages[i])) then {DFT_U} else {}
  {
    if d.Apply? { NothingReached(AddDftU(d.parameters), stages); }
  }

  // Nothing but SOC and DFT+U is reported as not applicable: SOC exactly if it is wanted and
  // every stage is a relaxation, DFT+U exactly if its gate is closed, or it is to be applied
  // and no stage is a PBE relaxation or static one.
  lemma NotApplicableExactly(f: Findings, base: Workflow, r: Resolution)
    requires Resolve(f, base) == Success(r)
    ensures r.report.notApplicable
         == (if f.soc && forall i :: 0 <= i < |base.stages| ==> base.stages[i].kind == Relax then {SOC} else {})
          + (if f.dftU.Suppressed? || (f.dftU.Apply? && forall i :: 0 <= i < |base.stages| ==> !IsPbeRelaxOrStatic(base.stages[i]))
             then {DFT_U} else {})
  {
    ReportGiven(f, base, r);
    SocUnusedExactly(base.stages);
    DftUUnusedExactly(f.dftU, base.stages);
  }
}
