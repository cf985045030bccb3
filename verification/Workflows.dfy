/**
 Workflows of calculation stages and what makes them valid
 (backend/calculations/registry.py:454-585, 863-1035; models.py:64-150;
 admission.py:62-118). Names and aliases are taken after normalisation.
 */
module Workflows {
  import opened Wrappers

  datatype StageType = Relax | Static | Dos | BandStructure | PhononForces
  datatype Theory = PBE | R2SCAN | HSE06
  datatype Modifier = SOC | DFT_U | DISPERSION | SPIN_POLARIZED | GAMMA_ONLY | IONS_ONLY

  datatype Method = D3 | D3BJ

  // The stage-local dispersion option. A blank or wrongly typed value counts as the
  // default method; a name outside the table is Unrecognised.
  datatype DispersionOption = NotGiven | Chosen(chosen: Method) | Unrecognised

  const DEFAULT_METHOD := D3BJ

  datatype Frozen = Frozen(content: nat, wellFormed: bool)

  // foreign: some option key that no stage may carry.
  datatype Options = Options(dispersion: DispersionOption, dftU: Option<Frozen>, foreign: bool)

  datatype Stage = Stage(kind: StageType, theory: Theory, modifiers: set<Modifier>, name: string, options: Options)

  datatype Workflow = Workflow(stages: seq<Stage>, name: string, recipe: string)

  datatype Problem =
    | NoStages | NotExecutable | UnsupportedOption | TheoryUnavailable | ModifierUnavailable
    | DispersionMisused | DftUMisused | DispersionDiffers | DftUDiffers | SocDiffers
    | NotLast | NoStaticBefore | TheoryDiffers
    | DimensionalityUnknown | TreatmentUnavailable(modifier: Modifier)
    | NotOpenToNewCalculations(indices: seq<nat>)

  // ------------------------------------------------------------- one stage

  predicate IsAnalysis(s: Stage) { s.kind == Dos || s.kind == BandStructure }

  predicate IsPbeRelaxOrStatic(s: Stage) { s.theory == PBE && (s.kind == Relax || s.kind == Static) }

  function SupportedModifiers(kind: StageType, theory: Theory): set<Modifier> {
    match theory
    case PBE =>
      {SPIN_POLARIZED, DFT_U}
      + (if kind == Static then {SOC} else {})
      + (if kind == Relax then {IONS_ONLY} else {})
      + (if kind == Dos || kind == BandStructure then {} else {DISPERSION})
      + (if kind == BandStructure then {} else {GAMMA_ONLY})
    case HSE06 =>
      if kind == BandStructure then {SPIN_POLARIZED, SOC}
      else if kind == Static || kind == Dos then {SPIN_POLARIZED, SOC, GAMMA_ONLY}
      else {SPIN_POLARIZED, GAMMA_ONLY}
    case R2SCAN => {}
  }

  function DispersionProblem(s: Stage): Option<Problem> {
    if DISPERSION !in s.modifiers then
      if s.options.dispersion.NotGiven? then None else Some(DispersionMisused)
    else if !IsPbeRelaxOrStatic(s) || s.options.dispersion.Unrecognised? then Some(DispersionMisused)
    else None
  }

  function DftUProblem(s: Stage): Option<Problem> {
    if s.options.dftU.None? then None
    else if DFT_U !in s.modifiers || !IsPbeRelaxOrStatic(s) || !s.options.dftU.value.wellFormed then Some(DftUMisused)
    else None
  }

  function StageProblem(s: Stage): Option<Problem> {
    if s.kind == PhononForces then Some(NotExecutable)
    else if s.options.foreign then Some(UnsupportedOption)
    else if s.theory == R2SCAN then Some(TheoryUnavailable)
    else if !(s.modifiers <= SupportedModifiers(s.kind, s.theory)) then Some(ModifierUnavailable)
    else if DispersionProblem(s).Some? then DispersionProblem(s)
    else DftUProblem(s)
  }

  // ------------------------------------------------------- two stages in turn

  function MethodOf(s: Stage): Option<Method> {
    if DISPERSION !in s.modifiers then None
    else Some(if s.options.dispersion.Chosen? then s.options.dispersion.chosen else DEFAULT_METHOD)
  }

  function DispersionClash(before: Stage, s: Stage): Option<Problem> {
    if IsPbeRelaxOrStatic(before) && IsPbeRelaxOrStatic(s) && MethodOf(before) != MethodOf(s)
    then Some(DispersionDiffers) else None
  }

  // The DOS and band stages of PBE restart from the previous charge density
  // (vasp_stage_definitions.py:250-275, 290-330, 430-450) ...
  predicate ReadsChargeDensity(s: Stage) { IsAnalysis(s) && s.theory != HSE06 }

  // ... and those of every theory size their bands from the previous run (:453-471).
  predicate InheritsBandCount(s: Stage) { IsAnalysis(s) }

  function DataClash(before: Stage, s: Stage): Option<Problem> {
    if !ReadsChargeDensity(s) && !InheritsBandCount(s) then None
    else if ReadsChargeDensity(s) && (DFT_U in before.modifiers) != (DFT_U in s.modifiers) then Some(DftUDiffers)
    else if (SOC in before.modifiers) != (SOC in s.modifiers) then Some(SocDiffers)
    else None
  }

  predicate AcceptsPrecursor(s: Stage, before: Stage) {
    before.theory == s.theory || (s.kind == Dos && s.theory == HSE06 && before.theory == PBE)
  }

  function PlaceProblem(stages: seq<Stage>, i: nat): Option<Problem>
    requires i < |stages|
  {
    if !IsAnalysis(stages[i]) then None
    else if i != |stages| - 1 then Some(NotLast)
    else if i == 0 || stages[i - 1].kind != Static then Some(NoStaticBefore)
    else if !AcceptsPrecursor(stages[i], stages[i - 1]) then Some(TheoryDiffers)
    else None
  }

  // --------------------------------------------------------- whole workflows

  function FirstStageProblem(stages: seq<Stage>, i: nat): Option<Problem>
    requires i <= |stages|
    decreases |stages| - i
  {
    if i == |stages| then None
    else if StageProblem(stages[i]).Some? then StageProblem(stages[i])
    else FirstStageProblem(stages, i + 1)
  }

  function FirstClash(stages: seq<Stage>, clash: (Stage, Stage) -> Option<Problem>, i: nat): Option<Problem>
    requires 0 < i <= |stages|
    decreases |stages| - i
  {
    if i == |stages| then None
    else if clash(stages[i - 1], stages[i]).Some? then clash(stages[i - 1], stages[i])
    else FirstClash(stages, clash, i + 1)
  }

  function FirstPlaceProblem(stages: seq<Stage>, i: nat): Option<Problem>
    requires i <= |stages|
    decreases |stages| - i
  {
    if i == |stages| then None
    else if PlaceProblem(stages, i).Some? then PlaceProblem(stages, i)
    else FirstPlaceProblem(stages, i + 1)
  }

  // The first problem the validator meets.
  function WorkflowProblem(stages: seq<Stage>): Option<Problem> {
    if FirstStageProblem(stages, 0).Some? then FirstStageProblem(stages, 0)
    else if stages == [] then Some(NoStages)
    else if FirstClash(stages, DispersionClash, 1).Some? then FirstClash(stages, DispersionClash, 1)
    else if FirstClash(stages, DataClash, 1).Some? then FirstClash(stages, DataClash, 1)
    else FirstPlaceProblem(stages, 0)
  }

  method CheckNeighbours(stages: seq<Stage>, clash: (Stage, Stage) -> Option<Problem>) returns (p: Option<Problem>)
    requires stages != []
    ensures p == FirstClash(stages, clash, 1)
  {
    var i := 1;
    while i < |stages|
      invariant 1 <= i <= |stages|
      invariant FirstClash(stages, clash, 1) == FirstClash(stages, clash, i)
    {
      var found := clash(stages[i - 1], stages[i]);
      if found.Some? { return found; }
      i := i + 1;
    }
    p := None;
  }

  method ValidateWorkflow(stages: seq<Stage>) returns (p: Option<Problem>)
    ensures p == WorkflowProblem(stages)
  {
    var i := 0;
    while i < |stages|
      invariant 0 <= i <= |stages|
      invariant FirstStageProblem(stages, 0) == FirstStageProblem(stages, i)
    {
      var found := StageProblem(stages[i]);
      if found.Some? { return found; }
      i := i + 1;
    }
    if stages == [] { return Some(NoStages); }
    p := CheckNeighbours(stages, DispersionClash);
    if p.Some? { return; }
    p := CheckNeighbours(stages, DataClash);
    if p.Some? { return; }
    i := 0;
    while i < |stages|
      invariant 0 <= i <= |stages|
      invariant FirstPlaceProblem(stages, 0) == FirstPlaceProblem(stages, i)
    {
      var found := PlaceProblem(stages, i);
      if found.Some? { return found; }
      i := i + 1;
    }
  }

  // ------------------------------------------------ what validity comes to

  ghost predicate StagesOk(stages: seq<Stage>) {
    forall i :: 0 <= i < |stages| ==> StageProblem(stages[i]) == None
  }

  ghost predicate NeighboursAgree(stages: seq<Stage>, clash: (Stage, Stage) -> Option<Problem>) {
    forall i :: 0 < i < |stages| ==> clash(stages[i - 1], stages[i]) == None
  }

  // Only the last stage may be an analysis, and then a static stage feeds it.
  ghost predicate AnalysisIsLast(stages: seq<Stage>) {
    var n := |stages|;
    && (forall i :: 0 <= i < n - 1 ==> !IsAnalysis(stages[i]))
    && (n > 0 && IsAnalysis(stages[n - 1]) ==>
          n > 1 && stages[n - 2].kind == Static && AcceptsPrecursor(stages[n - 1], stages[n - 2]))
  }

  // A valid workflow: every stage is sound by itself, only the last may be an analysis,
  // connected PBE relax and static stages share one dispersion method, and the analysis
  // shares SOC, and for a PBE one DFT+U, with the static stage that feeds it.
  ghost predicate Valid(stages: seq<Stage>) {
    var n := |stages|;
    && n > 0 && StagesOk(stages) && AnalysisIsLast(stages)
    && NeighboursAgree(stages, DispersionClash)
    && (IsAnalysis(stages[n - 1]) ==> DataClash(stages[n - 2], stages[n - 1]) == None)
  }

  lemma {:induction false} NoStageProblem(stages: seq<Stage>, i: nat)
    requires i <= |stages|
    ensures FirstStageProblem(stages, i) == None <==>
      forall k :: i <= k < |stages| ==> StageProblem(stages[k]) == None
    decreases |stages| - i
  {
    if i < |stages| { NoStageProblem(stages, i + 1); }
  }

  lemma {:induction false} NoClash(stages: seq<Stage>, clash: (Stage, Stage) -> Option<Problem>, i: nat)
    requires 0 < i <= |stages|
    ensures FirstClash(stages, clash, i) == None <==>
      forall k :: i <= k < |stages| ==> clash(stages[k - 1], stages[k]) == None
    decreases |stages| - i
  {
    if i < |stages| { NoClash(stages, clash, i + 1); }
  }

  lemma {:induction false} NoPlaceProblem(stages: seq<Stage>, i: nat)
    requires i <= |stages|
    ensures FirstPlaceProblem(stages, i) == None <==>
      forall k :: i <= k < |stages| ==> PlaceProblem(stages, k) == None
    decreases |stages| - i
  {
    if i < |stages| { NoPlaceProblem(stages, i + 1); }
  }

  lemma PlacesExactly(stages: seq<Stage>)
    ensures AnalysisIsLast(stages) <==> forall k :: 0 <= k < |stages| ==> PlaceProblem(stages, k) == None
  {
    var n := |stages|;
    if forall k :: 0 <= k < n ==> PlaceProblem(stages, k) == None {
      forall i | 0 <= i < n - 1 ensures !IsAnalysis(stages[i]) {
        assert PlaceProblem(stages, i) == None;
      }
      if n > 0 { assert PlaceProblem(stages, n - 1) == None; }
    }
  }

  lemma DataExactly(stages: seq<Stage>)
    requires stages != [] && AnalysisIsLast(stages)
    ensures NeighboursAgree(stages, DataClash) <==>
      (IsAnalysis(stages[|stages| - 1]) ==> DataClash(stages[|stages| - 2], stages[|stages| - 1]) == None)
  {
    var n := |stages|;
    if IsAnalysis(stages[n - 1]) ==> DataClash(stages[n - 2], stages[n - 1]) == None {
      forall i | 0 < i < n ensures DataClash(stages[i - 1], stages[i]) == None {
        if i < n - 1 { assert !IsAnalysis(stages[i]); }
      }
    }
  }

  // The validator refuses nothing exactly when the workflow is valid.
  lemma ValidatorExactly(stages: seq<Stage>)
    ensures WorkflowProblem(stages) == None <==> Valid(stages)
  {
    NoStageProblem(stages, 0);
    if stages != [] {
      NoClash(stages, DispersionClash, 1);
      NoClash(stages, DataClash, 1);
      NoPlaceProblem(stages, 0);
      PlacesExactly(stages);
      if AnalysisIsLast(stages) { DataExactly(stages); }
    }
  }

  // ------------------------------------------------- validity in plain terms

  // Where a modifier can be had.
  predicate IsSupported(m: Modifier, kind: StageType, theory: Theory) {
    match m
    case SPIN_POLARIZED => theory != R2SCAN
    case DFT_U => theory == PBE
    case SOC => (theory == PBE && kind == Static) || (theory == HSE06 && (kind == Static || kind == Dos || kind == BandStructure))
    case DISPERSION => theory == PBE && kind != Dos && kind != BandStructure
    case GAMMA_ONLY => theory != R2SCAN && kind != BandStructure
    case IONS_ONLY => theory == PBE && kind == Relax
  }

  lemma SupportedExactly(m: Modifier, kind: StageType, theory: Theory)
    ensures m in SupportedModifiers(kind, theory) <==> IsSupported(m, kind, theory)
  {
  }

  predicate AllSupported(s: Stage) { forall m :: m in s.modifiers ==> IsSupported(m, s.kind, s.theory) }

  predicate IsPbe(s: Stage) { s.theory == PBE && (s.kind == Relax || s.kind == Static) }

  // Dispersion with a method that is known, on a stage that can have it; none without.
  predicate DispersionFits(s: Stage) {
    if DISPERSION in s.modifiers then IsPbe(s) && !s.options.dispersion.Unrecognised? else s.options.dispersion.NotGiven?
  }

  predicate DftUFits(s: Stage) {
    s.options.dftU.Some? ==> DFT_U in s.modifiers && IsPbe(s) && s.options.dftU.value.wellFormed
  }

  // A stage by itself: what it is refused for is the first of these that does not hold.
  lemma StageRefusedExactly(s: Stage)
    ensures var p := StageProblem(s);
      var runs := s.kind != PhononForces;
      var known := runs && !s.options.foreign;
      var open := known && s.theory != R2SCAN;
      var supported := open && AllSupported(s);
      && (p == Some(NotExecutable) <==> s.kind == PhononForces)
      && (p == Some(UnsupportedOption) <==> runs && s.options.foreign)
      && (p == Some(TheoryUnavailable) <==> known && s.theory == R2SCAN)
      && (p == Some(ModifierUnavailable) <==> open && !AllSupported(s))
      && (p == Some(DispersionMisused) <==> supported && !DispersionFits(s))
      && (p == Some(DftUMisused) <==> supported && DispersionFits(s) && !DftUFits(s))
      && (p == None <==> supported && DispersionFits(s) && DftUFits(s))
  {
    forall m ensures m in SupportedModifiers(s.kind, s.theory) <==> IsSupported(m, s.kind, s.theory) {
      SupportedExactly(m, s.kind, s.theory);
    }
    assert AllSupported(s) <==> s.modifiers <= SupportedModifiers(s.kind, s.theory);
  }

  predicate Sound(s: Stage) {
    s.kind != PhononForces && !s.options.foreign && s.theory != R2SCAN && AllSupported(s) && DispersionFits(s) && DftUFits(s)
  }

  // Two connected PBE relax and static stages both have dispersion, by the same method (the
  // default one if none is chosen), or neither has.
  predicate DispersionAgrees(before: Stage, s: Stage) {
    IsPbe(before) && IsPbe(s) ==>
      && (DISPERSION in before.modifiers <==> DISPERSION in s.modifiers)
      && (DISPERSION in s.modifiers ==>
            (before.options.dispersion == Chosen(D3)) == (s.options.dispersion == Chosen(D3)))
  }

  // A DOS or band stage has the SOC, and if it is no hybrid the DFT+U, of what feeds it.
  predicate DataAgrees(before: Stage, s: Stage) {
    s.kind == Dos || s.kind == BandStructure ==>
      && (SOC in before.modifiers <==> SOC in s.modifiers)
      && (s.theory != HSE06 ==> (DFT_U in before.modifiers <==> DFT_U in s.modifiers))
  }

  // A DOS or band stage is last, after a static stage of its theory, or for a hybrid DOS of PBE.
  predicate PlaceFits(stages: seq<Stage>, i: nat)
    requires i < |stages|
  {
    stages[i].kind == Dos || stages[i].kind == BandStructure ==>
      && i == |stages| - 1 && i > 0 && stages[i - 1].kind == Static
      && (stages[i - 1].theory == stages[i].theory
          || (stages[i].kind == Dos && stages[i].theory == HSE06 && stages[i - 1].theory == PBE))
  }

  lemma ClashesExactly(before: Stage, s: Stage)
    ensures DispersionClash(before, s) == if DispersionAgrees(before, s) then None else Some(DispersionDiffers)
    ensures DataClash(before, s) == None <==> DataAgrees(before, s)
    ensures DataClash(before, s) == Some(DftUDiffers) <==>
      (s.kind == Dos || s.kind == BandStructure) && s.theory != HSE06 && (DFT_U in before.modifiers) != (DFT_U in s.modifiers)
  {
    MethodIs(before);
    MethodIs(s);
  }

  lemma MethodIs(s: Stage)
    ensures MethodOf(s) ==
      if DISPERSION !in s.modifiers then None else Some(if s.options.dispersion == Chosen(D3) then D3 else D3BJ)
  {
    if s.options.dispersion.Chosen? {
      match s.options.dispersion.chosen
      case D3 =>
      case D3BJ =>
    }
  }

  lemma PlaceExactly(stages: seq<Stage>, i: nat)
    requires i < |stages|
    ensures var p := PlaceProblem(stages, i); var analysis := stages[i].kind == Dos || stages[i].kind == BandStructure;
      && (p == None <==> PlaceFits(stages, i))
      && (p == Some(NotLast) <==> analysis && i != |stages| - 1)
      && (p == Some(NoStaticBefore) <==> analysis && i == |stages| - 1 && (i == 0 || stages[i - 1].kind != Static))
      && (p == Some(TheoryDiffers) <==> analysis && i == |stages| - 1 && i > 0 && stages[i - 1].kind == Static && !PlaceFits(stages, i))
  {
  }

  // Validity, stage by stage and pair by pair.
  lemma ValidMeans(stages: seq<Stage>)
    ensures Valid(stages) <==>
      && stages != []
      && (forall i :: 0 <= i < |stages| ==> Sound(stages[i]) && PlaceFits(stages, i))
      && (forall i :: 0 < i < |stages| ==> DispersionAgrees(stages[i - 1], stages[i]) && DataAgrees(stages[i - 1], stages[i]))
  {
    forall i | 0 <= i < |stages|
      ensures StageProblem(stages[i]) == None <==> Sound(stages[i])
      ensures PlaceProblem(stages, i) == None <==> PlaceFits(stages, i)
    {
      StageRefusedExactly(stages[i]);
      PlaceExactly(stages, i);
    }
    forall i | 0 < i < |stages|
      ensures DispersionClash(stages[i - 1], stages[i]) == None <==> DispersionAgrees(stages[i - 1], stages[i])
      ensures DataClash(stages[i - 1], stages[i]) == None <==> DataAgrees(stages[i - 1], stages[i])
    {
      ClashesExactly(stages[i - 1], stages[i]);
    }
    PlacesExactly(stages);
    if stages != [] && AnalysisIsLast(stages) { DataExactly(stages); }
  }

  // ------------------------------------------------- which problem is named

  lemma {:induction false} FirstStageIs(stages: seq<Stage>, i: nat, from: nat)
    requires from <= i < |stages| && StageProblem(stages[i]).Some?
    requires forall k :: from <= k < i ==> StageProblem(stages[k]) == None
    ensures FirstStageProblem(stages, from) == StageProblem(stages[i])
    decreases i - from
  {
    if from < i { FirstStageIs(stages, i, from + 1); }
  }

  lemma {:induction false} FirstClashIs(stages: seq<Stage>, clash: (Stage, Stage) -> Option<Problem>, i: nat, from: nat)
    requires 0 < from <= i < |stages| && clash(stages[i - 1], stages[i]).Some?
    requires forall k :: from <= k < i ==> clash(stages[k - 1], stages[k]) == None
    ensures FirstClash(stages, clash, from) == clash(stages[i - 1], stages[i])
    decreases i - from
  {
    if from < i { FirstClashIs(stages, clash, i, from + 1); }
  }

  lemma {:induction false} FirstPlaceIs(stages: seq<Stage>, i: nat, from: nat)
    requires from <= i < |stages| && PlaceProblem(stages, i).Some?
    requires forall k :: from <= k < i ==> PlaceProblem(stages, k) == None
    ensures FirstPlaceProblem(stages, from) == PlaceProblem(stages, i)
    decreases i - from
  {
    if from < i { FirstPlaceIs(stages, i, from + 1); }
  }

  // The problem of the first unsound stage comes before everything else; ...
  lemma UnsoundIsNamed(stages: seq<Stage>, i: nat)
    requires i < |stages| && !Sound(stages[i]) && forall k :: 0 <= k < i ==> Sound(stages[k])
    ensures WorkflowProblem(stages) == StageProblem(stages[i])
  {
    StageRefusedExactly(stages[i]);
    forall k | 0 <= k < i ensures StageProblem(stages[k]) == None { StageRefusedExactly(stages[k]); }
    FirstStageIs(stages, i, 0);
  }

  lemma AllSound(stages: seq<Stage>)
    requires forall k :: 0 <= k < |stages| ==> Sound(stages[k])
    ensures FirstStageProblem(stages, 0) == None
  {
    forall k | 0 <= k < |stages| ensures StageProblem(stages[k]) == None { StageRefusedExactly(stages[k]); }
    NoStageProblem(stages, 0);
  }

  // ... then that there is no stage, and the first pair with different dispersion; ...
  lemma DispersionIsNamed(stages: seq<Stage>)
    requires forall k :: 0 <= k < |stages| ==> Sound(stages[k])
    ensures stages == [] ==> WorkflowProblem(stages) == Some(NoStages)
    ensures (exists i :: 0 < i < |stages| && !DispersionAgrees(stages[i - 1], stages[i])) ==>
      WorkflowProblem(stages) == Some(DispersionDiffers)
  {
    AllSound(stages);
    if i :| 0 < i < |stages| && !DispersionAgrees(stages[i - 1], stages[i]) {
      ClashesExactly(stages[i - 1], stages[i]);
      NoClash(stages, DispersionClash, 1);
      OnlyDispersionDiffers(stages, 1);
    }
  }

  lemma {:induction false} OnlyDispersionDiffers(stages: seq<Stage>, i: nat)
    requires 0 < i <= |stages|
    ensures FirstClash(stages, DispersionClash, i) == None || FirstClash(stages, DispersionClash, i) == Some(DispersionDiffers)
    decreases |stages| - i
  {
    if i < |stages| {
      ClashesExactly(stages[i - 1], stages[i]);
      OnlyDispersionDiffers(stages, i + 1);
    }
  }

  // ... then what keeps the first analysis from the data of the stage before it; and last the
  // place of the first analysis that has none.
  lemma ClashOrPlaceIsNamed(stages: seq<Stage>, i: nat)
    requires i < |stages| && forall k :: 0 <= k < |stages| ==> Sound(stages[k])
    requires forall k :: 0 < k < |stages| ==> DispersionAgrees(stages[k - 1], stages[k])
    ensures i > 0 && !DataAgrees(stages[i - 1], stages[i]) && (forall k :: 0 < k < i ==> DataAgrees(stages[k - 1], stages[k])) ==>
      WorkflowProblem(stages) == DataClash(stages[i - 1], stages[i])
    ensures (forall k :: 0 < k < |stages| ==> DataAgrees(stages[k - 1], stages[k])) ==>
      !PlaceFits(stages, i) && (forall k :: 0 <= k < i ==> PlaceFits(stages, k)) ==>
      WorkflowProblem(stages) == PlaceProblem(stages, i)
  {
    AllSound(stages);
    forall k | 0 < k < |stages|
      ensures DispersionClash(stages[k - 1], stages[k]) == None
      ensures DataClash(stages[k - 1], stages[k]) == None <==> DataAgrees(stages[k - 1], stages[k])
    {
      ClashesExactly(stages[k - 1], stages[k]);
    }
    forall k | 0 <= k < |stages| ensures PlaceProblem(stages, k) == None <==> PlaceFits(stages, k) { PlaceExactly(stages, k); }
    NoClash(stages, DispersionClash, 1);
    NoClash(stages, DataClash, 1);
    if i > 0 && !DataAgrees(stages[i - 1], stages[i]) && (forall k :: 0 < k < i ==> DataAgrees(stages[k - 1], stages[k])) {
      FirstClashIs(stages, DataClash, i, 1);
    }
    if !PlaceFits(stages, i) && (forall k :: 0 <= k < i ==> PlaceFits(stages, k)) { FirstPlaceIs(stages, i, 0); }
  }

  // -------------------------------------------------------------- admission

  // Hybrid stages with SOC stay readable but are closed to new calculations.
  predicate Admissible(s: Stage) { !(s.theory == HSE06 && SOC in s.modifiers) }

  function BlockedIndices(stages: seq<Stage>): seq<nat> {
    if stages == [] then []
    else
      var n := |stages|;
      BlockedIndices(stages[..n - 1]) + if Admissible(stages[n - 1]) then [] else [n]
  }

  function RequireAdmissible(w: Workflow): Result<Workflow, Problem> {
    if WorkflowProblem(w.stages).Some? then Failure(WorkflowProblem(w.stages).value)
    else if BlockedIndices(w.stages) == [] then Success(w)
    else Failure(NotOpenToNewCalculations(BlockedIndices(w.stages)))
  }

  ghost predicate AllAdmissible(stages: seq<Stage>) {
    forall i :: 0 <= i < |stages| ==> stages[i].theory != HSE06 || SOC !in stages[i].modifiers
  }

  lemma {:induction false} BlockedExactly(stages: seq<Stage>, index: nat)
    ensures index in BlockedIndices(stages) <==> 1 <= index <= |stages| && !Admissible(stages[index - 1])
    decreases |stages|
  {
    if stages != [] { BlockedExactly(stages[..|stages| - 1], index); }
  }

  // New calculations are exactly the valid workflows without a hybrid SOC stage.
  lemma AdmittedExactly(w: Workflow)
    ensures RequireAdmissible(w).Success? <==> Valid(w.stages) && AllAdmissible(w.stages)
    ensures RequireAdmissible(w).Success? ==> RequireAdmissible(w).value == w
    ensures !Valid(w.stages) ==> WorkflowProblem(w.stages).Some? && RequireAdmissible(w) == Failure(WorkflowProblem(w.stages).value)
    ensures Valid(w.stages) && RequireAdmissible(w).Failure? ==>
      RequireAdmissible(w).error.NotOpenToNewCalculations? && forall index: nat ::
        index in RequireAdmissible(w).error.indices <==> 1 <= index <= |w.stages| && !Admissible(w.stages[index - 1])
  {
    ValidatorExactly(w.stages);
    forall index: nat
      ensures index in BlockedIndices(w.stages) <==>
        1 <= index <= |w.stages| && !Admissible(w.stages[index - 1])
    {
      BlockedExactly(w.stages, index);
    }
    if BlockedIndices(w.stages) == [] {
      forall i | 0 <= i < |w.stages| ensures Admissible(w.stages[i]) {
        assert i + 1 !in BlockedIndices(w.stages);
      }
    } else {
      assert BlockedIndices(w.stages)[0] in BlockedIndices(w.stages);
    }
  }
}
