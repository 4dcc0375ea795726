/** The session store: the shapes of energies, results and store state, the seeded default state, the
    shallow-merge update `setSimulationData` and the view selector `go`. */
module SimulationContext {
  import opened Options
  import Units

  /** The three views the shell can show. */
  datatype View = Simulate | Results | Analysis

  /** The energies of one result; every field is independently present or absent. Absolute energies
      are in Hartree, the thermodynamic ones in kcal/mol. */
  datatype Energies = Energies(
    h2: Option<real>,
    nh3bh3: Option<real>,
    complex: Option<real>,
    catalyst: Option<real>,
    bindingRaw: Option<real>,
    bindingBsse: Option<real>,
    zpe: Option<real>,
    enthalpy: Option<real>,
    entropy: Option<real>,
    gibbs298: Option<real>,
    gibbs350: Option<real>)

  /** The empty object `{}`. */
  const NoEnergies: Energies := Energies(None, None, None, None, None, None, None, None, None, None, None)

  /** The names of the energy fields, so that properties can be stated for every field at once. */
  datatype Field =
    | H2 | Nh3bh3 | Complex | Catalyst | BindingRaw | BindingBsse
    | Zpe | Enthalpy | Entropy | Gibbs298 | Gibbs350

  /** `e[f]`. */
  function Get(e: Energies, f: Field): Option<real> {
    match f
    case H2 => e.h2
    case Nh3bh3 => e.nh3bh3
    case Complex => e.complex
    case Catalyst => e.catalyst
    case BindingRaw => e.bindingRaw
    case BindingBsse => e.bindingBsse
    case Zpe => e.zpe
    case Enthalpy => e.enthalpy
    case Entropy => e.entropy
    case Gibbs298 => e.gibbs298
    case Gibbs350 => e.gibbs350
  }

  /** `result?.energies ?? {}`: the energies of a stored result, all absent when there is no result or it
      has no energies record. Both the run and the analysis view read the store this way. */
  function EnergiesOf(result: Option<SimulationResult>): (e: Energies)
    ensures result.Some? && result.value.energies.Some? ==> e == result.value.energies.value
    ensures result.None? || result.value.energies.None? ==> forall f :: Get(e, f).None?
  {
    if result.Some? && result.value.energies.Some? then result.value.energies.value else NoEnergies
  }

  datatype VqeData = VqeData(
    activeSpace: Option<string>,
    convergence: Option<real>,
    iterations: Option<int>,
    quantumCorrection: Option<real>)

  datatype KineticsData = KineticsData(
    activationEnergy: Option<real>,
    gibbsBarrier: Option<real>,
    ratioConstant298: Option<string>)

  datatype SimulationResult = SimulationResult(
    id: Option<string>,
    timestamp: Option<string>,
    system: Option<string>,
    methodLabel: Option<string>,
    status: Option<string>,
    energies: Option<Energies>,
    vqe: Option<VqeData>,
    kinetics: Option<KineticsData>,
    classification: Option<string>)

  /** The store: the last configuration, the last result (possibly absent) and the current view. */
  datatype SimulationState = SimulationState(
    molecularSystem: string,
    methodCode: string,
    basisSet: string,
    includeVqe: bool,
    includeBsse: bool,
    result: Option<SimulationResult>,
    currentView: View)

  /** `Partial<SimulationState>`: a `None` field is a key the update does not mention. `result` may also
      be given explicitly as `undefined`, hence its two levels of `Option`. */
  datatype Partial = Partial(
    molecularSystem: Option<string>,
    methodCode: Option<string>,
    basisSet: Option<string>,
    includeVqe: Option<bool>,
    includeBsse: Option<bool>,
    result: Option<Option<SimulationResult>>,
    currentView: Option<View>)

  /** The update `{}`. */
  const EmptyPartial: Partial := Partial(None, None, None, None, None, None, None)

  /** The seeded initial state: only the catalyst energy is known, and the form is shown. */
  const DefaultState: SimulationState := SimulationState(
    "", "DFT", "def2-TZVP", true, true,
    Some(SimulationResult(None, None, None, None, None,
      Some(NoEnergies.(catalyst := Some(Units.E2DefaultH))), None, None, None)),
    Simulate)

  /** The initial state shows the form, and the only energy it knows is the default catalyst energy. */
  lemma DefaultStateSeeded()
    ensures DefaultState.currentView == Simulate
    ensures DefaultState.result.Some? && DefaultState.result.value.energies.Some?
    ensures forall f :: Get(DefaultState.result.value.energies.value, f).Some? <==> f == Catalyst
    ensures DefaultState.result.value.energies.value.catalyst == Some(Units.E2DefaultH)
  {
  }

  /** `setSimulationData(p)`: `{ ...prev, ...p }`. Each field mentioned in `p` replaces the stored one
      wholesale; every other field keeps its value. */
  function SetSimulationData(s: SimulationState, p: Partial): (r: SimulationState)
    ensures p.molecularSystem.Some? ==> r.molecularSystem == p.molecularSystem.value
    ensures p.molecularSystem.None? ==> r.molecularSystem == s.molecularSystem
    ensures p.methodCode.Some? ==> r.methodCode == p.methodCode.value
    ensures p.methodCode.None? ==> r.methodCode == s.methodCode
    ensures p.basisSet.Some? ==> r.basisSet == p.basisSet.value
    ensures p.basisSet.None? ==> r.basisSet == s.basisSet
    ensures p.includeVqe.Some? ==> r.includeVqe == p.includeVqe.value
    ensures p.includeVqe.None? ==> r.includeVqe == s.includeVqe
    ensures p.includeBsse.Some? ==> r.includeBsse == p.includeBsse.value
    ensures p.includeBsse.None? ==> r.includeBsse == s.includeBsse
    ensures p.result.Some? ==> r.result == p.result.value
    ensures p.result.None? ==> r.result == s.result
    ensures p.currentView.Some? ==> r.currentView == p.currentView.value
    ensures p.currentView.None? ==> r.currentView == s.currentView
  {
    SimulationState(
      p.molecularSystem.GetOr(s.molecularSystem),
      p.methodCode.GetOr(s.methodCode),
      p.basisSet.GetOr(s.basisSet),
      p.includeVqe.GetOr(s.includeVqe),
      p.includeBsse.GetOr(s.includeBsse),
      p.result.GetOr(s.result),
      p.currentView.GetOr(s.currentView))
  }

  /** Two updates in a row: the fields of `q` override those of `p`. */
  function Then(p: Partial, q: Partial): Partial {
    Partial(
      q.molecularSystem.OrElse(p.molecularSystem),
      q.methodCode.OrElse(p.methodCode),
      q.basisSet.OrElse(p.basisSet),
      q.includeVqe.OrElse(p.includeVqe),
      q.includeBsse.OrElse(p.includeBsse),
      q.result.OrElse(p.result),
      q.currentView.OrElse(p.currentView))
  }

  /** An update with no fields changes nothing. */
  lemma SetEmptyIsIdentity(s: SimulationState)
    ensures SetSimulationData(s, EmptyPartial) == s
  {
  }

  /** Successive updates compose as one update whose later fields win. */
  lemma SetSimulationDataComposes(s: SimulationState, p: Partial, q: Partial)
    ensures SetSimulationData(SetSimulationData(s, p), q) == SetSimulationData(s, Then(p, q))
  {
  }

  /** Applying the same update twice is the same as applying it once. */
  lemma SetSimulationDataIdempotent(s: SimulationState, p: Partial)
    ensures SetSimulationData(SetSimulationData(s, p), p) == SetSimulationData(s, p)
  {
  }

  /** The merge is shallow: a provided result replaces the stored one whole, so an energy the new result
      leaves out is absent afterwards even if the old result had it. */
  lemma ResultReplacedWhole(s: SimulationState, res: SimulationResult, f: Field)
    requires res.energies.Some? && Get(res.energies.value, f).None?
    ensures SetSimulationData(s, EmptyPartial.(result := Some(Some(res)))).result.value.energies.value == res.energies.value
    ensures Get(SetSimulationData(s, EmptyPartial.(result := Some(Some(res)))).result.value.energies.value, f).None?
  {
  }

  /** `go(view)`: switch the view and keep everything else. */
  function Go(s: SimulationState, v: View): (r: SimulationState)
    ensures r.currentView == v
    ensures r.(currentView := s.currentView) == s
  {
    s.(currentView := v)
  }

  /** `go` is the update that mentions only `currentView`. */
  lemma GoIsViewUpdate(s: SimulationState, v: View)
    ensures Go(s, v) == SetSimulationData(s, EmptyPartial.(currentView := Some(v)))
  {
  }

  /** `go` is idempotent, and of two navigations only the last one matters. */
  lemma GoLastWins(s: SimulationState, u: View, v: View)
    ensures Go(Go(s, u), v) == Go(s, v)
    ensures Go(Go(s, v), v) == Go(s, v)
  {
  }
}
