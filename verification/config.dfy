/** The "run simulation" path of the configuration form: the per-system demo catalog, the layered
    energy merge, the binding-energy override, the assembled result, and the store write that ends it. */
module SimulationConfig {
  import opened Options
  import opened SimulationContext
  import Text

  /** The six systems the picker offers. */
  datatype System =
    | H2Only | AmmoniaBorane | Flp | AmmoniaBoraneFlp | AmmoniaBoraneH2Flp | AmmoniaBorane2H2Flp

  /** The label under which a system is shown and stored. The picker reads it back into a system. */
  function Label(s: System): (r: string)
    ensures SystemOf(r) == Some(s)
  {
    match s
    case H2Only => "H₂"
    case AmmoniaBorane => "NH₃BH₃"
    case Flp => "FLP"
    case AmmoniaBoraneFlp => "NH₃BH₃ + FLP"
    case AmmoniaBoraneH2Flp => "NH₃BH₃ + H₂ + FLP"
    case AmmoniaBorane2H2Flp => "NH₃BH₃ + 2H₂ + FLP"
  }

  /** Reading a label back as a system: the picker's options (its `SYSTEMS.map`) are exactly the six
      labels, so its unchecked `as System` always meets one of them. */
  function SystemOf(name: string): Option<System> {
    if name == "H₂" then Some(H2Only)
    else if name == "NH₃BH₃" then Some(AmmoniaBorane)
    else if name == "FLP" then Some(Flp)
    else if name == "NH₃BH₃ + FLP" then Some(AmmoniaBoraneFlp)
    else if name == "NH₃BH₃ + H₂ + FLP" then Some(AmmoniaBoraneH2Flp)
    else if name == "NH₃BH₃ + 2H₂ + FLP" then Some(AmmoniaBorane2H2Flp)
    else None
  }

  /** Only the six labels name a system, each its own. */
  lemma SystemOfLabelsOnly(name: string)
    ensures SystemOf(name).Some? ==> name == Label(SystemOf(name).value)
  {
  }

  /** `SYSTEMS`, in picker order. */
  const Systems: seq<System> := [H2Only, AmmoniaBorane, Flp, AmmoniaBoraneFlp, AmmoniaBoraneH2Flp, AmmoniaBorane2H2Flp]

  /** The picker lists every system once, and distinct systems carry distinct labels, so a stored label
      identifies the system that was run. */
  lemma SystemsAndLabels()
    ensures forall s: System :: s in Systems
    ensures forall i, j :: 0 <= i < j < |Systems| ==> Systems[i] != Systems[j]
    ensures forall s, t: System :: Label(s) == Label(t) ==> s == t
  {
    forall s: System
      ensures s in Systems
    {
      match s
      case H2Only => assert Systems[0] == s;
      case AmmoniaBorane => assert Systems[1] == s;
      case Flp => assert Systems[2] == s;
      case AmmoniaBoraneFlp => assert Systems[3] == s;
      case AmmoniaBoraneH2Flp => assert Systems[4] == s;
      case AmmoniaBorane2H2Flp => assert Systems[5] == s;
    }
  }

  datatype Classification = Works | Borderline | NotViable

  function ClassificationLabel(c: Classification): string {
    match c
    case Works => "Works"
    case Borderline => "Borderline"
    case NotViable => "Not viable"
  }

  /** One catalog entry: the energies that differ from the defaults, and a classification. */
  datatype Fragment = Fragment(energies: Energies, classification: Option<Classification>)

  /** `DEFAULT_ABSOLUTES`, in Hartree. */
  const DefaultAbsolutes: Energies :=
    NoEnergies.(h2 := Some(-1.17843), nh3bh3 := Some(-83.24561), complex := Some(-84.43782))

  /** `SYSTEM_RESULTS`: the demo result fragment of each system. The entry type has no catalyst or
      zero-point key, and every entry sets a corrected binding energy and a classification. */
  function SystemResults(s: System): (r: Fragment)
    ensures r.energies.catalyst.None? && r.energies.zpe.None?
    ensures r.energies.bindingBsse.Some?
    ensures r.classification.Some?
  {
    match s
    case H2Only =>
      Fragment(NoEnergies.(bindingBsse := Some(-10.1), enthalpy := Some(-9.0), gibbs298 := Some(-8.3), gibbs350 := Some(-7.6)),
               Some(Borderline))
    case AmmoniaBorane =>
      Fragment(NoEnergies.(bindingBsse := Some(-12.4), enthalpy := Some(-8.9), gibbs298 := Some(-8.5), gibbs350 := Some(-7.7)),
               Some(Works))
    case Flp =>
      Fragment(NoEnergies.(bindingBsse := Some(-10.1), enthalpy := Some(-9.0), gibbs298 := Some(-8.3), gibbs350 := Some(-7.6)),
               Some(Borderline))
    case AmmoniaBoraneFlp =>
      Fragment(NoEnergies.(bindingBsse := Some(-11.2), enthalpy := Some(-9.1), gibbs298 := Some(-8.6), gibbs350 := Some(-7.8)),
               Some(Works))
    case AmmoniaBoraneH2Flp =>
      Fragment(Energies(Some(-1.17843), Some(-83.24561), Some(-84.43782), None, Some(-12.4), Some(-11.8),
                        None, Some(-9.4), Some(0.5), Some(-8.9), Some(-8.1)),
               Some(Works))
    case AmmoniaBorane2H2Flp =>
      Fragment(NoEnergies.(complex := Some(-84.50000), bindingBsse := Some(-12.6), enthalpy := Some(-9.4),
                           gibbs298 := Some(-8.9), gibbs350 := Some(-8.2)),
               Some(Works))
  }

  /** Which entries override what: only "NH₃BH₃ + H₂ + FLP" sets the raw binding, the entropy and the H₂
      and NH₃BH₃ energies, and those equal the hard defaults; only it and "NH₃BH₃ + 2H₂ + FLP" set the
      complex energy, and only the latter differs from the default. */
  lemma CatalogCoverage(s: System)
    ensures SystemResults(s).energies.bindingRaw.Some? <==> s == AmmoniaBoraneH2Flp
    ensures SystemResults(s).energies.entropy.Some? <==> s == AmmoniaBoraneH2Flp
    ensures SystemResults(s).energies.h2.Some? <==> s == AmmoniaBoraneH2Flp
    ensures SystemResults(s).energies.nh3bh3.Some? <==> s == AmmoniaBoraneH2Flp
    ensures SystemResults(s).energies.complex.Some? <==> s == AmmoniaBoraneH2Flp || s == AmmoniaBorane2H2Flp
    ensures s == AmmoniaBoraneH2Flp ==>
      && SystemResults(s).energies.h2 == DefaultAbsolutes.h2
      && SystemResults(s).energies.nh3bh3 == DefaultAbsolutes.nh3bh3
      && SystemResults(s).energies.complex == DefaultAbsolutes.complex
    ensures s == AmmoniaBorane2H2Flp ==> SystemResults(s).energies.complex != DefaultAbsolutes.complex
  {
  }

  /** The object spread `{ ...base, ...top }` on energies: a field present in `top` wins. */
  function Overlay(base: Energies, top: Energies): (r: Energies)
    ensures forall f :: Get(r, f) == Get(top, f).OrElse(Get(base, f))
  {
    Energies(
      top.h2.OrElse(base.h2),
      top.nh3bh3.OrElse(base.nh3bh3),
      top.complex.OrElse(base.complex),
      top.catalyst.OrElse(base.catalyst),
      top.bindingRaw.OrElse(base.bindingRaw),
      top.bindingBsse.OrElse(base.bindingBsse),
      top.zpe.OrElse(base.zpe),
      top.enthalpy.OrElse(base.enthalpy),
      top.entropy.OrElse(base.entropy),
      top.gibbs298.OrElse(base.gibbs298),
      top.gibbs350.OrElse(base.gibbs350))
  }

  /** One field of a list of layers spread left to right: the value of the last layer that has it. */
  function LastPresent(layers: seq<Energies>, f: Field): Option<real> {
    if |layers| == 0 then None
    else Get(layers[|layers| - 1], f).OrElse(LastPresent(layers[..|layers| - 1], f))
  }

  /** A field of the spread is present iff some layer has it, and then it holds the value of the LAST
      layer that has it: absence never overwrites a value. */
  lemma {:induction false} LastPresentIsLast(layers: seq<Energies>, f: Field)
    ensures LastPresent(layers, f).Some? <==> exists i :: 0 <= i < |layers| && Get(layers[i], f).Some?
    ensures forall i ::
      0 <= i < |layers| && Get(layers[i], f).Some? && (forall j :: i < j < |layers| ==> Get(layers[j], f).None?)
      ==> LastPresent(layers, f) == Get(layers[i], f)
    decreases |layers|
  {
    if |layers| > 0 {
      var n := |layers| - 1;
      var init := layers[..n];
      LastPresentIsLast(init, f);
      assert forall i :: 0 <= i < n ==> init[i] == layers[i];
      if Get(layers[n], f).None? {
        if LastPresent(layers, f).Some? {
          var i :| 0 <= i < n && Get(init[i], f).Some?;
          assert Get(layers[i], f).Some?;
        }
      }
    }
  }

  /** Spread a list of energy layers left to right, `{ ...layers[0], ...layers[1], ... }`. */
  function MergeLayers(layers: seq<Energies>): (r: Energies)
    ensures forall f :: Get(r, f) == LastPresent(layers, f)
  {
    if |layers| == 0 then NoEnergies
    else Overlay(MergeLayers(layers[..|layers| - 1]), layers[|layers| - 1])
  }

  /** The binding-energy override, kept apart from the generic merge because its precedence differs:
      with the counterpoise correction the catalog's corrected value, falling back to the previous
      corrected value; without it the catalog's raw value, falling back to the previous raw value and
      then to the previous corrected value. */
  function BindingOverride(previous: Energies, picked: Energies, includeBsse: bool): (r: Option<real>)
    ensures includeBsse ==> (r.Some? <==> picked.bindingBsse.Some? || previous.bindingBsse.Some?)
    ensures includeBsse && picked.bindingBsse.Some? ==> r == picked.bindingBsse
    ensures includeBsse && picked.bindingBsse.None? ==> r == previous.bindingBsse
    ensures !includeBsse ==>
      (r.Some? <==> picked.bindingRaw.Some? || previous.bindingRaw.Some? || previous.bindingBsse.Some?)
    ensures !includeBsse && picked.bindingRaw.Some? ==> r == picked.bindingRaw
    ensures !includeBsse && picked.bindingRaw.None? && previous.bindingRaw.Some? ==> r == previous.bindingRaw
    ensures !includeBsse && picked.bindingRaw.None? && previous.bindingRaw.None? ==> r == previous.bindingBsse
  {
    if includeBsse then picked.bindingBsse.OrElse(previous.bindingBsse)
    else picked.bindingRaw.OrElse(previous.bindingRaw).OrElse(previous.bindingBsse)
  }

  /** The asymmetry of the override: the corrected chain never consults a raw value, and the uncorrected
      chain never consults the catalog's corrected value (though it does fall back to the previous one). */
  lemma BindingOverrideSources(previous: Energies, picked: Energies, raw1: Option<real>, raw2: Option<real>, bsse: Option<real>)
    ensures BindingOverride(previous.(bindingRaw := raw1), picked.(bindingRaw := raw2), true)
         == BindingOverride(previous, picked, true)
    ensures BindingOverride(previous, picked.(bindingBsse := bsse), false)
         == BindingOverride(previous, picked, false)
  {
  }

  /** `mergedEnergies`: defaults, then the previous energies, then the picked entry, then the binding
      override. Every field but `bindingBsse` takes the highest layer that has it. */
  function MergeEnergies(previous: Energies, picked: Energies, includeBsse: bool): (r: Energies)
    ensures forall f :: f != BindingBsse ==>
      Get(r, f) == Get(picked, f).OrElse(Get(previous, f)).OrElse(Get(DefaultAbsolutes, f))
    ensures r.bindingBsse == BindingOverride(previous, picked, includeBsse)
  {
    var layers := [DefaultAbsolutes, previous, picked];
    var merged := MergeLayers(layers);
    var r := merged.(bindingBsse := BindingOverride(previous, picked, includeBsse));
    forall f | f != BindingBsse
      ensures Get(r, f) == Get(picked, f).OrElse(Get(previous, f)).OrElse(Get(DefaultAbsolutes, f))
    {
      assert layers[..2] == [DefaultAbsolutes, previous] && layers[..2][..1] == [DefaultAbsolutes];
      assert LastPresent(layers[..2][..1], f) == Get(DefaultAbsolutes, f);
      assert LastPresent(layers[..2], f) == Get(previous, f).OrElse(Get(DefaultAbsolutes, f));
      assert Get(r, f) == Get(merged, f);
    }
    r
  }

  /** The display name of a method code; any code other than "dft" and "dlpno" is canonical CCSD(T). */
  function MethodPrefix(methodCode: string): (r: string)
    ensures r == "ωB97X-D3BJ" <==> methodCode == "dft"
    ensures r == "DLPNO-CCSD(T)" <==> methodCode == "dlpno"
    ensures r == "CCSD(T)" <==> methodCode != "dft" && methodCode != "dlpno"
  {
    if methodCode == "dft" then "ωB97X-D3BJ"
    else if methodCode == "dlpno" then "DLPNO-CCSD(T)"
    else "CCSD(T)"
  }

  const VqeSuffix: string := " + VQE"

  /** The result's method description: method name, "/", basis set, and " + VQE" when the eigensolver
      refinement is on. */
  function MethodLabel(methodCode: string, basisSet: string, includeVqe: bool): (r: string)
    ensures MethodPrefix(methodCode) + "/" + basisSet <= r
    ensures !includeVqe ==> r == MethodPrefix(methodCode) + "/" + basisSet
    ensures includeVqe <==> |r| == |MethodPrefix(methodCode)| + 1 + |basisSet| + |VqeSuffix|
    ensures includeVqe ==> r[|r| - |VqeSuffix|..] == VqeSuffix
  {
    MethodPrefix(methodCode) + "/" + basisSet + (if includeVqe then VqeSuffix else "")
  }

  /** For a fixed basis set the description determines the method family and the refinement flag:
      the three names start with different characters. */
  lemma MethodLabelDetermines(m1: string, m2: string, basisSet: string, v1: bool, v2: bool)
    requires MethodLabel(m1, basisSet, v1) == MethodLabel(m2, basisSet, v2)
    ensures MethodPrefix(m1) == MethodPrefix(m2)
    ensures v1 == v2
  {
    var l1 := MethodLabel(m1, basisSet, v1);
    var l2 := MethodLabel(m2, basisSet, v2);
    assert l1[0] == MethodPrefix(m1)[0];
    assert l2[0] == MethodPrefix(m2)[0];
  }

  /** The fixed eigensolver record attached when the refinement is on. */
  const VqeRecord: VqeData := VqeData(Some("(6e, 6o)"), Some(0.000012), Some(147), Some(-0.3))

  /** The fixed kinetics record attached to every run. */
  const KineticsRecord: KineticsData := KineticsData(Some(18.2), Some(16.7), Some("4.3 × 10⁻³ s⁻¹"))

  const CompletedStatus: string := "Completed"

  /** The run identifier: "SIM-", the first ten characters of the ISO time `now` without dashes, "-001". */
  function MakeId(now: string): (r: string)
    ensures 8 <= |r| <= 18
    ensures r[..4] == "SIM-" && r[|r| - 4..] == "-001"
    ensures forall i :: 4 <= i < |r| - 4 ==> r[i] != '-'
  {
    "SIM-" + Text.RemoveAll(Text.Prefix(now, 10), '-') + "-001"
  }

  /** The run timestamp: the first nineteen characters of the ISO time `now`, its first "T" turned into
      a space. */
  function MakeTimestamp(now: string): (r: string)
    ensures |r| == if |now| < 19 then |now| else 19
  {
    Text.ReplaceFirst(Text.Prefix(now, 19), 'T', ' ')
  }

  /** The shape `YYYY-MM-DDTHH:mm:ss…` of an ISO-8601 time as `Date.toISOString` writes it. */
  predicate IsoDateTime(now: string) {
    && |now| >= 19
    && forall i :: 0 <= i < 19 ==>
      if i == 4 || i == 7 then now[i] == '-'
      else if i == 10 then now[i] == 'T'
      else if i == 13 || i == 16 then now[i] == ':'
      else '0' <= now[i] <= '9'
  }

  /** For an ISO time the identifier is "SIM-YYYYMMDD-001". */
  lemma IdOfIsoTime(now: string)
    requires IsoDateTime(now)
    ensures MakeId(now) == "SIM-" + now[..4] + now[5..7] + now[8..10] + "-001"
    ensures |MakeId(now)| == 16
  {
    var date := Text.Prefix(now, 10);
    assert date == now[..4] + "-" + now[5..7] + "-" + now[8..10];
    Text.RemoveAllSeparators(now[..4], now[5..7], now[8..10], '-');
  }

  /** For an ISO time the timestamp is "YYYY-MM-DD HH:mm:ss": only the date/time separator is replaced. */
  lemma TimestampOfIsoTime(now: string)
    requires IsoDateTime(now)
    ensures MakeTimestamp(now) == now[..10] + " " + now[11..19]
  {
    var time := Text.Prefix(now, 19);
    var r := MakeTimestamp(now);
    forall i | 0 <= i < 19
      ensures r[i] == (now[..10] + " " + now[11..19])[i]
    {
      if i < 10 {
        assert time[i] != 'T';
      } else if i == 10 {
        assert forall j :: 0 <= j < 10 ==> time[..10][j] != 'T';
      }
    }
  }

  /** The settings a run reads from the form. */
  datatype RunConfig = RunConfig(
    system: System,
    methodCode: string,
    basisSet: string,
    includeVqe: bool,
    includeBsse: bool)

  /** The two reads of the clock a run makes, as ISO-8601 strings: one for the identifier, one for the
      timestamp. They are separate reads and may fall on different dates. */
  datatype RunClock = RunClock(idRead: string, stampRead: string)

  /** The result record a run builds from the form, the previous result and the clock reads. */
  function BuildPayload(cfg: RunConfig, previous: Option<SimulationResult>, clock: RunClock): (p: SimulationResult)
    ensures p.id == Some(MakeId(clock.idRead)) && p.timestamp == Some(MakeTimestamp(clock.stampRead))
    ensures p.system == Some(Label(cfg.system))
    ensures p.methodLabel == Some(MethodLabel(cfg.methodCode, cfg.basisSet, cfg.includeVqe))
    ensures p.status == Some(CompletedStatus)
    ensures p.energies == Some(MergeEnergies(EnergiesOf(previous), SystemResults(cfg.system).energies, cfg.includeBsse))
    ensures p.vqe.Some? <==> cfg.includeVqe
    ensures p.vqe.Some? ==> p.vqe.value == VqeRecord
    ensures p.kinetics == Some(KineticsRecord)
    ensures p.classification == Some(ClassificationLabel(SystemResults(cfg.system).classification.GetOr(Works)))
  {
    var picked := SystemResults(cfg.system);
    SimulationResult(
      Some(MakeId(clock.idRead)),
      Some(MakeTimestamp(clock.stampRead)),
      Some(Label(cfg.system)),
      Some(MethodLabel(cfg.methodCode, cfg.basisSet, cfg.includeVqe)),
      Some(CompletedStatus),
      Some(MergeEnergies(EnergiesOf(previous), picked.energies, cfg.includeBsse)),
      if cfg.includeVqe then Some(VqeRecord) else None,
      Some(KineticsRecord),
      Some(ClassificationLabel(picked.classification.GetOr(Works))))
  }

  /** The update a run hands to `setSimulationData`: the five settings and the new result. */
  function RunUpdate(cfg: RunConfig, payload: SimulationResult): (p: Partial)
    ensures p.molecularSystem == Some(Label(cfg.system)) && p.methodCode == Some(cfg.methodCode)
    ensures p.basisSet == Some(cfg.basisSet)
    ensures p.includeVqe == Some(cfg.includeVqe) && p.includeBsse == Some(cfg.includeBsse)
    ensures p.result == Some(Some(payload))
    ensures p.currentView.None?
  {
    Partial(Some(Label(cfg.system)), Some(cfg.methodCode), Some(cfg.basisSet), Some(cfg.includeVqe),
            Some(cfg.includeBsse), Some(Some(payload)), None)
  }

  /** `run()`: build the payload, store it with the settings, and switch to the results view. */
  function Run(s: SimulationState, cfg: RunConfig, clock: RunClock): (r: SimulationState)
    ensures r.molecularSystem == Label(cfg.system)
    ensures r.methodCode == cfg.methodCode && r.basisSet == cfg.basisSet
    ensures r.includeVqe == cfg.includeVqe && r.includeBsse == cfg.includeBsse
    ensures r.result == Some(BuildPayload(cfg, s.result, clock))
    ensures r.currentView == Results
  {
    Go(SetSimulationData(s, RunUpdate(cfg, BuildPayload(cfg, s.result, clock))), Results)
  }

  /** The energies a run stores. */
  function RunEnergies(s: SimulationState, cfg: RunConfig, clock: RunClock): Energies {
    Run(s, cfg, clock).result.value.energies.value
  }

  /** After a run the three absolute energies are present: each is the catalog value if set, else the
      previous value if present, else the hard default. */
  lemma RunAbsolutesPresent(s: SimulationState, cfg: RunConfig, clock: RunClock, f: Field)
    requires f in {H2, Nh3bh3, Complex}
    ensures Get(RunEnergies(s, cfg, clock), f).Some?
    ensures Get(RunEnergies(s, cfg, clock), f) ==
      Get(SystemResults(cfg.system).energies, f).OrElse(Get(EnergiesOf(s.result), f)).OrElse(Get(DefaultAbsolutes, f))
  {
  }

  /** A field the catalog entry omits, other than the binding energy and the three absolutes, keeps its
      previous value; the catalyst energy in particular survives every run. */
  lemma RunKeepsOmittedFields(s: SimulationState, cfg: RunConfig, clock: RunClock, f: Field)
    requires f !in {H2, Nh3bh3, Complex, BindingBsse}
    requires Get(SystemResults(cfg.system).energies, f).None?
    ensures Get(RunEnergies(s, cfg, clock), f) == Get(EnergiesOf(s.result), f)
  {
  }

  lemma RunKeepsCatalyst(s: SimulationState, cfg: RunConfig, clock: RunClock)
    ensures RunEnergies(s, cfg, clock).catalyst == EnergiesOf(s.result).catalyst
    ensures RunEnergies(s, cfg, clock).zpe == EnergiesOf(s.result).zpe
  {
    CatalogCoverage(cfg.system);
    RunKeepsOmittedFields(s, cfg, clock, Catalyst);
    RunKeepsOmittedFields(s, cfg, clock, Zpe);
  }

  /** With the counterpoise correction on, the stored binding energy is the catalog's corrected value. */
  lemma RunBindingWithBsse(s: SimulationState, cfg: RunConfig, clock: RunClock)
    requires cfg.includeBsse
    ensures RunEnergies(s, cfg, clock).bindingBsse == SystemResults(cfg.system).energies.bindingBsse
    ensures RunEnergies(s, cfg, clock).bindingBsse.Some?
  {
    CatalogCoverage(cfg.system);
  }

  /** With the correction off: catalog raw, else previous raw, else previous corrected. */
  lemma RunBindingWithoutBsse(s: SimulationState, cfg: RunConfig, clock: RunClock)
    requires !cfg.includeBsse
    ensures RunEnergies(s, cfg, clock).bindingBsse ==
      SystemResults(cfg.system).energies.bindingRaw
        .OrElse(EnergiesOf(s.result).bindingRaw)
        .OrElse(EnergiesOf(s.result).bindingBsse)
  {
  }

  /** Every system but "NH₃BH₃ + H₂ + FLP" has no raw binding, so with the correction off the stored
      binding is carried over from the previous result (its raw value, else its corrected one) and does
      not depend on the system run; it is absent when the previous result has neither. */
  lemma RunBindingWithoutBsseCarried(s: SimulationState, cfg: RunConfig, clock: RunClock)
    requires !cfg.includeBsse && cfg.system != AmmoniaBoraneH2Flp
    ensures RunEnergies(s, cfg, clock).bindingBsse ==
      EnergiesOf(s.result).bindingRaw.OrElse(EnergiesOf(s.result).bindingBsse)
  {
    CatalogCoverage(cfg.system);
    RunBindingWithoutBsse(s, cfg, clock);
  }

  /** Running without the correction and then with it for the same system selects the catalog's
      corrected value the second time, whatever the first run stored. */
  lemma RunBsseToggle(s: SimulationState, cfg: RunConfig, clock1: RunClock, clock2: RunClock)
    requires !cfg.includeBsse
    ensures RunEnergies(Run(s, cfg, clock1), cfg.(includeBsse := true), clock2).bindingBsse
         == SystemResults(cfg.system).energies.bindingBsse
  {
    RunBindingWithBsse(Run(s, cfg, clock1), cfg.(includeBsse := true), clock2);
  }

  /** The stored classification is always the catalog entry's own; the "Works" default never applies. */
  lemma RunClassification(s: SimulationState, cfg: RunConfig, clock: RunClock)
    ensures SystemResults(cfg.system).classification.Some?
    ensures Run(s, cfg, clock).result.Some?
    ensures Run(s, cfg, clock).result.value.classification ==
      Some(ClassificationLabel(SystemResults(cfg.system).classification.value))
  {
    CatalogCoverage(cfg.system);
  }

  /** The form's default run: "NH₃BH₃ + H₂ + FLP" with DFT and def2-TZVP is classified "Works" and
      described as "ωB97X-D3BJ/def2-TZVP", with " + VQE" exactly when the refinement is on. */
  lemma DefaultFormRun(s: SimulationState, includeVqe: bool, includeBsse: bool, clock: RunClock)
    ensures var r := Run(s, RunConfig(AmmoniaBoraneH2Flp, "dft", "def2-TZVP", includeVqe, includeBsse), clock).result.value;
      && r.classification == Some("Works")
      && r.methodLabel == Some(if includeVqe then "ωB97X-D3BJ/def2-TZVP + VQE" else "ωB97X-D3BJ/def2-TZVP")
  {
    assert MethodPrefix("dft") + "/" + "def2-TZVP" == "ωB97X-D3BJ/def2-TZVP";
    assert "ωB97X-D3BJ/def2-TZVP" + VqeSuffix == "ωB97X-D3BJ/def2-TZVP + VQE";
    assert "ωB97X-D3BJ/def2-TZVP" + "" == "ωB97X-D3BJ/def2-TZVP";
  }
}
