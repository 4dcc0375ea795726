/** The analysis view's derived values: placeholder formatting, the six state energies E1-E6, the binding
    energy from absolute totals, and the thermodynamic values read straight from the stored result. */
module AnalysisPage {
  import opened Options
  import opened Units
  import opened SimulationContext

  /** The glyph shown for an absent value. */
  const Placeholder: string := "—"

  /** A unit is appended, after one space, only when it is given and non-empty (an empty string is falsy). */
  function UnitSuffix(unit: Option<string>): (r: string)
    ensures r == "" <==> unit.None? || unit.value == ""
    ensures r != "" ==> r == " " + unit.value
  {
    if unit.Some? && unit.value != "" then " " + unit.value else ""
  }

  /** What `toFixed` can produce for a finite number: a non-empty text starting with a sign or a digit. */
  predicate NumeralText(s: string) {
    |s| > 0 && (s[0] == '-' || '0' <= s[0] <= '9')
  }

  /** `fmt(x, unit, digits)`. The fixed-point rendering of a number is the parameter `render`. */
  function Fmt(x: Option<real>, unit: Option<string>, digits: nat, render: (real, nat) -> string): (r: string)
    ensures x.None? ==> r == Placeholder
    ensures x.Some? ==> render(x.value, digits) <= r && r[|render(x.value, digits)|..] == UnitSuffix(unit)
  {
    match x
    case None => Placeholder
    case Some(v) => render(v, digits) + UnitSuffix(unit)
  }

  /** For any rendering that yields numerals, `fmt` shows the placeholder exactly when the value is absent,
      whatever the unit and digit count. */
  lemma FmtPlaceholderIffAbsent(x: Option<real>, unit: Option<string>, digits: nat, render: (real, nat) -> string)
    requires forall y: real :: NumeralText(render(y, digits))
    ensures Fmt(x, unit, digits, render) == Placeholder <==> x.None?
  {
    if x.Some? {
      var r := Fmt(x, unit, digits, render);
      assert NumeralText(render(x.value, digits));
      assert r[0] == render(x.value, digits)[0];
      assert Placeholder[0] == '—';
    }
  }

  /** The absolute energy rows E1-E4 (Hartree and kJ/mol), the reference rows E5/E6, and the bindings. */
  datatype StateEnergies = StateEnergies(
    e1H: Option<real>, e2H: Option<real>, e3H: Option<real>, e4H: Option<real>,
    e1KJ: Option<real>, e2KJ: Option<real>, e3KJ: Option<real>, e4KJ: Option<real>,
    e5KJ: real, e6KJ: real, e5RelH: Option<real>, e6RelH: Option<real>,
    bindingHartree: Option<real>, bindingKJ: Option<real>,
    bindingBsseKcal: Option<real>, enthalpyKcal: Option<real>, gibbs298Kcal: Option<real>, gibbs350Kcal: Option<real>)

  /** Literature reference energies after the first and second H2 release, kJ/mol. */
  const E5RefKJ: real := -11338.92
  const E6RefKJ: real := -13123.99

  /** Binding from absolute totals, E4 - E1 - E2, present only when all three inputs are. */
  function BindingFromTotals(e1: Option<real>, e2: Option<real>, e4: Option<real>): (r: Option<real>)
    ensures r.Some? <==> e1.Some? && e2.Some? && e4.Some?
    ensures r.Some? ==> e1.value + e2.value + r.value == e4.value
  {
    if e1.Some? && e2.Some? && e4.Some? then Some(e4.value - e1.value - e2.value) else None
  }

  /** The values the analysis view derives from the stored result. */
  function Analyze(result: Option<SimulationResult>): (a: StateEnergies)
    ensures var e := EnergiesOf(result);
      && a.e1H == e.nh3bh3 && a.e3H == e.h2 && a.e4H == e.complex
      && a.e2H == Some(e.catalyst.GetOr(E2DefaultH))
    ensures a.bindingHartree.Some? <==> a.e1H.Some? && a.e4H.Some?
    ensures a.bindingHartree.Some? ==> a.bindingHartree.value == a.e4H.value - a.e1H.value - a.e2H.value
    ensures a.bindingKJ.Some? <==> a.bindingHartree.Some?
    ensures a.bindingKJ.Some? ==> a.bindingKJ.value == a.bindingHartree.value * HartreeToKjFactor
    ensures (a.e1KJ.Some? <==> a.e1H.Some?) && (a.e2KJ.Some? <==> a.e2H.Some?)
    ensures (a.e3KJ.Some? <==> a.e3H.Some?) && (a.e4KJ.Some? <==> a.e4H.Some?)
    ensures a.e1KJ.Some? ==> a.e1KJ.value == a.e1H.value * HartreeToKjFactor
    ensures a.e2KJ.Some? ==> a.e2KJ.value == a.e2H.value * HartreeToKjFactor
    ensures a.e3KJ.Some? ==> a.e3KJ.value == a.e3H.value * HartreeToKjFactor
    ensures a.e4KJ.Some? ==> a.e4KJ.value == a.e4H.value * HartreeToKjFactor
    ensures a.e5KJ == E5RefKJ && a.e6KJ == E6RefKJ
    ensures a.e5RelH.Some? && a.e5RelH.value * HartreeToKjFactor == E5RefKJ
    ensures a.e6RelH.Some? && a.e6RelH.value * HartreeToKjFactor == E6RefKJ
    ensures var e := EnergiesOf(result);
      && a.bindingBsseKcal == e.bindingBsse && a.enthalpyKcal == e.enthalpy
      && a.gibbs298Kcal == e.gibbs298 && a.gibbs350Kcal == e.gibbs350
  {
    var e := EnergiesOf(result);
    var e2 := e.catalyst.OrElse(Some(E2DefaultH));
    var binding := BindingFromTotals(e.nh3bh3, e2, e.complex);
    StateEnergies(
      e.nh3bh3, e2, e.h2, e.complex,
      HartreeToKj(e.nh3bh3), HartreeToKj(e2), HartreeToKj(e.h2), HartreeToKj(e.complex),
      E5RefKJ, E6RefKJ, KjToHartree(Some(E5RefKJ)), KjToHartree(Some(E6RefKJ)),
      binding, HartreeToKj(binding),
      e.bindingBsse, e.enthalpy, e.gibbs298, e.gibbs350)
  }

  /** E5 and E6 are the same whatever result is stored. */
  lemma ReferenceRowsFixed(r1: Option<SimulationResult>, r2: Option<SimulationResult>)
    ensures Analyze(r1).e5KJ == Analyze(r2).e5KJ && Analyze(r1).e6KJ == Analyze(r2).e6KJ
    ensures Analyze(r1).e5RelH == Analyze(r2).e5RelH && Analyze(r1).e6RelH == Analyze(r2).e6RelH
  {
  }

  /** A stored catalyst energy is shown as E2; only without one does the default appear. */
  lemma E2Defaulting(result: Option<SimulationResult>)
    ensures EnergiesOf(result).catalyst.Some? ==> Analyze(result).e2H == EnergiesOf(result).catalyst
    ensures EnergiesOf(result).catalyst.None? ==> Analyze(result).e2H == Some(E2DefaultH)
  {
  }
}
