/** Unit conversions between Hartree, kJ/mol and kcal/mol. Every helper maps an absent value to an
    absent value, never to zero. */
module Units {
  import opened Options

  /** 1 Hartree in kJ/mol. */
  const HartreeToKjFactor: real := 2625.49962

  /** 1 kcal in kJ. */
  const KcalToKjFactor: real := 4.184

  /** `kcalToKJ`: kcal/mol to kJ/mol. */
  function KcalToKj(x: Option<real>): (r: Option<real>)
    ensures r.Some? <==> x.Some?
    ensures r.Some? ==> r.value == x.value * KcalToKjFactor
  {
    match x
    case None => None
    case Some(v) => Some(v * KcalToKjFactor)
  }

  /** `kjToHartree`: kJ/mol to Hartree. */
  function KjToHartree(x: Option<real>): (r: Option<real>)
    ensures r.Some? <==> x.Some?
    ensures r.Some? ==> r.value * HartreeToKjFactor == x.value
  {
    match x
    case None => None
    case Some(v) => Some(v / HartreeToKjFactor)
  }

  /** The `E*_kJ` lines of the analysis view: Hartree to kJ/mol. */
  function HartreeToKj(x: Option<real>): (r: Option<real>)
    ensures r.Some? <==> x.Some?
    ensures r.Some? ==> r.value == x.value * HartreeToKjFactor
  {
    match x
    case None => None
    case Some(v) => Some(v * HartreeToKjFactor)
  }

  /** The two Hartree/kJ conversions are mutually inverse, absent values included. */
  lemma HartreeKjRoundTrip(x: Option<real>)
    ensures KjToHartree(HartreeToKj(x)) == x
    ensures HartreeToKj(KjToHartree(x)) == x
  {
  }

  /** `E2_DEFAULT_H`: the FLP catalyst energy of -4428.01 kJ/mol in Hartree. The literal fallback
      -1.68654 only applies when the conversion yields nothing, which it never does. */
  const E2DefaultH: real := KjToHartree(Some(-4428.01)).GetOr(-1.68654)

  /** The default catalyst energy is exactly -4428.01 kJ/mol, and agrees with -1.68654 Hartree to
      five decimal places. */
  lemma E2DefaultValue()
    ensures KjToHartree(Some(-4428.01)).Some?
    ensures E2DefaultH * HartreeToKjFactor == -4428.01
    ensures -1.686545 < E2DefaultH < -1.686535
  {
  }
}
