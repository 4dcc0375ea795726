/** A session: the store starts in its seeded state and only the run operation and navigation change it.
    This module states what holds of every state such a session can reach. */
module Session {
  import opened Options
  import Units
  import opened SimulationContext
  import opened SimulationConfig
  import AnalysisPage

  /** The two things that may change the store: a run (with its clock reads) and a navigation. */
  datatype Action = RunAction(cfg: RunConfig, clock: RunClock) | Navigate(view: View)

  function Step(s: SimulationState, a: Action): SimulationState {
    match a
    case RunAction(cfg, clock) => Run(s, cfg, clock)
    case Navigate(v) => Go(s, v)
  }

  /** The store always holds an energies record whose catalyst energy is the seeded default. */
  predicate Seeded(s: SimulationState) {
    && s.result.Some?
    && s.result.value.energies.Some?
    && s.result.value.energies.value.catalyst == Some(Units.E2DefaultH)
  }

  /** Once a run has happened, the three absolute energies stay present. */
  predicate Populated(s: SimulationState) {
    && s.result.Some?
    && s.result.value.energies.Some?
    && s.result.value.energies.value.h2.Some?
    && s.result.value.energies.value.nh3bh3.Some?
    && s.result.value.energies.value.complex.Some?
  }

  /** One action keeps a seeded state seeded and a populated one populated; a run populates. */
  lemma StepPreserves(s: SimulationState, a: Action)
    ensures Seeded(s) ==> Seeded(Step(s, a))
    ensures Populated(s) ==> Populated(Step(s, a))
    ensures a.RunAction? ==> Populated(Step(s, a))
  {
    if a.RunAction? {
      RunKeepsCatalyst(s, a.cfg, a.clock);
      RunAbsolutesPresent(s, a.cfg, a.clock, H2);
      RunAbsolutesPresent(s, a.cfg, a.clock, Nh3bh3);
      RunAbsolutesPresent(s, a.cfg, a.clock, Complex);
    }
  }

  /** Apply actions in order. Seeded states stay seeded, and populated states stay populated. */
  function Replay(s: SimulationState, actions: seq<Action>): (r: SimulationState)
    ensures Seeded(s) ==> Seeded(r)
    ensures Populated(s) ==> Populated(r)
    ensures (exists i :: 0 <= i < |actions| && actions[i].RunAction?) ==> Populated(r)
    decreases |actions|
  {
    if |actions| == 0 then s
    else
      StepPreserves(s, actions[0]);
      assert forall i :: 1 <= i < |actions| ==> actions[1..][i - 1] == actions[i];
      Replay(Step(s, actions[0]), actions[1..])
  }

  /** Every state of a session has an energies record with the default catalyst energy, so E2 is never
      blank; the view is the form until the first action. */
  lemma SessionSeeded(actions: seq<Action>)
    ensures Seeded(Replay(DefaultState, actions))
    ensures |actions| == 0 ==> Replay(DefaultState, actions).currentView == Simulate
  {
    DefaultStateSeeded();
  }

  /** After any run, the analysis view has E1 and E4 and so shows a binding energy from totals. */
  lemma BindingShownAfterRun(s: SimulationState, cfg: RunConfig, clock: RunClock)
    ensures AnalysisPage.Analyze(Run(s, cfg, clock).result).bindingHartree.Some?
    ensures AnalysisPage.Analyze(Run(s, cfg, clock).result).bindingKJ.Some?
  {
    RunAbsolutesPresent(s, cfg, clock, Nh3bh3);
    RunAbsolutesPresent(s, cfg, clock, Complex);
  }

  /** Running "NH₃BH₃ + H₂ + FLP" on the fresh store gives E1 = -83.24561, E4 = -84.43782, the default E2,
      and a binding from totals of 0.49433 Hartree to five decimal places. */
  lemma FirstRunBinding(cfg: RunConfig, clock: RunClock)
    requires cfg.system == AmmoniaBoraneH2Flp
    ensures var a := AnalysisPage.Analyze(Run(DefaultState, cfg, clock).result);
      && a.e1H == Some(-83.24561) && a.e4H == Some(-84.43782) && a.e2H == Some(Units.E2DefaultH)
      && a.bindingHartree.Some?
      && 0.494325 < a.bindingHartree.value < 0.494335
  {
    Units.E2DefaultValue();
    RunKeepsCatalyst(DefaultState, cfg, clock);
    RunAbsolutesPresent(DefaultState, cfg, clock, Nh3bh3);
    RunAbsolutesPresent(DefaultState, cfg, clock, Complex);
  }

  /** With the correction off, the field the analysis view labels "BSSE-corrected" holds the raw binding:
      for "NH₃BH₃ + H₂ + FLP" it shows -12.4 kcal/mol, not the catalog's corrected -11.8. */
  lemma UncorrectedRunShownAsCorrected(s: SimulationState, cfg: RunConfig, clock: RunClock)
    requires cfg.system == AmmoniaBoraneH2Flp && !cfg.includeBsse
    ensures AnalysisPage.Analyze(Run(s, cfg, clock).result).bindingBsseKcal == Some(-12.4)
    ensures SystemResults(cfg.system).energies.bindingBsse == Some(-11.8)
  {
    RunBindingWithoutBsse(s, cfg, clock);
  }

  /** For the other systems an uncorrected run shows a carried-over value under "BSSE-corrected": nothing
      on a first "H₂" run, and after a corrected "NH₃BH₃" run that system's corrected -12.4. */
  lemma UncorrectedRunShowsCarriedValue(cfg: RunConfig, previous: RunConfig, clock1: RunClock, clock2: RunClock)
    requires cfg.system == H2Only && !cfg.includeBsse
    requires previous.system == AmmoniaBorane && previous.includeBsse
    ensures AnalysisPage.Analyze(Run(DefaultState, cfg, clock1).result).bindingBsseKcal.None?
    ensures AnalysisPage.Analyze(Run(Run(DefaultState, previous, clock1), cfg, clock2).result).bindingBsseKcal
         == Some(-12.4)
  {
    RunBindingWithoutBsseCarried(DefaultState, cfg, clock1);
    var first := Run(DefaultState, previous, clock1);
    RunBindingWithBsse(DefaultState, previous, clock1);
    RunKeepsOmittedFields(DefaultState, previous, clock1, BindingRaw);
    assert EnergiesOf(first.result).bindingRaw.None?;
    assert EnergiesOf(first.result).bindingBsse == Some(-12.4);
    RunBindingWithoutBsseCarried(first, cfg, clock2);
  }

  /** Navigating between views never touches the stored result, so the analysis view shows what the run
      stored, with the same E5/E6 reference rows. */
  lemma NavigationKeepsResult(s: SimulationState, views: seq<View>)
    ensures Replay(s, seq(|views|, i requires 0 <= i < |views| => Navigate(views[i]))).result == s.result
    decreases |views|
  {
    var acts := seq(|views|, i requires 0 <= i < |views| => Navigate(views[i]));
    if |views| > 0 {
      NavigationKeepsResult(Go(s, views[0]), views[1..]);
      assert acts[1..] == seq(|views[1..]|, i requires 0 <= i < |views[1..]| => Navigate(views[1..][i]));
    }
  }
}
