# Quantum H₂ storage simulator: the run path and the session store, in Dafny

The web UI mocks a quantum-chemistry dashboard for hydrogen storage on NH₃BH₃ with a frustrated Lewis
pair (FLP) catalyst. Its only logic is the "run simulation" path: the configuration form looks up a demo
catalog entry for the chosen molecular system, merges its energies over hard defaults and the previous
result, assembles a result record, writes it into a session store, and switches to the results view. The
analysis view then derives state energies E1–E6 and a binding energy from the stored result, showing a
placeholder for every absent value.

This project models that path as pure functions over immutable records:

- `Options` — `Option<T>`, with `OrElse`/`GetOr` for JavaScript's `??`.
- `Units` — the Hartree / kJ·mol⁻¹ / kcal·mol⁻¹ conversions, all absence-preserving, and the default
  catalyst energy `E2DefaultH`. The source defines `kjToHartree` and `E2_DEFAULT_H` twice (store and
  analysis view) with the same text; here they are defined once.
- `Text` — the string operations that build the run identifier and timestamp (`slice`, a global
  `replace(/-/g, "")`, and `replace("T", " ")`, which replaces only the first match).
- `SimulationContext` — the `Energies`, `SimulationResult` and `SimulationState` shapes, the seeded
  `DefaultState`, the shallow merge `SetSimulationData` and the view switch `Go`.
- `SimulationConfig` — the six-system catalog, the layered energy merge (`MergeLayers` over
  `[DefaultAbsolutes, previous, picked]`), the separate `BindingOverride`, the payload and `Run`.
- `AnalysisPage` — `Fmt`, the E1–E6 rows, the binding from totals, and the values read straight from the
  result.
- `Session` — sequences of runs and navigations starting from the seeded state, and what holds of every
  state they reach.

Every energy field is an `Option<real>`. The JavaScript object spreads are modelled per field as "a value
in a later layer wins, absence never overwrites". That equals the spread here, because catalog entries
hold only present keys. The only key that can be stored as an explicit `undefined` is `bindingBSSE`,
and every run recomputes it. `Partial.result` has two levels of `Option`: an update may omit the result
or set it explicitly to `undefined`.

Three facts of the code the model relies on:
- the first view is named `simulate`;
- the catalog's classifications are "Works", "Borderline" and "Not viable";
- the results view never reads the store (see below).

With the counterpoise flag off, a run stores in the field `bindingBSSE` the catalog's raw binding, else
the previous result's raw binding, else the previous result's `bindingBSSE`. The analysis view still
shows that field under the label "BSSE-corrected". Only "NH₃BH₃ + H₂ + FLP" has a raw binding, so for it
the shown value is the raw -12.4 (`Session.UncorrectedRunShownAsCorrected`). For the other five systems
the shown value does not depend on the system run: it is carried over from an earlier run, possibly of
another system, or is absent (`SimulationConfig.RunBindingWithoutBsseCarried`,
`Session.UncorrectedRunShowsCarriedValue`). Whether this is intended cannot be told from the code. The
model keeps the behaviour as written.

## Model

| member | source | states |
|---|---|---|
| Units.KcalToKj | src/components/AnalysisPage.tsx:7 | absent maps to absent, present to present, and a present value is scaled by 4.184 |
| Units.KjToHartree | src/components/SimulationContext.tsx:5-6 | absent iff the input is absent; a present result times 2625.49962 gives back the kJ/mol input |
| Units.HartreeToKj | src/components/AnalysisPage.tsx:26-29 | the E*_kJ conversion preserves presence and scales by 2625.49962 |
| Units.HartreeKjRoundTrip | src/components/AnalysisPage.tsx:6-8 | the Hartree→kJ and kJ→Hartree conversions are mutually inverse, absent values included |
| Units.E2DefaultValue | src/components/SimulationContext.tsx:8-9 | the conversion of -4428.01 kJ/mol is present, so the -1.68654 fallback is dead; E2 default is exactly -4428.01 kJ/mol and within 5e-6 of -1.68654 Hartree |
| Text.Prefix | src/components/SimulationConfig.tsx:71-72 | `slice(0, n)` yields a prefix of length min(n, length) |
| Text.RemoveAll | src/components/SimulationConfig.tsx:71 | the global replace deletes every dash and keeps the count of every other character |
| Text.RemoveAllAppend | src/components/SimulationConfig.tsx:71 | deleting dashes distributes over concatenation, so the kept characters stay in order |
| Text.RemoveAllAbsent | src/components/SimulationConfig.tsx:71 | a string without dashes is unchanged by the replace |
| Text.RemoveAllSeparators | src/components/SimulationConfig.tsx:71 | removing the dashes of "YYYY-MM-DD" joins the three dash-free parts |
| Text.ReplaceFirst | src/components/SimulationConfig.tsx:72 | replace with a string pattern changes only the first "T" (if any), keeping the length and every other character |
| SimulationContext.DefaultStateSeeded | src/components/SimulationContext.tsx:52-67 | the initial view is `simulate` and the seeded energies hold exactly one field, the catalyst, equal to E2_DEFAULT_H |
| SimulationContext.SetSimulationData | src/components/SimulationContext.tsx:73 | each field present in the partial replaces the stored field; every other field keeps its value |
| SimulationContext.SetEmptyIsIdentity | src/components/SimulationContext.tsx:73 | an empty partial leaves the state unchanged |
| SimulationContext.SetSimulationDataComposes | src/components/SimulationContext.tsx:73 | two updates equal one update of the combined partial, later fields winning |
| SimulationContext.SetSimulationDataIdempotent | src/components/SimulationContext.tsx:73 | applying the same partial twice equals applying it once |
| SimulationContext.ResultReplacedWhole | src/components/SimulationContext.tsx:73 | the merge is shallow: a provided result replaces the stored one, so an energy it omits is absent afterwards |
| SimulationContext.Go | src/components/SimulationContext.tsx:74 | `go(v)` sets the current view to v and changes nothing else |
| SimulationContext.GoIsViewUpdate | src/components/SimulationContext.tsx:73-74 | `go(v)` is the update whose only field is `currentView` |
| SimulationContext.GoLastWins | src/components/SimulationContext.tsx:74 | `go` is idempotent, and of two navigations only the last matters |
| SimulationConfig.Label | src/components/SimulationConfig.tsx:6-13 | each system's label is read back by the picker as that same system |
| SimulationConfig.SystemOfLabelsOnly | src/components/SimulationConfig.tsx:113-119 | reading a label back gives a system only for one of the six labels, the picker's only options (lines 116-119), and then the system with that label |
| SimulationConfig.SystemsAndLabels | src/components/SimulationConfig.tsx:6-13 | the picker lists each of the six systems once, and distinct systems have distinct labels |
| SimulationConfig.SystemResults | src/components/SimulationConfig.tsx:24-46 | the entry type has no catalyst or zpe key; every entry sets the corrected binding and a classification |
| SimulationConfig.CatalogCoverage | src/components/SimulationConfig.tsx:31-46 | only "NH₃BH₃ + H₂ + FLP" sets the raw binding, the entropy, H₂ and NH₃BH₃, and those equal the hard defaults; only it and "NH₃BH₃ + 2H₂ + FLP" set the complex, and only the latter to a non-default value |
| SimulationConfig.Overlay | src/components/SimulationConfig.tsx:61-64 | a spread of one layer over another: a field present on top wins, otherwise the lower value stays |
| SimulationConfig.LastPresentIsLast | src/components/SimulationConfig.tsx:61-64 | a field of the layered spread is present iff some layer has it, and then it equals the last layer that has it |
| SimulationConfig.MergeLayers | src/components/SimulationConfig.tsx:61-64 | folding the layers left to right gives, in every field, the last present layer's value |
| SimulationConfig.BindingOverride | src/components/SimulationConfig.tsx:65-67 | with the flag on: catalog corrected ?? previous corrected; with it off: catalog raw ?? previous raw ?? previous corrected; present iff one of the consulted values is |
| SimulationConfig.BindingOverrideSources | src/components/SimulationConfig.tsx:65-67 | the corrected chain ignores every raw value; the uncorrected chain ignores the catalog's corrected value |
| SimulationConfig.MergeEnergies | src/components/SimulationConfig.tsx:61-68 | every field but bindingBSSE is picked ?? previous ?? default; bindingBSSE is the separate override |
| SimulationContext.EnergiesOf | src/components/SimulationConfig.tsx:63 | the previous energies (also the analysis view's `energies`, AnalysisPage.tsx:17) are the stored result's energies, or all-absent when there is no result or no energies |
| SimulationConfig.MethodPrefix | src/components/SimulationConfig.tsx:75 | "dft" names ωB97X-D3BJ, "dlpno" names DLPNO-CCSD(T), and every other code names CCSD(T), each in both directions |
| SimulationConfig.MethodLabel | src/components/SimulationConfig.tsx:74-76 | with the refinement off the description is exactly method name + "/" + basis set; with it on, it is that followed by " + VQE" (longer by exactly the suffix) |
| SimulationConfig.MethodLabelDetermines | src/components/SimulationConfig.tsx:74-76 | for one basis set, equal descriptions imply the same method name and the same refinement flag |
| SimulationConfig.MakeId | src/components/SimulationConfig.tsx:71 | the id starts with "SIM-", ends with "-001", has no dash in between, and is at most 18 characters long |
| SimulationConfig.MakeTimestamp | src/components/SimulationConfig.tsx:72 | the timestamp has min(19, length) characters |
| SimulationConfig.IdOfIsoTime | src/components/SimulationConfig.tsx:71 | for an ISO time the id is "SIM-" + YYYYMMDD + "-001", 16 characters |
| SimulationConfig.TimestampOfIsoTime | src/components/SimulationConfig.tsx:72 | for an ISO time the timestamp is the date, a space, and HH:mm:ss |
| SimulationConfig.BuildPayload | src/components/SimulationConfig.tsx:70-84 | the payload is the id from the first clock read, the timestamp from the second, system label, method description, "Completed", the merge of the previous result's energies with the catalog entry under the BSSE flag; the VQE record iff the refinement is on; the fixed kinetics; catalog classification defaulting to "Works" |
| SimulationConfig.RunUpdate | src/components/SimulationConfig.tsx:86-89 | the update sets the five settings and the new result, and leaves the view alone |
| SimulationConfig.Run | src/components/SimulationConfig.tsx:86-91 | after a run the store holds the five settings and the new payload, and the view is `results` |
| SimulationConfig.RunAbsolutesPresent | src/components/SimulationConfig.tsx:17-21 | after a run h2, nh3bh3 and complex are present, each catalog ?? previous ?? hard default |
| SimulationConfig.RunKeepsOmittedFields | src/components/SimulationConfig.tsx:63-64 | a field the catalog omits, other than bindingBSSE and the three absolutes, keeps its previous value |
| SimulationConfig.RunKeepsCatalyst | src/components/SimulationConfig.tsx:31-46 | the catalyst and zero-point energies survive every run unchanged |
| SimulationConfig.RunBindingWithBsse | src/components/SimulationConfig.tsx:65-66 | with the BSSE flag on, the stored binding is the catalog's corrected value, always present |
| SimulationConfig.RunBindingWithoutBsse | src/components/SimulationConfig.tsx:67 | with the flag off, it is catalog raw ?? previous raw ?? previous corrected |
| SimulationConfig.RunBindingWithoutBsseCarried | src/components/SimulationConfig.tsx:67 | with the flag off and any system but "NH₃BH₃ + H₂ + FLP", the stored binding is previous raw ?? previous corrected, whatever the system |
| SimulationConfig.RunBsseToggle | src/components/SimulationConfig.tsx:65-67 | a run without the correction followed by one with it yields the catalog's corrected value |
| SimulationConfig.RunClassification | src/components/SimulationConfig.tsx:83 | the stored classification is always the catalog entry's own |
| SimulationConfig.DefaultFormRun | src/components/SimulationConfig.tsx:74-83 | the default system with DFT and def2-TZVP is "Works" and described "ωB97X-D3BJ/def2-TZVP", plus " + VQE" exactly when the refinement is on |
| AnalysisPage.UnitSuffix | src/components/AnalysisPage.tsx:10 | the suffix is empty iff the unit is absent or the empty string, else a space and the unit |
| AnalysisPage.Fmt | src/components/AnalysisPage.tsx:9-10 | an absent value renders as "—"; a present one as its numeral followed by the unit suffix |
| AnalysisPage.FmtPlaceholderIffAbsent | src/components/AnalysisPage.tsx:9-10 | for any unit and digit count, `fmt` yields "—" exactly when the value is absent |
| AnalysisPage.BindingFromTotals | src/components/AnalysisPage.tsx:38-41 | present iff E1, E2 and E4 are all present, and then E1 + E2 + binding = E4 |
| AnalysisPage.Analyze | src/components/AnalysisPage.tsx:17-48 | E1/E3/E4 come from the result; E2 is always present (catalyst, else default); binding present iff nh3bh3 and complex are; each kJ row present iff its Hartree row is, and then its Hartree value times 2625.49962; E5/E6 fixed; BSSE binding, enthalpy and Gibbs read unchanged |
| AnalysisPage.ReferenceRowsFixed | src/components/AnalysisPage.tsx:32-35 | E5 and E6 do not depend on the stored result |
| AnalysisPage.E2Defaulting | src/components/AnalysisPage.tsx:21 | E2 is the stored catalyst energy when there is one, else the default |
| Session.StepPreserves | src/components/SimulationConfig.tsx:61-64 | a run or navigation keeps the seeded catalyst and the three absolutes; a run establishes the absolutes |
| Session.Replay | src/components/SimulationConfig.tsx:57-92 | over any sequence of runs and navigations, the seeded catalyst persists, and once a run happens the three absolutes stay present |
| Session.SessionSeeded | src/components/SimulationContext.tsx:58-64 | every state reachable from the initial one has an energies record with the default catalyst energy |
| Session.BindingShownAfterRun | src/components/AnalysisPage.tsx:38-42 | after any run the analysis view shows a binding energy from totals, in Hartree and kJ/mol |
| Session.FirstRunBinding | src/components/AnalysisPage.tsx:20-41 | the first run of "NH₃BH₃ + H₂ + FLP" gives E1 = -83.24561, E4 = -84.43782, default E2 and a binding within 5e-6 of 0.49433 Hartree |
| Session.UncorrectedRunShownAsCorrected | src/components/AnalysisPage.tsx:119-122 | with the BSSE flag off, the row labelled BSSE-corrected shows the raw binding: -12.4 rather than -11.8 kcal/mol for "NH₃BH₃ + H₂ + FLP" |
| Session.UncorrectedRunShowsCarriedValue | src/components/AnalysisPage.tsx:119-122 | an uncorrected "H₂" run shows no BSSE-labelled binding as the first run, and NH₃BH₃'s corrected -12.4 after a corrected "NH₃BH₃" run |
| Session.NavigationKeepsResult | src/components/SimulationContext.tsx:74 | any sequence of navigations leaves the stored result as it was |

## Left out

- Floating point: values are mathematical reals, so rounding of the 4.184 and 2625.49962 factors is not modelled.
- `toFixed`: `Fmt` takes the fixed-point rendering as a parameter `render`. `FmtPlaceholderIffAbsent` assumes only that its output starts with a sign or a digit.
- `fmt`'s default of two digits: `Fmt` has no default argument, and a call that omits the digit count (AnalysisPage.tsx:100-103, 104-105, 115, 121-122, 134-136, 147, 152) is modelled as a call passing 2.
- Clock reads: the run reads `new Date().toISOString()` twice, once for the id (SimulationConfig.tsx:71) and once for the timestamp (:72). The two ISO strings are the fields `idRead` and `stampRead` of the parameter `RunClock`, so they may differ.
- React plumbing is left out: `useState`, `useMemo`, the context object, `useSimulation` and the form's local state. The store is a value, and `SetSimulationData`/`Go` are functions on it.
- The `setSimulationData`/`go` members of the state object are not modelled: the provider re-attaches them to every state.
- A `Partial` field other than `result` cannot be given as an explicit `undefined`. The only caller, SimulationConfig.tsx:86-89, passes present values for all five settings.
- `...picked` also copies the catalog's `classification` key into the energies object. No view reads that stray key, so the model's `Energies` has no such field.
- The form's method codes are "dft", "dlpno" and "ccsd". The store's seeded method is "DFT". `Run` uses the form's code, so the seed never reaches `MethodPrefix`.
- src/components/ResultsView.tsx renders a hardcoded literal and never reads the store.
- src/components/Dashboard.tsx and src/components/DataManager.tsx are static tables and inert buttons.
- src/App.tsx holds the error boundary, links and markup. Its three-way view switch is the `View` datatype.
- The JSX helpers `Eq`, `EnergyCard` and `MetricCard` only render markup.
- The `Session` module replays only runs and navigations, not arbitrary `setSimulationData` calls, because nothing else in the source updates the store.
