/**
 * The calculator component: four pieces of state (weight, reps, the name of
 * the selected formula, and the dark-mode flag), the handlers that overwrite
 * them, and what each render computes from them: the estimated 1RM and the
 * percentage table.
 */
module App {
  import opened Wrappers
  import opened Formulas
  import opened PercentageTable

  /** The three inputs an estimate is computed from. */
  datatype EstimationInput = EstimationInput(weight: real, reps: real, formula: string)

  /** The inputs the component starts with, and the ones Reset restores. */
  const Initial: EstimationInput := EstimationInput(100.0, 5.0, "Epley")

  /**
   * The inputs exclude the Brzycki pole at 37 repetitions and negative
   * repetitions under Lombardi, where the tenth power has no real value.
   */
  predicate Computable(input: EstimationInput)
  {
    (input.formula != "Brzycki" || input.reps != 37.0) &&
    (input.formula != "Lombardi" || input.reps >= 0.0)
  }

  /**
   * The estimate of the formula the name selects. A name that is not a key
   * of the lookup yields None: there is no formula to call.
   */
  function Calculate1RM(input: EstimationInput, tenthPower: real -> real): (r: Option<real>)
    requires Computable(input)
    ensures r.Some? <==> input.formula in Keys
    ensures r.Some? && input.weight == 0.0 ==> r.value == 0.0
  {
    match Lookup(input.formula)
    case None => None
    case Some(f) => Some(Estimate(f, input.weight, input.reps, tenthPower))
  }

  /** Selecting a formula by its key applies exactly that formula. */
  lemma Calculate1RMSelects(f: FormulaName, weight: real, reps: real, tenthPower: real -> real)
    requires f == Brzycki ==> reps != 37.0
    requires f == Lombardi ==> reps >= 0.0
    ensures Calculate1RM(EstimationInput(weight, reps, NameOf(f)), tenthPower)
         == Some(Estimate(f, weight, reps, tenthPower))
  {
  }

  /** The starting inputs estimate 350/3 kg; switching to Brzycki alone gives 112.5 kg. */
  lemma InitialEstimates(tenthPower: real -> real)
    ensures Calculate1RM(Initial, tenthPower) == Some(350.0 / 3.0)
    ensures Calculate1RM(Initial.(formula := "Brzycki"), tenthPower) == Some(112.5)
  {
  }

  /** The component's state, overwritten by its event handlers. */
  class Calculator {
    var weight: real
    var reps: real
    var formula: string
    var darkMode: bool

    /** The part of the state the estimate is computed from. */
    function Input(): EstimationInput
      reads this
    {
      EstimationInput(weight, reps, formula)
    }

    /**
     * The component's invariant: the selected name is always a key of the
     * lookup, so there is always a formula to apply.
     */
    predicate Valid()
      reads this
    {
      formula in Keys
    }

    /** The state a fresh component starts in. */
    constructor ()
      ensures Valid()
      ensures Input() == Initial && !darkMode
    {
      weight, reps, formula, darkMode := 100.0, 5.0, "Epley", false;
    }

    /** The weight field's change handler; the value is taken as given. */
    method SetWeight(w: real)
      requires Valid()
      modifies this`weight
      ensures Valid()
      ensures Input() == old(Input()).(weight := w)
      ensures darkMode == old(darkMode)
    {
      weight := w;
    }

    /** The reps field's change handler; no range is enforced. */
    method SetReps(n: real)
      requires Valid()
      modifies this`reps
      ensures Valid()
      ensures Input() == old(Input()).(reps := n)
      ensures darkMode == old(darkMode)
    {
      reps := n;
    }

    /**
     * The formula selector's change handler. The selector's options are the
     * keys of the lookup, so the name it passes is always one of them.
     */
    method SetFormula(name: string)
      requires Valid() && name in Keys
      modifies this`formula
      ensures Valid()
      ensures Input() == old(Input()).(formula := name)
      ensures darkMode == old(darkMode)
    {
      formula := name;
    }

    /** The theme button: flips dark mode and leaves the inputs alone. */
    method ToggleDarkMode()
      requires Valid()
      modifies this`darkMode
      ensures Valid()
      ensures darkMode == !old(darkMode)
      ensures Input() == old(Input())
    {
      darkMode := !darkMode;
    }

    /** The Reset button: restores the starting inputs and keeps the theme. */
    method Reset()
      requires Valid()
      modifies this`weight, this`reps, this`formula
      ensures Valid()
      ensures Input() == Initial
      ensures darkMode == old(darkMode)
    {
      weight := 100.0;
      reps := 5.0;
      formula := "Epley";
    }

    /**
     * What one render computes: the estimate for the current inputs and the
     * percentage table built from it. In a valid state there always is an
     * estimate. The dark-mode flag plays no part.
     */
    method Render(tenthPower: real -> real) returns (oneRM: Option<real>, rows: Option<seq<Row>>)
      requires Valid() && Computable(Input())
      ensures oneRM.Some? && rows.Some?
      ensures oneRM == Calculate1RM(Input(), tenthPower)
      ensures rows.Some? <==> oneRM.Some?
      ensures rows.Some? ==> rows.value == Table(oneRM.value) && |rows.value| == 8
    {
      oneRM := Calculate1RM(Input(), tenthPower);
      rows := if oneRM.Some? then Some(Table(oneRM.value)) else None;
    }
  }

  /**
   * Whatever was edited and whatever the theme, Reset brings the displayed
   * estimate back to the starting one and leaves the theme as it was.
   */
  method ResetScenario(w: real, n: real, name: string, tenthPower: real -> real)
    returns (shown: Option<real>, dark: bool)
    requires name in Keys
    ensures shown == Some(350.0 / 3.0)
    ensures dark
  {
    var c := new Calculator();
    c.SetWeight(w);
    c.SetReps(n);
    c.SetFormula(name);
    c.ToggleDarkMode();
    c.Reset();
    InitialEstimates(tenthPower);
    var rows;
    shown, rows := c.Render(tenthPower);
    dark := c.darkMode;
  }
}
