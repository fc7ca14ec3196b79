/** The calculator page's four-step wizard (`SolarCalculator`): the step
    counter, gated forward and ungated backward navigation, the progress bar,
    per-step validation of required controls, the appliance table's readouts
    and the payload sent for recommendations. The page itself is modelled as
    data in class Page. */
module Wizard {
  import opened Common
  import opened JsText
  import opened Appliances

  /** A control counts as empty when its value is nothing but white space. */
  predicate IsBlank(value: string) {
    AllSpace(value)
  }

  /** That is exactly the test `!field.value.trim()` makes. */
  lemma BlankIffTrimmedEmpty(value: string)
    ensures IsBlank(value) <==> Trim(value) == []
  {
    TrimEmptyIffAllSpace(value);
  }

  /** Every required control of a step holds something besides white space. */
  predicate StepComplete(values: seq<string>) {
    forall i :: 0 <= i < |values| ==> !IsBlank(values[i])
  }

  /** The `is-invalid` marks validation leaves on a step's required controls. */
  function BlankMarks(values: seq<string>): (marks: seq<bool>)
    ensures |marks| == |values|
    ensures forall i :: 0 <= i < |values| ==> marks[i] == IsBlank(values[i])
  {
    seq(|values|, i requires 0 <= i < |values| => IsBlank(values[i]))
  }

  /** `querySelector('.is-invalid')`: the first marked control. */
  function FirstMarked(marks: seq<bool>): (i: nat)
    requires true in marks
    ensures i < |marks| && marks[i]
    ensures forall j :: 0 <= j < i ==> !marks[j]
  {
    if marks[0] then 0
    else
      assert true in marks[1..] by {
        var m :| 0 <= m < |marks| && marks[m];
        assert marks[1..][m - 1];
      }
      1 + FirstMarked(marks[1..])
  }

  /** A step passes exactly when validation marks none of its controls; when
      it fails, focus lands on its first blank control. */
  lemma StepCompleteIffNoMarks(values: seq<string>)
    ensures StepComplete(values) <==> true !in BlankMarks(values)
    ensures !StepComplete(values) ==>
      var f := FirstMarked(BlankMarks(values));
      IsBlank(values[f]) && forall j :: 0 <= j < f ==> !IsBlank(values[j])
  {
    var marks := BlankMarks(values);
    if !StepComplete(values) {
      var i :| 0 <= i < |values| && IsBlank(values[i]);
      assert marks[i];
    }
  }

  /** `(currentStep / totalSteps) * 100`, the progress bar's width in percent. */
  function ProgressPercent(step: int, total: int): (p: real)
    requires total > 0
    ensures 1 <= step <= total ==> 0.0 < p <= 100.0
    ensures p == 100.0 <==> step == total
    ensures p * total as real == step as real * 100.0
  {
    (step as real / total as real) * 100.0
  }

  /** The bar moves in quarters: 25% on the first step, 100% on the last. */
  lemma ProgressByStep(step: int)
    ensures ProgressPercent(step, 4) == 25.0 * step as real
    ensures ProgressPercent(1, 4) == 25.0 && ProgressPercent(4, 4) == 100.0
  {
  }

  /** The form controls, outside the appliance table, that the payload reads:
      text values, and for numeric inputs what `parseFloat` reads (None for NaN). */
  datatype WizardInputs = WizardInputs(
    location: string,
    userType: string,
    generatorSize: Option<real>,
    generatorFuel: Option<real>,
    backupDays: Option<real>,
    budgetRange: string)

  /** The `userData` object posted to `/get_recommendations`. */
  datatype UserData = UserData(
    location: string,
    userType: string,
    generatorSize: real,
    generatorFuel: real,
    dailyEnergy: real,
    backupDays: real,
    budgetRange: string)

  /** The parts of the calculator page the wizard reads and writes. */
  class Page {
    /** k such that an element with id `step{k}` exists. */
    var panels: set<int>
    /** The panels that carry the `d-none` class. */
    var hidden: set<int>
    /** The values of each panel's `[required]` controls, in document order. */
    var fields: map<int, seq<string>>
    /** Whether each of those controls carries the `is-invalid` class. */
    var invalid: map<int, seq<bool>>
    /** The control last given focus: panel and index among its required controls. */
    var focused: Option<(int, nat)>
    var hasProgressBar: bool
    /** The progress bar's width, in percent. */
    var progress: real
    /** The `.appliance-row` rows, in document order. */
    var rows: seq<ApplianceRow>
    /** Each row's `.daily-kwh` readout. */
    var rowKwh: seq<real>
    /** The `#total-daily-power` readout. */
    var totalKwh: real
    var inputs: WizardInputs

    ghost predicate Valid()
      reads this
    {
      && fields.Keys == panels && invalid.Keys == panels
      && (forall k :: k in fields ==> |invalid[k]| == |fields[k]|)
      && |rowKwh| == |rows|
    }

    /** The assumed initial template: step 1 showing, every other panel hidden, no
        control marked, readouts at 0.00. */
    constructor (panels: set<int>, fields: map<int, seq<string>>, hasProgressBar: bool,
                 rows: seq<ApplianceRow>, inputs: WizardInputs)
      requires fields.Keys == panels
      ensures Valid()
      ensures this.panels == panels && this.fields == fields && this.rows == rows && this.inputs == inputs
      ensures this.hasProgressBar == hasProgressBar
      ensures hidden == panels - {1} && focused == None
      ensures forall k :: k in invalid ==> true !in invalid[k]
      ensures totalKwh == 0.0 && forall i :: 0 <= i < |rowKwh| ==> rowKwh[i] == 0.0
    {
      this.panels := panels;
      this.fields := fields;
      this.hasProgressBar := hasProgressBar;
      this.rows := rows;
      this.inputs := inputs;
      hidden := panels - {1};
      invalid := map k | k in fields :: seq(|fields[k]|, _ => false);
      focused := None;
      progress := 0.0;
      rowKwh := seq(|rows|, _ => 0.0);
      totalKwh := 0.0;
    }

    /** The marks validating panel `k` leaves. */
    ghost function MarksAfterValidating(k: int): map<int, seq<bool>>
      requires Valid()
      reads this
    {
      if k in panels then invalid[k := BlankMarks(fields[k])] else invalid
    }

    /** The focus validating panel `k` leaves. */
    ghost function FocusAfterValidating(k: int): Option<(int, nat)>
      requires Valid()
      reads this
    {
      if k in panels && !StepComplete(fields[k]) then
        StepCompleteIffNoMarks(fields[k]);
        Some((k, FirstMarked(BlankMarks(fields[k]))))
      else
        focused
    }
  }

  class SolarCalculator {
    var currentStep: int
    const totalSteps: int
    const page: Page

    ghost predicate Valid()
      reads this, page
    {
      && page.Valid()
      && totalSteps == 4
      && 1 <= currentStep
      && (currentStep == 1 || currentStep in page.panels)
    }

    /** The page holds no panel beyond `step1`..`step4`. */
    ghost predicate StandardPanels()
      reads this, page
    {
      forall k :: k in page.panels ==> 1 <= k <= totalSteps
    }

    /** Forward navigation is possible: the current panel exists, all its
        required controls are filled and the next panel exists. */
    ghost predicate CanAdvance()
      requires Valid()
      reads this, page
    {
      currentStep in page.panels && StepComplete(page.fields[currentStep]) && currentStep + 1 in page.panels
    }

    /** Backward navigation is possible. */
    ghost predicate CanRetreat()
      reads this, page
    {
      currentStep > 1 && currentStep in page.panels && currentStep - 1 in page.panels
    }

    constructor (page: Page)
      requires page.Valid()
      ensures Valid() && this.page == page
      ensures currentStep == 1 && totalSteps == 4
      ensures StandardPanels() ==> 1 <= currentStep <= totalSteps
    {
      currentStep := 1;
      totalSteps := 4;
      this.page := page;
    }

    /** The `DOMContentLoaded` handler, as far as state goes: the progress
        bar is drawn for step 1. */
    method DomContentLoaded()
      requires Valid()
      modifies page`progress
      ensures Valid()
      ensures page.progress == if page.hasProgressBar then ProgressPercent(currentStep, totalSteps) else old(page.progress)
    {
      UpdateProgress();
    }

    method UpdateProgress()
      requires Valid()
      modifies page`progress
      ensures Valid()
      ensures page.progress == if page.hasProgressBar then ProgressPercent(currentStep, totalSteps) else old(page.progress)
    {
      if page.hasProgressBar {
        page.progress := ProgressPercent(currentStep, totalSteps);
      }
    }

    /** Checks every required control of the current panel, marking each
        blank one and clearing the mark on each filled one, and focuses the
        first blank one. Fails when the panel does not exist. */
    method ValidateCurrentStep() returns (valid: bool)
      requires Valid()
      modifies page`invalid, page`focused
      ensures Valid()
      ensures valid <==> currentStep in page.panels && StepComplete(page.fields[currentStep])
      ensures page.invalid == old(page.MarksAfterValidating(currentStep))
      ensures page.focused == old(page.FocusAfterValidating(currentStep))
    {
      if currentStep !in page.panels {
        return false;
      }
      var k := currentStep;
      var values := page.fields[k];
      // the marks of the panel's required controls, as the loop leaves them
      var marks := page.invalid[k];
      valid := true;
      var i := 0;
      while i < |values|
        invariant 0 <= i <= |values| && |marks| == |values|
        invariant forall j :: 0 <= j < i ==> marks[j] == IsBlank(values[j])
        invariant valid <==> forall j :: 0 <= j < i ==> !IsBlank(values[j])
      {
        if IsBlank(values[i]) {
          valid := false;
          marks := marks[i := true];
        } else {
          marks := marks[i := false];
        }
        i := i + 1;
      }
      assert marks == BlankMarks(values);
      page.invalid := page.invalid[k := marks];
      if !valid {
        StepCompleteIffNoMarks(values);
        page.focused := Some((k, FirstMarked(marks)));
      }
    }

    /** `nextStep`: validates, and moves one step forward when validation
        passes and the next panel exists. */
    method NextStep()
      requires Valid()
      modifies this`currentStep, page`invalid, page`focused, page`hidden, page`progress
      ensures Valid()
      ensures page.invalid == old(page.MarksAfterValidating(currentStep))
      ensures page.focused == old(page.FocusAfterValidating(currentStep))
      ensures old(CanAdvance()) ==>
        && currentStep == old(currentStep) + 1
        && page.hidden == old(page.hidden) + {old(currentStep)} - {currentStep}
        && page.progress == if page.hasProgressBar then ProgressPercent(currentStep, totalSteps) else old(page.progress)
      ensures !old(CanAdvance()) ==>
        currentStep == old(currentStep) && page.hidden == old(page.hidden) && page.progress == old(page.progress)
      ensures StandardPanels() ==> 1 <= currentStep <= totalSteps
    {
      ghost var canAdvance := CanAdvance();
      var valid := ValidateCurrentStep();
      assert canAdvance <==> valid && currentStep + 1 in page.panels;
      if valid {
        if currentStep in page.panels && currentStep + 1 in page.panels {
          page.hidden := page.hidden + {currentStep} - {currentStep + 1};
          currentStep := currentStep + 1;
          UpdateProgress();
        }
      }
    }

    /** `previousStep`: moves one step back, without validation, unless on
        step 1 or a panel is missing. */
    method PreviousStep()
      requires Valid()
      modifies this`currentStep, page`hidden, page`progress
      ensures Valid()
      ensures old(CanRetreat()) ==>
        && currentStep == old(currentStep) - 1
        && page.hidden == old(page.hidden) + {old(currentStep)} - {currentStep}
        && page.progress == if page.hasProgressBar then ProgressPercent(currentStep, totalSteps) else old(page.progress)
      ensures !old(CanRetreat()) ==>
        currentStep == old(currentStep) && page.hidden == old(page.hidden) && page.progress == old(page.progress)
      ensures StandardPanels() ==> 1 <= currentStep <= totalSteps
    {
      if currentStep > 1 {
        if currentStep in page.panels && currentStep - 1 in page.panels {
          page.hidden := page.hidden + {currentStep} - {currentStep - 1};
          currentStep := currentStep - 1;
          UpdateProgress();
        }
      }
    }

    /** `updateAppliancePower`: writes each row's daily kWh into its readout
        and their sum into the total readout. */
    method UpdateAppliancePower()
      requires Valid()
      modifies page`rowKwh, page`totalKwh
      ensures Valid()
      ensures forall i :: 0 <= i < |page.rows| ==> page.rowKwh[i] == DailyKwh(page.rows[i])
      ensures page.totalKwh == TotalDailyKwh(page.rows)
    {
      var rows := page.rows;
      var totalPower := 0.0;
      var i := 0;
      while i < |rows|
        invariant 0 <= i <= |rows| && |page.rowKwh| == |rows|
        invariant forall j :: 0 <= j < i ==> page.rowKwh[j] == DailyKwh(rows[j])
        invariant totalPower == TotalDailyKwh(rows[..i])
      {
        var watts := OrElse(rows[i].watts, 0.0);
        var hours := OrElse(rows[i].hours, 0.0);
        var quantity := OrElse(rows[i].quantity, 1.0);
        var daily := (watts * hours * quantity) / 1000.0;
        page.rowKwh := page.rowKwh[i := daily];
        TotalAppend(rows[..i], rows[i]);
        assert rows[..i + 1] == rows[..i] + [rows[i]];
        totalPower := totalPower + daily;
        i := i + 1;
      }
      assert rows[..i] == rows;
      page.totalKwh := totalPower;
    }

    /** The `change` listener of a row's appliance selector: writes the
        catalog wattage into the row and recomputes the readouts. */
    method OnApplianceChosen(i: nat, name: string)
      requires Valid() && i < |page.rows|
      modifies page`rows, page`rowKwh, page`totalKwh
      ensures Valid()
      ensures page.rows == old(page.rows)[i := ChooseAppliance(old(page.rows)[i], name)]
      ensures page.rows[i].watts == Some(CatalogWatts(name) as real)
      ensures forall j :: 0 <= j < |page.rows| ==> page.rowKwh[j] == DailyKwh(page.rows[j])
      ensures page.totalKwh == TotalDailyKwh(old(page.rows)) - DailyKwh(old(page.rows)[i]) + DailyKwh(page.rows[i])
    {
      page.rows := page.rows[i := ChooseAppliance(page.rows[i], name)];
      UpdateAppliancePower();
      TotalUpdate(old(page.rows), i, page.rows[i]);
    }

    /** The `change` listener of a row's quantity or hours input, after the
        user has entered new values there. */
    method OnRowInputChanged(i: nat, quantity: Option<real>, hours: Option<real>)
      requires Valid() && i < |page.rows|
      modifies page`rows, page`rowKwh, page`totalKwh
      ensures Valid()
      ensures page.rows == old(page.rows)[i := old(page.rows)[i].(quantity := quantity, hours := hours)]
      ensures forall j :: 0 <= j < |page.rows| ==> page.rowKwh[j] == DailyKwh(page.rows[j])
      ensures page.totalKwh == TotalDailyKwh(old(page.rows)) - DailyKwh(old(page.rows)[i]) + DailyKwh(page.rows[i])
    {
      page.rows := page.rows[i := page.rows[i].(quantity := quantity, hours := hours)];
      UpdateAppliancePower();
      TotalUpdate(old(page.rows), i, page.rows[i]);
    }

    /** The payload `calculateResults` posts: the form values with their
        `|| 0` and `|| 1` defaults and the total readout as daily energy. */
    method CollectUserData() returns (data: UserData)
      requires Valid()
      ensures data.location == page.inputs.location && data.userType == page.inputs.userType
      ensures data.budgetRange == page.inputs.budgetRange
      ensures data.dailyEnergy == page.totalKwh
      ensures data.backupDays != 0.0
      ensures data.backupDays == 1.0 <==> page.inputs.backupDays in {None, Some(0.0), Some(1.0)}
      ensures page.inputs.backupDays.Some? && page.inputs.backupDays.value != 0.0 ==>
                data.backupDays == page.inputs.backupDays.value
      ensures page.inputs.backupDays in {None, Some(0.0)} ==> data.backupDays == 1.0
      ensures page.inputs.generatorSize.None? ==> data.generatorSize == 0.0
      ensures page.inputs.generatorSize.Some? ==> data.generatorSize == page.inputs.generatorSize.value
      ensures page.inputs.generatorFuel.None? ==> data.generatorFuel == 0.0
      ensures page.inputs.generatorFuel.Some? ==> data.generatorFuel == page.inputs.generatorFuel.value
    {
      var inputs := page.inputs;
      data := UserData(
        inputs.location,
        inputs.userType,
        OrElse(inputs.generatorSize, 0.0),
        OrElse(inputs.generatorFuel, 0.0),
        OrElse(Some(page.totalKwh), 0.0),
        OrElse(inputs.backupDays, 1.0),
        inputs.budgetRange);
    }
  }

  /** `addApplianceRow`: appends a fresh row showing 0.00; the total readout
      is not recomputed, and the total the rows stand for does not change. */
  method AddApplianceRow(page: Page)
    requires page.Valid()
    modifies page`rows, page`rowKwh
    ensures page.Valid()
    ensures page.rows == old(page.rows) + [NewRow()]
    ensures page.rowKwh == old(page.rowKwh) + [0.0]
    ensures TotalDailyKwh(page.rows) == TotalDailyKwh(old(page.rows))
  {
    page.rows := page.rows + [NewRow()];
    page.rowKwh := page.rowKwh + [0.0];
    NewRowKeepsTotal(old(page.rows));
  }
}
