# Solar Generator Platform — a verified model of the sizing core

This project models the core of the Solar Generator Platform, a web tool
that helps a Nigerian household or business size a solar system to replace
its petrol or diesel generator. It covers four parts:

- **The calculator page's wizard** (`static/js/calculator.js`).
  `SolarCalculator` is a four-step form. A step counter moves forward only
  when every required control of the current step is filled, and back
  without any check. A progress bar shows the step as a percentage. An
  appliance table turns each row's wattage, quantity and hours of use into
  daily kWh, and the wizard sums them into the daily energy it posts for a
  recommendation.
  - Modules `Wizard` (classes `Page` and `SolarCalculator`) and
    `Appliances` (the appliance catalog and the row arithmetic).
  - Module `JsText`: ECMAScript white space and `String.prototype.trim`.
- **The local quote rules** (`utils/system_calculator.py`), in module
  `SystemCalculator`:
  - array size rounded up to half a kilowatt, with sun hours per location;
  - battery size by user type;
  - inverter band and panel count;
  - a cost model scaled by a location installation factor;
  - the request wrapper, which turns every exception into an error.
- **The requirement-driven design rules** (`utils/calculator.py`), in module
  `Requirements`:
  - system type and battery technology;
  - derated array and battery sizes;
  - inverter size, type and features;
  - protection components;
  - the economic analysis and the two-stage modular design.
- **The contact-form validators** (`static/js/form_validation.js`), in
  module `FormValidation`:
  - the phone check of at least eleven digits;
  - the e-mail pattern `^[^\s@]+@[^\s@]+\.[^\s@]+$`;
  - the custom-validity messages;
  - blocking submission of an invalid form.

`Common` holds shared shapes:
- `Option` and `Result`;
- `PyError` for the Python exceptions;
- `Ceil` for `math.ceil` and `Math.ceil`;
- `Max` for Python's `max`;
- `Divide` for a division whose divisor is known not to be zero.

Numbers are exact reals. Python exceptions become `Err` values of a
`Result`. A numeric input is represented by what `parseFloat` read from it,
with `None` standing for NaN.

Where the page is stateful, the model is imperative:
- `SolarCalculator.currentStep` is a field that `NextStep` and
  `PreviousStep` update.
- The page's DOM is a `Page` object whose fields are the hidden panels,
  the `is-invalid` marks, the focused control, the progress bar width, the
  appliance rows and the kWh readouts.
- `ValidateCurrentStep` and `UpdateAppliancePower` are loops. They are
  proved against the functions `BlankMarks` and `TotalDailyKwh`.

In `utils/calculator.py`, `get_inverter_size` and
`recommend_protection_components` build their result step by step. They
are methods proved equal to the specification functions `InverterFor` and
`ProtectionComponentsFor`. The pure rules of `design_modular_system` use
`InverterFor`, through `SystemFor`.

## Model

| member | source | states |
|---|---|---|
| Wizard.SolarCalculator.constructor | static/js/calculator.js:35-39 | The wizard starts on step 1 of 4; with only panels step1..step4 the step stays within 1..4 |
| Wizard.SolarCalculator.DomContentLoaded | static/js/calculator.js:43-49 | When the page loads, the progress bar is drawn for the current step |
| Wizard.SolarCalculator.UpdateProgress | static/js/calculator.js:104-111 | The bar, when present, gets currentStep/totalSteps·100; without a bar nothing changes |
| Wizard.ProgressPercent | static/js/calculator.js:107 | The percentage lies in (0, 100] for a step in range, is 100 exactly on the last step, and p·total = step·100 |
| Wizard.ProgressByStep | static/js/calculator.js:104-111 | With 4 steps the bar advances in quarters: 25 on step 1, 100 on step 4 |
| Wizard.SolarCalculator.NextStep | static/js/calculator.js:113-125 | Validation always runs and marks the fields. The step rises by exactly 1 iff the current step is complete and both panels exist, which also swaps the hidden panels and redraws the bar. Otherwise the step, panels and bar are unchanged. With only panels 1..4 the step stays in 1..4 |
| Wizard.SolarCalculator.PreviousStep | static/js/calculator.js:127-139 | Without validation, the step falls by exactly 1 iff it is above 1 and both panels exist. Otherwise it is a no-op. With only panels 1..4 the step stays in 1..4 |
| Wizard.SolarCalculator.ValidateCurrentStep | static/js/calculator.js:141-166 | Returns true iff the current panel exists and none of its required values is blank. Every blank control is marked and every filled one cleared, with all other marks kept. On failure, focus goes to the first blank control |
| Wizard.BlankIffTrimmedEmpty | static/js/calculator.js:149 | A value counts as blank exactly when `trim()` leaves it empty |
| Wizard.BlankMarks | static/js/calculator.js:148-155 | One mark per required control, set exactly on the blank ones |
| Wizard.FirstMarked | static/js/calculator.js:159-162 | The index returned is marked, and no earlier index is |
| Wizard.StepCompleteIffNoMarks | static/js/calculator.js:148-163 | A step is complete iff validation marks nothing; if it is incomplete, the first marked control is blank and all before it are filled |
| Wizard.SolarCalculator.UpdateAppliancePower | static/js/calculator.js:168-182 | Each row's readout becomes its daily kWh, and the total readout becomes their sum over all rows |
| Wizard.SolarCalculator.OnApplianceChosen | static/js/calculator.js:57-61 | Choosing an appliance sets that row's watts to the catalog wattage, changes no other row, and moves the total by exactly that row's change |
| Wizard.SolarCalculator.OnRowInputChanged | static/js/calculator.js:98-101 | Editing a row's quantity or hours recomputes all readouts; the total moves by exactly that row's change |
| Wizard.SolarCalculator.CollectUserData | static/js/calculator.js:186-194 | The posted payload carries location, user type and budget as typed, the total readout as daily energy, and generator fields defaulting to 0. Backup days are the typed value when it is non-zero, 1 when it is blank or 0, and never 0 |
| Wizard.AddApplianceRow | static/js/calculator.js:235-253 | Appends one row with no appliance, no watts, quantity 1 and no hours; its readout shows 0 and the rows' total is unchanged |
| JsText.TrimStart | static/js/calculator.js:149 | Drops only leading white space and leaves a suffix that does not start with white space |
| JsText.TrimEnd | static/js/calculator.js:149 | Drops only trailing white space and leaves a prefix that does not end with white space |
| JsText.TrimIsInnerSlice | static/js/calculator.js:149 | `trim()` returns a contiguous slice with only white space around it |
| JsText.TrimHasNoOuterSpace | static/js/calculator.js:149 | What `trim()` returns neither starts nor ends with white space |
| JsText.TrimEmptyIffAllSpace | static/js/calculator.js:149 | `trim()` gives "" exactly for empty or all-white-space strings |
| Appliances.CatalogWatts | static/js/calculator.js:8-32 | `APPLIANCES[name] \|\| 0`: positive exactly for catalog names, where it is the listed wattage, and 0 otherwise |
| Appliances.DailyKwhDefaults | static/js/calculator.js:173-176 | Blank watts or hours give a row 0 kWh. A blank or zero quantity counts as 1. With all three present, the row uses w·h·q/1000 |
| Appliances.TotalAppend | static/js/calculator.js:169-178 | Accumulating row by row, as the forEach loop does, gives the recursive total |
| Appliances.TotalUpdate | static/js/calculator.js:168-182 | Replacing one row changes the total by exactly that row's difference |
| Appliances.TotalNonNegative | static/js/calculator.js:168-182 | Rows without negative inputs never give a negative total |
| Appliances.NewRow | static/js/calculator.js:239-252 | The new row has no appliance, no watts, quantity 1 and no hours, and uses 0 kWh |
| Appliances.NewRowKeepsTotal | static/js/calculator.js:235-253 | Appending a new row leaves the total unchanged |
| Appliances.ChooseAppliance | static/js/calculator.js:257-260 | Selecting writes the catalog wattage and keeps quantity and hours; the row's kWh follows the new wattage |
| Appliances.SmallRefrigeratorExample | static/js/calculator.js:18 | One small refrigerator running 8 hours uses 1.2 kWh a day |
| SystemCalculator.SunHoursAt | utils/system_calculator.py:46 | Sun hours lie between 5.0 and 6.5: the table value for listed keys and the "default" entry otherwise |
| SystemCalculator.CostsAt | utils/system_calculator.py:105 | Cost per watt lies in 350..390 and the installation factor in 1.0..1.2: the table entry, or "default" |
| SystemCalculator.UnlistedLocationUsesDefaults | utils/system_calculator.py:13-14 | An unlisted location gets 5.5 sun hours, 365 NGN/W and factor 1.1 |
| SystemCalculator.GetSystemSize | utils/system_calculator.py:43-55 | The size is ≥ 1 kW and a whole number of half kilowatts. It never undersizes (≥ 1.2·daily/sun hours), and above the floor it is within 0.5 kW of that |
| SystemCalculator.GetSystemSizeIsLeast | utils/system_calculator.py:51-55 | No smaller half-kW multiple of at least 1 kW covers the requirement |
| SystemCalculator.GetBatterySize | utils/system_calculator.py:57-73 | The least integer not below 1.3·(daily·(days−1) + daily·night factor) |
| SystemCalculator.OneDayBatteryByUserType | utils/system_calculator.py:57-73 | With one backup day a household needs ⌈0.65·daily⌉ and any other type ⌈0.39·daily⌉; a business never needs more than a household |
| SystemCalculator.GetInverterSize | utils/system_calculator.py:75-86 | Always a key of INVERTER_COSTS; each band is chosen exactly on its interval, upper bounds 3/5/10/15 inclusive |
| SystemCalculator.InverterSizeMonotone | utils/system_calculator.py:23-29 | A larger array never gets a lower or cheaper band |
| SystemCalculator.CalculatePanelCount | utils/system_calculator.py:88-94 | A panel rating of 0 divides by zero. For a positive rating, n is the least count with n·watts ≥ size·1000 |
| SystemCalculator.CeilScales | utils/system_calculator.py:93 | ⌈x/d⌉·d ≥ x > (⌈x/d⌉−1)·d for d > 0 |
| SystemCalculator.InstalledTotal | utils/system_calculator.py:115-118 | Adding the installation share scales the component sum by the installation factor |
| SystemCalculator.BatteryUnits | utils/system_calculator.py:141 | The fewest 5 kWh units that hold the battery size |
| SystemCalculator.CalculateSystemCost | utils/system_calculator.py:96-126 | An unknown battery type fails with KeyError, and zero daily energy with ZeroDivisionError. Otherwise the quote is for the requested battery type and satisfies every sizing and pricing rule |
| SystemCalculator.Quote | utils/system_calculator.py:99-102 | The quote records the location, backup days, user type and battery type it was asked for. Its sizes are those of the sizing rules, and its panels cover the array with the fewest 400 W panels |
| SystemCalculator.Priced | utils/system_calculator.py:105-126 | installation = (panel + battery + inverter)·(factor − 1) and total = (panel + battery + inverter)·factor. Savings are 5250 NGN per daily kWh each month. payback·yearly savings = total. Area is 2 m² per panel |
| SystemCalculator.PyFloatOf | utils/system_calculator.py:265 | `float()` on the posted value: a float passes through, an int becomes its value, True and False become 1.0 and 0.0, a string gives its parsed value or raises ValueError, and None, a list or a dict raise TypeError |
| SystemCalculator.GetSystemRecommendations | utils/system_calculator.py:258-282 | Succeeds iff the three keys are present, the daily energy converts to a non-zero number and the location is hashable; a success is a one-day lithium-ion quote for the posted values. Otherwise the first failure in evaluation order comes back: KeyError for "daily_energy", the `float()` error, KeyError for "location", KeyError for "user_type", TypeError for a list or dict location, ZeroDivisionError for zero energy |
| SystemCalculator.ZeroEnergyRequestFails | utils/system_calculator.py:258-282 | A request with daily energy "0" comes back as ZeroDivisionError |
| SystemCalculator.NonNumericEnergyRequestFails | utils/system_calculator.py:258-282 | A request with daily energy "abc" comes back as ValueError |
| SystemCalculator.ParseDigitString | utils/system_calculator.py:265 | `float()` of a signed digit string with surrounding ASCII white space is the digits' value, negated for "-" |
| SystemCalculator.ParseDecimalString | utils/system_calculator.py:265 | `float()` of a signed decimal numeral "w.f" (either part may be empty, not both) with surrounding ASCII white space is w + f/10^len(f), negated for "-" |
| Requirements.DetermineSystemType | utils/calculator.py:17-26 | Portable iff dual use. Otherwise full solar iff grid < 8, hybrid iff 8 ≤ grid ≤ 16, and backup-only iff grid > 16 |
| Requirements.RecommendBatteryTechnology | utils/calculator.py:28-53 | Lead-acid (DoD 0.5, 3 years) iff temp ≤ 35, grid ≥ 16, and a non-zero budget under 1,000,000 is given; otherwise lithium (DoD 0.8, 10 years). Lead-acid gives the budget reason; lithium gives the heat, grid-reliability or default reason as the source's branches do. The depth of discharge is always positive |
| Requirements.ZeroBudgetIsNoBudget | utils/calculator.py:40 | A budget of 0 is treated like no budget |
| Requirements.DeratingAbove | utils/calculator.py:61 | max(0, (T − threshold)·rate): never negative; 0 at or below the threshold and linear above it |
| Requirements.GetSystemSize | utils/calculator.py:55-82 | Temperature derating ≥ 0, and total derating = 1.1 + temperature derating. Capacity ≥ 0.2 kW and 4·capacity covers 1.2·daily·derating. The floor of 0.2 kW is reached iff 1.2·daily·derating ≤ 0. Above the floor, 4·capacity is the next whole kWh |
| Requirements.GetBatterySize | utils/calculator.py:84-107 | A DoD of 0 divides by zero. Otherwise capacity ≥ 0.5 kWh and ≥ the storage need, and equals one of the two |
| Requirements.StorageNeedRecoversBackup | utils/calculator.py:87-96 | need·DoD = daily·hours/24·(1 + heat derating) |
| Requirements.RecommendedBatteryIsSized | utils/calculator.py:84-96 | The recommended technology never makes battery sizing fail |
| Requirements.InverterFor | utils/calculator.py:109-137 | Size is 1.2·peak, or 3.6·peak with motor loads. Features start with surge protection and include stabilisation and grid interaction iff voltage issues, in that order right after it. Type is micro iff size < 1, hybrid iff size ≥ 1 and grid < 24, standard otherwise |
| Requirements.GetInverterSize | utils/calculator.py:109-137 | The step-by-step construction returns exactly InverterFor |
| Requirements.InverterGrowsWithPeak | utils/calculator.py:111-118 | A higher peak load with the same motor loads never gets a smaller inverter |
| Requirements.ComponentOf | utils/calculator.py:141-173 | Each kind's fixed entry; priority is high exactly for cage, surge protector and stabiliser |
| Requirements.ProtectionComponentsFor | utils/calculator.py:139-175 | Starts with cage and surge protector; has 2 entries, plus 1 with voltage issues and 2 more above a 5 kW peak; every entry is its kind's fixed entry |
| Requirements.ProtectionMembership | utils/calculator.py:154-173 | A stabiliser is listed iff there are voltage issues, and a GPS tracker and a motion sensor iff the peak exceeds 5 kW |
| Requirements.ProtectionOrder | utils/calculator.py:139-175 | Kinds appear at most once, in the fixed order cage, surge protector, stabiliser, tracker, motion sensor |
| Requirements.RecommendProtectionComponents | utils/calculator.py:139-175 | The appending construction returns exactly ProtectionComponentsFor |
| Requirements.PerformEconomicAnalysis | utils/calculator.py:177-217 | ZeroDivisionError iff daily energy is 0. Otherwise the component costs follow the fixed rates and the initial cost is their sum. Monthly savings are 6000·daily, and payback·savings = initial cost |
| Requirements.LithiumCostedAtLeadAcidRate | utils/calculator.py:192-195 | A mild site with short grid hours is recommended lithium yet costed at the lead-acid rate |
| Requirements.CriticalLoadRequirements | utils/calculator.py:222-233 | Daily energy and peak load are scaled by 0.6; every other field is unchanged |
| Requirements.SystemFor | utils/calculator.py:236-247 | The array, battery and inverter the rules give, with the battery sized for the recommended technology |
| Requirements.DesignModularSystem | utils/calculator.py:219-265 | The initial system is sized for the critical loads and the final system for the full requirements. Stages 1 and 2 carry those two systems |
| Requirements.StagesShareTechnology | utils/calculator.py:238-245 | Both stages get the same battery technology |
| Requirements.ModularStagesGrow | utils/calculator.py:219-247 | For non-negative loads and backup hours, the first stage's array, battery and inverter are each no larger than the final stage's |
| Requirements.SolarGrowsWithEnergy | utils/calculator.py:55-73 | At the same temperature, more daily energy never gives a smaller array |
| Requirements.BatteryGrowsWithEnergy | utils/calculator.py:84-99 | At the same temperature and backup hours, more daily energy never gives a smaller battery |
| FormValidation.StripNonDigits | static/js/form_validation.js:27 | Keeps only decimal digits and is never longer than the input |
| FormValidation.StripConcat | static/js/form_validation.js:27 | Stripping a concatenation strips each part |
| FormValidation.StripCountsDigits | static/js/form_validation.js:27-28 | The stripped length equals the number of digit positions |
| FormValidation.StripDigitsOnly | static/js/form_validation.js:27 | A string of digits strips to itself |
| FormValidation.PhoneValidIffElevenDigits | static/js/form_validation.js:27-28 | A phone number is valid iff it holds at least 11 decimal digits |
| FormValidation.NonDigitInsertionKeepsPhoneValidity | static/js/form_validation.js:27-28 | Inserting a non-digit anywhere never changes validity |
| FormValidation.EmptyPhoneInvalid | static/js/form_validation.js:27-28 | The empty number is invalid |
| FormValidation.PhoneExamples | static/js/form_validation.js:26-32 | 08031234567 and "0803 1234567" are valid |
| FormValidation.ShortPhoneExample | static/js/form_validation.js:26-32 | The ten-digit 0803123456 is invalid |
| FormValidation.PhoneValidityMessage | static/js/form_validation.js:26-32 | The message is "" exactly when the number is valid, and the fixed phone message otherwise |
| FormValidation.EmailValidIffPattern | static/js/form_validation.js:42-43 | The structural check holds exactly when the address matches the pattern |
| FormValidation.PatternImpliesValid | static/js/form_validation.js:42-43 | Every match passes the structural check |
| FormValidation.ValidImpliesPattern | static/js/form_validation.js:42-43 | Every address passing the structural check matches |
| FormValidation.EmailRejections | static/js/form_validation.js:42-43 | No `@`, two `@`, or any white space is rejected |
| FormValidation.EmailExamples | static/js/form_validation.js:42-43 | a@b.ng is accepted; a@bng, @b.ng and a@.ng are rejected |
| FormValidation.EmailValidityMessage | static/js/form_validation.js:40-47 | The message is "" exactly when the address matches the pattern, and the fixed e-mail message otherwise |
| FormValidation.OnSubmit | static/js/form_validation.js:10-16 | Default is prevented and propagation stopped iff the form is invalid. `was-validated` is added either way, and no other class |
| FormValidation.BadContactBlocksSubmit | static/js/form_validation.js:10-16 | Once each field's input listener has run on its current value, a short phone number or malformed address blocks submission of its form |

## Left out

- Display formatting is not modelled. This covers `toFixed(2)` on the row and total readouts (static/js/calculator.js:177, 181), `f"{x:,.2f}"` and the other string building of `calculate_system_cost`, and the whole of `get_html_recommendations` (utils/system_calculator.py:128-256). Numeric fields of the quote stand for the dictionary those strings are built from.
- Wizard.SolarCalculator.CollectUserData: the daily energy is the exact total. The page posts `parseFloat` of the total's two-decimal rendering.
- IEEE-754 rounding: all arithmetic is on exact reals.
- The `parseFloat` grammar is not modelled: each numeric control is given as what `parseFloat` reads, with None for NaN.
- SystemCalculator.PyFloatOf: Python's `float()` is modelled only for decimal numerals with optional sign and surrounding ASCII white space. It does not accept exponents, `inf`, `nan`, underscores or non-ASCII digits, so such strings give a ValueError here.
- SystemCalculator.GetSystemRecommendations: it returns the quote instead of its HTML. It assumes `get_html_recommendations` raises nothing. A hashable location or a user type that is not a string is treated as the empty string, which matches no table key and is not "household", as in the source.
- `fetch`, `alert`, `innerHTML` and the button spinner of `calculateResults` (static/js/calculator.js:196-227) are I/O with the server and browser.
- Event wiring is not modelled as such (`initializeEventListeners`, `setupStepNavigation`, `setupCalculationTriggers`, `setupApplianceListeners`, `initializeApplianceDropdowns`, and the listeners registered in `addApplianceRow` and `FormValidator`). The handlers are modelled as methods and functions that take the event's effect as arguments.
- The listener that copies the location into the sun-hours field (static/js/calculator.js:270-272) is a one-line DOM copy with no logic.
- The page template is not part of this model. A step's required controls are given as a list of values per panel, and the appliance rows are a separate list. Whether a row's required inputs also count toward a step's validation depends on the template.
- FormValidation.BadContactBlocksSubmit: the custom-validity messages are set only by the input listeners, so a control nobody has typed into keeps an empty message and does not block submission through this check.
- SystemCalculator.GetSystemRecommendations: the request body is assumed to be a JSON object. For a list, string, number or null body, `user_data['daily_energy']` would raise TypeError, which the wrapper would return as an error.
- `str(e)` texts of Python exceptions: an error keeps its class and, for KeyError and ValueError, the key or the text.
- `FormValidation.FormValid`: only the custom-validity constraints set here are modelled. Every other constraint the browser checks in `checkValidity()` is one boolean.
