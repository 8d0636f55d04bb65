/**
 * The dialog that creates or edits a vehicle: a form seeded from the vehicle being edited
 * (or from defaults), edited one field at a time, and a save button that refuses to go on
 * while brand, model or plate is empty.
 */
module VehicleFormDialog {
  import opened JsRuntime
  import opened VehicleTypes

  datatype FormConsumption = FormConsumption(city: Number, highway: Number, mixed: Number)

  /** `formData`: the vehicle without its id and owner, with every field filled in. */
  datatype VehicleForm = VehicleForm(
    model: string,
    brand: string,
    year: Number,
    plate: string,
    isDefault: bool,
    transmission: string,
    fuelType: string,
    engineSize: real,
    consumption: FormConsumption,
    createdAt: int,
    updatedAt: int)

  const RequiredFieldsMessage: string := "Por favor completa todos los campos requeridos"

  datatype Figure = City | Highway | Mixed

  function FigureOf(c: Consumption, which: Figure): Option<real> {
    match which
    case City => c.city
    case Highway => c.highway
    case Mixed => c.mixed
  }

  function FormFigure(c: FormConsumption, which: Figure): Number {
    match which
    case City => c.city
    case Highway => c.highway
    case Mixed => c.mixed
  }

  /** `initialData?.consumption?.<figure> || 0` for one of the three consumption figures. */
  function FigureOrZero(c: Option<Consumption>, which: Figure): (r: Number)
    ensures c.None? ==> r == Finite(0.0)
    ensures c.Some? ==> r == Finite(OrReal(FigureOf(c.value, which), 0.0))
  {
    if c.None? then Finite(0.0) else Finite(OrReal(FigureOf(c.value, which), 0.0))
  }

  /**
   * The form's first state: each field is the edited vehicle's value when that is truthy,
   * otherwise '' for texts, the current year, false, or 0; each consumption figure falls
   * back to 0 on its own; both timestamps are the moment the dialog was built.
   */
  function InitialForm(initial: Option<Vehicle>, currentYear: int, now: int): (f: VehicleForm)
    ensures initial.None? ==>
              f == VehicleForm("", "", Finite(currentYear as real), "", false, "", "", 0.0,
                               FormConsumption(Finite(0.0), Finite(0.0), Finite(0.0)), now, now)
    ensures initial.Some? ==>
              var v := initial.value;
              && f.model == OrText(v.model, "") && f.brand == OrText(v.brand, "")
              && f.plate == OrText(v.plate, "")
              && f.year == Finite((if v.year.Some? && v.year.value != 0 then v.year.value else currentYear) as real)
              && f.isDefault == (v.isDefault == Some(true))
              && f.transmission == OrText(v.transmission, "") && f.fuelType == OrText(v.fuelType, "")
              && f.engineSize == OrReal(v.engineSize, 0.0)
              && f.consumption.city == FigureOrZero(v.consumption, City)
              && f.consumption.highway == FigureOrZero(v.consumption, Highway)
              && f.consumption.mixed == FigureOrZero(v.consumption, Mixed)
              && f.createdAt == now && f.updatedAt == now
  {
    match initial
    case None =>
      VehicleForm("", "", Finite(currentYear as real), "", false, "", "", 0.0,
                  FormConsumption(Finite(0.0), Finite(0.0), Finite(0.0)), now, now)
    case Some(v) =>
      var year := if v.year.Some? && v.year.value != 0 then v.year.value else currentYear;
      VehicleForm(OrText(v.model, ""), OrText(v.brand, ""), Finite(year as real), OrText(v.plate, ""),
                  OrFalse(v.isDefault), OrText(v.transmission, ""), OrText(v.fuelType, ""),
                  OrReal(v.engineSize, 0.0),
                  FormConsumption(FigureOrZero(v.consumption, City),
                                  FigureOrZero(v.consumption, Highway),
                                  FigureOrZero(v.consumption, Mixed)),
                  now, now)
  }

  /**
   * Each consumption figure falls back to 0 on its own: it shows as 0 exactly when that
   * figure itself is missing or 0, whatever the other two are, and shows its own value otherwise.
   */
  lemma {:induction false} ConsumptionDefaultsIndependent(v: Vehicle, which: Figure, currentYear: int, now: int)
    requires v.consumption.Some?
    ensures var shown := FormFigure(InitialForm(Some(v), currentYear, now).consumption, which);
            var own := FigureOf(v.consumption.value, which);
            && (shown == Finite(0.0) <==> own.None? || own.value == 0.0)
            && (own.Some? ==> shown == Finite(own.value))
  {
  }

  /** The brand, the model and the plate must all be filled in before saving. */
  predicate MissingRequired(f: VehicleForm) {
    f.model == "" || f.brand == "" || f.plate == ""
  }

  /** What saving does, in order: an error notice, or `onSubmit(formData)` then `onClose`. */
  datatype DialogEvent = Notice(message: string) | Submitted(form: VehicleForm) | Closed

  /** A fresh dialog (nothing to edit) can never be saved as it is. */
  lemma {:induction false} NewDialogNeedsInput(currentYear: int, now: int)
    ensures MissingRequired(InitialForm(None, currentYear, now))
  {
  }

  /**
   * Typing into one of the dialog's inputs. The dialog renders inputs for the brand, the
   * model, the year and the three consumption figures; `PlateTyped` is the input it lacks.
   */
  datatype FieldInput =
    | BrandTyped(text: string)
    | ModelTyped(text: string)
    | YearTyped(text: string)
    | CityTyped(text: string)
    | HighwayTyped(text: string)
    | MixedTyped(text: string)
    | PlateTyped(text: string)

  /** The dialog has an input for this field. */
  predicate Rendered(i: FieldInput) {
    !i.PlateTyped?
  }

  /** One `onChange`: the field typed into takes the text, read as a number for the numeric ones. */
  function ApplyInput(f: VehicleForm, i: FieldInput): (g: VehicleForm)
    ensures i.BrandTyped? ==> g == f.(brand := i.text)
    ensures i.ModelTyped? ==> g == f.(model := i.text)
    ensures i.YearTyped? ==> g == f.(year := ToNumber(i.text))
    ensures i.CityTyped? ==> g == f.(consumption := f.consumption.(city := ToNumber(i.text)))
    ensures i.HighwayTyped? ==> g == f.(consumption := f.consumption.(highway := ToNumber(i.text)))
    ensures i.MixedTyped? ==> g == f.(consumption := f.consumption.(mixed := ToNumber(i.text)))
    ensures i.PlateTyped? ==> g == f.(plate := i.text)
  {
    match i
    case BrandTyped(t) => f.(brand := t)
    case ModelTyped(t) => f.(model := t)
    case YearTyped(t) => f.(year := ToNumber(t))
    case CityTyped(t) => f.(consumption := f.consumption.(city := ToNumber(t)))
    case HighwayTyped(t) => f.(consumption := f.consumption.(highway := ToNumber(t)))
    case MixedTyped(t) => f.(consumption := f.consumption.(mixed := ToNumber(t)))
    case PlateTyped(t) => f.(plate := t)
  }

  /** Several inputs, in the order they were typed. */
  function ApplyInputs(f: VehicleForm, inputs: seq<FieldInput>): VehicleForm
    decreases |inputs|
  {
    if inputs == [] then f else ApplyInputs(ApplyInput(f, inputs[0]), inputs[1..])
  }

  /** Whatever is typed into the inputs the dialog renders, the plate keeps its value. */
  lemma {:induction false} RenderedInputsKeepPlate(f: VehicleForm, inputs: seq<FieldInput>)
    requires forall k :: 0 <= k < |inputs| ==> Rendered(inputs[k])
    ensures ApplyInputs(f, inputs).plate == f.plate
    decreases |inputs|
  {
    if inputs != [] {
      RenderedInputsKeepPlate(ApplyInput(f, inputs[0]), inputs[1..]);
    }
  }

  /**
   * The plate is required but has no input: a dialog seeded with no vehicle can never be
   * saved, whatever is typed into it.
   */
  lemma {:induction false} NewVehicleNeverSaves(currentYear: int, now: int, inputs: seq<FieldInput>)
    requires forall k :: 0 <= k < |inputs| ==> Rendered(inputs[k])
    ensures ApplyInputs(InitialForm(None, currentYear, now), inputs).plate == ""
    ensures MissingRequired(ApplyInputs(InitialForm(None, currentYear, now), inputs))
  {
    RenderedInputsKeepPlate(InitialForm(None, currentYear, now), inputs);
  }

  /**
   * With a plate input, typing a brand, a model and a plate into a new dialog makes it
   * saveable, and the form then holds exactly what was typed.
   */
  lemma {:induction false} PlateInputMakesNewVehicleSaveable(currentYear: int, now: int,
                                                             brand: string, model: string, plate: string)
    requires brand != "" && model != "" && plate != ""
    ensures var f := ApplyInputs(InitialForm(None, currentYear, now),
                                 [BrandTyped(brand), ModelTyped(model), PlateTyped(plate)]);
            && f.brand == brand && f.model == model && f.plate == plate
            && !MissingRequired(f)
  {
    var f0 := InitialForm(None, currentYear, now);
    var inputs := [BrandTyped(brand), ModelTyped(model), PlateTyped(plate)];
    var f1 := ApplyInput(f0, BrandTyped(brand));
    var f2 := ApplyInput(f1, ModelTyped(model));
    var f3 := ApplyInput(f2, PlateTyped(plate));
    assert ApplyInputs(f2, [PlateTyped(plate)]) == ApplyInputs(f3, []) == f3;
    assert inputs[1..] == [ModelTyped(model), PlateTyped(plate)];
    assert [ModelTyped(model), PlateTyped(plate)][1..] == [PlateTyped(plate)];
    assert ApplyInputs(f1, [ModelTyped(model), PlateTyped(plate)]) == f3;
    assert ApplyInputs(f0, inputs) == f3;
  }

  class VehicleFormDialog {
    var formData: VehicleForm

    /** The form is seeded here, when the dialog is mounted, and at no other time. */
    constructor (initial: Option<Vehicle>, currentYear: int, now: int)
      ensures formData == InitialForm(initial, currentYear, now)
    {
      formData := InitialForm(initial, currentYear, now);
    }

    method SetBrand(value: string)
      modifies this
      ensures formData == ApplyInput(old(formData), BrandTyped(value))
    {
      formData := formData.(brand := value);
    }

    method SetModel(value: string)
      modifies this
      ensures formData == ApplyInput(old(formData), ModelTyped(value))
    {
      formData := formData.(model := value);
    }

    /** The year box: `Number` of what was typed. */
    method SetYear(typed: string)
      modifies this
      ensures formData == ApplyInput(old(formData), YearTyped(typed))
    {
      formData := formData.(year := ToNumber(typed));
    }

    /** The city figure changes; the other two figures and every other field stay as they were. */
    method SetCity(typed: string)
      modifies this
      ensures formData == ApplyInput(old(formData), CityTyped(typed))
    {
      formData := formData.(consumption := formData.consumption.(city := ToNumber(typed)));
    }

    method SetHighway(typed: string)
      modifies this
      ensures formData == ApplyInput(old(formData), HighwayTyped(typed))
    {
      formData := formData.(consumption := formData.consumption.(highway := ToNumber(typed)));
    }

    method SetMixed(typed: string)
      modifies this
      ensures formData == ApplyInput(old(formData), MixedTyped(typed))
    {
      formData := formData.(consumption := formData.consumption.(mixed := ToNumber(typed)));
    }

    /**
     * `handleSubmit`: with brand, model or plate empty only the error notice is raised;
     * otherwise the form goes to `onSubmit` and then `onClose` is called. The form itself
     * is not changed.
     */
    method HandleSubmit() returns (events: seq<DialogEvent>)
      ensures MissingRequired(formData) <==> events == [Notice(RequiredFieldsMessage)]
      ensures !MissingRequired(formData) <==> events == [Submitted(formData), Closed]
    {
      if formData.model == "" || formData.brand == "" || formData.plate == "" {
        events := [Notice(RequiredFieldsMessage)];
      } else {
        events := [Submitted(formData), Closed];
      }
    }
  }
}
