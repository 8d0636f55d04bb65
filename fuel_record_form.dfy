/**
 * The plain refuelling form: the user types price per liter, liters, station and place;
 * submitting builds a record whose total is price times liters.
 */
module FuelRecordForm {
  import opened JsRuntime
  import opened FuelTypes
  import NewRecordModal

  datatype FormField = PriceField | LitersField | StationField | LocationField

  datatype RecordForm = RecordForm(pricePerLiter: string, liters: string, gasStation: string, location: string)

  /** `handleInputChange`: the named field takes the typed value. */
  function WithField(f: RecordForm, name: FormField, value: string): (g: RecordForm)
    ensures name == PriceField ==> g == f.(pricePerLiter := value)
    ensures name == LitersField ==> g == f.(liters := value)
    ensures name == StationField ==> g == f.(gasStation := value)
    ensures name == LocationField ==> g == f.(location := value)
  {
    match name
    case PriceField => f.(pricePerLiter := value)
    case LitersField => f.(liters := value)
    case StationField => f.(gasStation := value)
    case LocationField => f.(location := value)
  }

  /**
   * The record `handleSubmit` builds: liters and price are the fields read as numbers,
   * the total is their product (not finite when either field is not a number), and the
   * texts are copied.
   */
  function FormRecord(f: RecordForm, now: int): (d: RecordDraft)
    ensures d.liters == ToNumber(f.liters) && d.pricePerLiter == ToNumber(f.pricePerLiter)
    ensures d.totalCost.Finite? <==> d.liters.Finite? && d.pricePerLiter.Finite?
    ensures d.totalCost == Mul(d.pricePerLiter, d.liters)
    ensures d.gasStation == f.gasStation && d.location == f.location && d.date == now
  {
    var liters := ToNumber(f.liters);
    var price := ToNumber(f.pricePerLiter);
    RecordDraft(now, liters, price, Mul(price, liters), f.gasStation, f.location)
  }

  /**
   * Before rounding, the form's total-from-liters rule undoes the dialog's
   * liters-from-total rule, and the other way round.
   */
  lemma {:induction false} TotalAndLitersAreInverse(price: real, total: real, liters: real)
    requires price > 0.0
    ensures Mul(Finite(price), Div(Finite(total), Finite(price))) == Finite(total)
    ensures Div(Mul(Finite(price), Finite(liters)), Finite(price)) == Finite(liters)
  {
    assert price * (total / price) == total;
    assert (price * liters) / price == liters;
  }

  /**
   * The dialog's liters rule (amount / price to one decimal) and this form's total rule
   * (price times liters) agree up to rounding: the total rebuilt from the rounded liters is
   * within 0.05 liters' worth of the amount paid.
   */
  lemma {:induction false} RoundedLitersReproduceTotal(price: real, total: real)
    requires price > 0.0 && total > 0.0
    ensures var liters := NewRecordModal.LitersFor(Finite(price), Finite(total));
            total - 0.05 * price <= price * liters <= total + 0.05 * price
  {
    var liters := NewRecordModal.LitersFor(Finite(price), Finite(total));
    LitersWithinTolerance(price, total, liters);
  }

  lemma LitersWithinTolerance(p: real, t: real, l: real)
    requires p > 0.0 && t / p - 0.05 <= l <= t / p + 0.05
    ensures t - 0.05 * p <= p * l <= t + 0.05 * p
  {
    var e := t / p;
    assert p * e == t;
    MulNonNegative(p, l - (e - 0.05));
    MulNonNegative(p, (e + 0.05) - l);
    assert p * ((e + 0.05) - l) == p * e + 0.05 * p - p * l;
    assert p * (l - (e - 0.05)) == p * l - p * e + 0.05 * p;
  }

  lemma MulNonNegative(a: real, b: real)
    requires a >= 0.0 && b >= 0.0
    ensures a * b >= 0.0
  {
  }

  class FuelRecordForm {
    var pricePerLiter: string
    var liters: string
    var gasStation: string
    var location: string

    function Form(): RecordForm
      reads this
    {
      RecordForm(pricePerLiter, liters, gasStation, location)
    }

    constructor ()
      ensures Form() == RecordForm("", "", "", "")
    {
      pricePerLiter, liters, gasStation, location := "", "", "", "";
    }

    method HandleInputChange(name: FormField, value: string)
      modifies this
      ensures Form() == WithField(old(Form()), name, value)
    {
      match name {
        case PriceField => pricePerLiter := value;
        case LitersField => liters := value;
        case StationField => gasStation := value;
        case LocationField => location := value;
      }
    }

    /**
     * `handleSubmit`: all four inputs are `required` and the form does not turn off
     * the browser's validation, so submitting is reached only with every field
     * non-empty (a number input holding non-numeric text reports "" and blocks it
     * too). `onSubmit` then receives exactly one record built from the current
     * fields, whose station and place are non-empty; the form is left as it is.
     */
    method HandleSubmit(now: int) returns (submitted: seq<RecordDraft>)
      requires pricePerLiter != "" && liters != "" && gasStation != "" && location != ""
      ensures submitted == [FormRecord(Form(), now)]
      ensures submitted[0].gasStation != "" && submitted[0].location != ""
    {
      var totalCost := Mul(ToNumber(pricePerLiter), ToNumber(liters));
      var record := RecordDraft(now, ToNumber(liters), ToNumber(pricePerLiter), totalCost, gasStation, location);
      submitted := [record];
    }
  }
}
