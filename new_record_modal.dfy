/**
 * The "new refuelling" dialog: the user types the price per liter, the amount paid,
 * the station and the place; the liters are derived from amount and price, and saving
 * hands the record to the caller, closes the dialog and clears the form.
 */
module NewRecordModal {
  import opened JsRuntime
  import opened FuelTypes

  datatype ModalField = PricePerLiterField | TotalAmountField | GasStationField | LocationField

  /** The four text fields, as typed. */
  datatype ModalForm = ModalForm(pricePerLiter: string, totalAmount: string, gasStation: string, location: string)

  const EmptyModalForm: ModalForm := ModalForm("", "", "", "")

  /** `handleInputChange`: the named field takes the typed value. */
  function WithField(f: ModalForm, name: ModalField, value: string): (g: ModalForm)
    ensures name == PricePerLiterField ==> g == f.(pricePerLiter := value)
    ensures name == TotalAmountField ==> g == f.(totalAmount := value)
    ensures name == GasStationField ==> g == f.(gasStation := value)
    ensures name == LocationField ==> g == f.(location := value)
  {
    match name
    case PricePerLiterField => f.(pricePerLiter := value)
    case TotalAmountField => f.(totalAmount := value)
    case GasStationField => f.(gasStation := value)
    case LocationField => f.(location := value)
  }

  /** `showTotal`: both the price and the amount read as positive numbers. */
  predicate ShowTotal(f: ModalForm) {
    IsPositive(ToNumber(f.pricePerLiter)) && IsPositive(ToNumber(f.totalAmount))
  }

  /**
   * The liters effect on the parsed fields: with a positive price and amount, amount / price
   * to one decimal; otherwise 0.
   */
  function LitersFor(price: Number, total: Number): (liters: real)
    ensures liters >= 0.0
    ensures !(IsPositive(price) && IsPositive(total)) ==> liters == 0.0
    ensures IsPositive(price) && IsPositive(total) ==>
      total.val / price.val - 0.05 <= liters <= total.val / price.val + 0.05
  {
    if IsPositive(price) && IsPositive(total) then
      assert Pow10(1) == 10;
      RoundTo(total.val / price.val, 1)
    else 0.0
  }

  /** `calculatedLiters` for the form as typed: never negative, and 0 unless the summary shows. */
  function CalculatedLiters(f: ModalForm): (liters: real)
    ensures liters >= 0.0
    ensures !ShowTotal(f) ==> liters == 0.0
  {
    LitersFor(ToNumber(f.pricePerLiter), ToNumber(f.totalAmount))
  }

  /** The save button's `disabled` condition: some field is still empty. */
  predicate SaveDisabled(f: ModalForm) {
    f.pricePerLiter == "" || f.totalAmount == "" || f.gasStation == "" || f.location == ""
  }

  /** The record `handleSubmit` builds: numbers read from the fields, liters as derived, texts verbatim. */
  function ModalRecord(f: ModalForm, liters: real, now: int): (d: RecordDraft)
    ensures d.pricePerLiter == ToNumber(f.pricePerLiter) && d.totalCost == ToNumber(f.totalAmount)
    ensures d.liters == Finite(liters)
    ensures d.gasStation == f.gasStation && d.location == f.location && d.date == now
  {
    RecordDraft(now, Finite(liters), ToNumber(f.pricePerLiter), ToNumber(f.totalAmount), f.gasStation, f.location)
  }

  /** The summary panel only appears once price and amount are typed, and positive liters only with it. */
  lemma {:induction false} SummaryNeedsPriceAndAmount(f: ModalForm)
    ensures ShowTotal(f) ==> f.pricePerLiter != "" && f.totalAmount != ""
    ensures CalculatedLiters(f) > 0.0 ==> ShowTotal(f)
  {
  }

  /** A cleared form has the save button disabled, no summary and no liters. */
  lemma {:induction false} ClearedFormIsInert()
    ensures SaveDisabled(EmptyModalForm) && !ShowTotal(EmptyModalForm) && CalculatedLiters(EmptyModalForm) == 0.0
  {
  }

  /** The callbacks the dialog invokes, in order. */
  datatype ModalEvent = Submitted(record: RecordDraft) | Closed

  class NewRecordModal {
    var pricePerLiter: string
    var totalAmount: string
    var gasStation: string
    var location: string
    var calculatedLiters: real

    function Form(): ModalForm
      reads this
    {
      ModalForm(pricePerLiter, totalAmount, gasStation, location)
    }

    /** The effect keeps the liters in step with the price and amount fields. */
    ghost predicate Valid()
      reads this
    {
      calculatedLiters == CalculatedLiters(Form())
    }

    constructor ()
      ensures Valid() && Form() == EmptyModalForm && calculatedLiters == 0.0
    {
      pricePerLiter, totalAmount, gasStation, location := "", "", "", "";
      calculatedLiters := 0.0;
    }

    /** The liters effect, run after the price or the amount changed. */
    method RecomputeLiters()
      modifies this`calculatedLiters
      ensures Valid()
    {
      var price := ToNumber(pricePerLiter);
      var total := ToNumber(totalAmount);
      if IsPositive(price) && IsPositive(total) {
        calculatedLiters := RoundTo(total.val / price.val, 1);
      } else {
        calculatedLiters := 0.0;
      }
      assert calculatedLiters == LitersFor(price, total);
    }

    /** One keystroke: only the named field changes, then the liters effect runs. */
    method HandleInputChange(name: ModalField, value: string)
      requires Valid()
      modifies this
      ensures Valid()
      ensures Form() == WithField(old(Form()), name, value)
    {
      match name {
        case PricePerLiterField => pricePerLiter := value;
        case TotalAmountField => totalAmount := value;
        case GasStationField => gasStation := value;
        case LocationField => location := value;
      }
      RecomputeLiters();
    }

    /**
     * `handleSubmit`: hands the record to `onSubmit`, then calls `onClose`, then clears
     * all four fields (and with them the derived liters). It runs only from the save button,
     * which is disabled while any field is empty, so every submitted record has its price,
     * amount, station and place typed.
     */
    method HandleSubmit(now: int) returns (events: seq<ModalEvent>)
      requires Valid() && !SaveDisabled(Form())
      modifies this
      ensures events == [Submitted(ModalRecord(old(Form()), old(calculatedLiters), now)), Closed]
      ensures events[0].record.gasStation != "" && events[0].record.location != ""
      ensures Valid() && Form() == EmptyModalForm && calculatedLiters == 0.0
    {
      var record := RecordDraft(now, Finite(calculatedLiters), ToNumber(pricePerLiter), ToNumber(totalAmount),
                                gasStation, location);
      events := [Submitted(record), Closed];
      pricePerLiter, totalAmount, gasStation, location := "", "", "", "";
      RecomputeLiters();
      ClearedFormIsInert();
    }
  }
}
