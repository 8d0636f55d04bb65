/**
 * The trip efficiency estimator of the fuel-efficiency page: from the range left in
 * the tank at the start and end of a trip, the driving style, the route type and
 * air-conditioning use, it estimates km/L, cost per km and the trip's cost.
 */
module FuelEfficiency {
  import opened JsRuntime

  datatype DrivingStyle = Suave | Normal | Agresivo
  datatype RouteType = Ciudad | Carretera | Mixta

  /** The page's form: range readings in km, tank cost and range, trip conditions. */
  datatype TripRecord = TripRecord(
    startTankKm: real,
    endTankKm: real,
    tankFullCost: real,
    tankFullRange: real,
    drivingStyle: DrivingStyle,
    routeType: RouteType,
    useAC: bool,
    date: int)

  datatype Efficiency = Efficiency(
    kmConsumed: real,
    costPerKm: real,
    tripCost: real,
    adjustedEfficiency: real,
    baseEfficiency: real)

  datatype Estimate = Estimated(result: Efficiency) | InvalidRange(message: string)

  /** Highway efficiency under optimal conditions, in km/L. */
  const BaseEfficiency: real := 18.0
  const AcFactor: real := 0.9
  /** The fuel price the cost is computed with; the form's tank cost and range are not used. */
  const FuelPrice: real := 1250.0
  const RangeError: string := "Los kilómetros disponibles iniciales deben ser mayores a los finales"

  /** The driving-style factor: 1 for a smooth driver, less for the others. */
  function StyleFactor(s: DrivingStyle): (f: real)
    ensures 0.0 < f <= 1.0
    ensures f == 1.0 <==> s == Suave
  {
    match s
    case Suave => 1.0
    case Normal => 0.9
    case Agresivo => 0.8
  }

  /** The route factor: 1 on the highway, less in mixed and city driving. */
  function RouteFactor(r: RouteType): (f: real)
    ensures 0.0 < f <= 1.0
    ensures f == 1.0 <==> r == Carretera
  {
    match r
    case Carretera => 1.0
    case Mixta => 0.81
    case Ciudad => 0.61
  }

  /** Style factor times route factor times the A/C factor when A/C is on. */
  function TotalFactor(s: DrivingStyle, r: RouteType, useAC: bool): real {
    StyleFactor(s) * RouteFactor(r) * (if useAC then AcFactor else 1.0)
  }

  /** The adjusted efficiency before it is rounded for display. */
  function AdjustedEfficiency(s: DrivingStyle, r: RouteType, useAC: bool): real {
    BaseEfficiency * TotalFactor(s, r, useAC)
  }

  /** The cost per km: the fixed price over the unrounded adjusted efficiency, to 2 decimals. */
  function CostPerKm(s: DrivingStyle, r: RouteType, useAC: bool): real
  {
    FactorBounds(s, r, useAC);
    RoundTo(FuelPrice / AdjustedEfficiency(s, r, useAC), 2)
  }

  /** The trip cost: km consumed times the already rounded cost per km, to 2 decimals. */
  function TripCost(kmConsumed: real, costPerKm: real): real {
    RoundTo(kmConsumed * costPerKm, 2)
  }

  /**
   * `calculateEfficiency`: rejects readings whose start does not exceed their end;
   * otherwise reports the km consumed, the rounded cost per km, the trip cost from that
   * rounded cost, the adjusted efficiency to one decimal and the base efficiency.
   */
  function Calculate(trip: TripRecord): (e: Estimate)
    ensures e.InvalidRange? <==> trip.startTankKm <= trip.endTankKm
    ensures e.InvalidRange? ==> e.message == RangeError
    ensures e.Estimated? ==>
      && e.result.kmConsumed == trip.startTankKm - trip.endTankKm
      && e.result.kmConsumed > 0.0
      && e.result.baseEfficiency == BaseEfficiency
      && e.result.costPerKm == CostPerKm(trip.drivingStyle, trip.routeType, trip.useAC)
      && e.result.tripCost == TripCost(e.result.kmConsumed, e.result.costPerKm)
      && e.result.adjustedEfficiency == RoundTo(AdjustedEfficiency(trip.drivingStyle, trip.routeType, trip.useAC), 1)
  {
    if trip.startTankKm <= trip.endTankKm then InvalidRange(RangeError)
    else
      var kmConsumed := trip.startTankKm - trip.endTankKm;
      var costPerKm := CostPerKm(trip.drivingStyle, trip.routeType, trip.useAC);
      var tripCost := TripCost(kmConsumed, costPerKm);
      Estimated(Efficiency(kmConsumed, costPerKm, tripCost,
                           RoundTo(AdjustedEfficiency(trip.drivingStyle, trip.routeType, trip.useAC), 1),
                           BaseEfficiency))
  }

  /** What the page shows: the last estimate (if any) and the error text. */
  datatype PageState = PageState(efficiency: Option<Efficiency>, error: string)

  /**
   * Pressing "calculate": a rejected trip sets the error and leaves the previously shown
   * estimate in place; an accepted one replaces the estimate and clears the error.
   */
  function CalculateOnPage(st: PageState, trip: TripRecord): (next: PageState)
    ensures trip.startTankKm <= trip.endTankKm ==>
      next.error == RangeError && next.efficiency == st.efficiency
    ensures trip.startTankKm > trip.endTankKm ==>
      next.error == "" && next.efficiency == Some(Calculate(trip).result)
  {
    match Calculate(trip)
    case InvalidRange(msg) => PageState(st.efficiency, msg)
    case Estimated(r) => PageState(Some(r), "")
  }

  // ---- Properties of the factor tables ----

  /** Every factor lies in (0, 1], and the product is 1 only for gentle driving on the highway without A/C. */
  lemma FactorBounds(s: DrivingStyle, r: RouteType, useAC: bool)
    ensures 0.0 < TotalFactor(s, r, useAC) <= 1.0
    ensures TotalFactor(s, r, useAC) == 1.0 <==> s == Suave && r == Carretera && !useAC
  {
    var a := StyleFactor(s);
    var b := RouteFactor(r);
    var c := if useAC then AcFactor else 1.0;
    assert 0.8 <= a <= 1.0 && 0.61 <= b <= 1.0 && 0.9 <= c <= 1.0;
    assert 0.0 < a * b <= 1.0 by { ProductInUnit(a, b); }
    assert 0.0 < a * b * c <= 1.0 by { ProductInUnit(a * b, c); }
    if a * b * c == 1.0 {
      ProductIsOne(a, b, c);
    }
  }

  lemma ProductInUnit(x: real, y: real)
    requires 0.0 < x <= 1.0 && 0.0 < y <= 1.0
    ensures 0.0 < x * y <= 1.0
  {
    assert x * y <= x * 1.0;
  }

  lemma ProductIsOne(a: real, b: real, c: real)
    requires 0.0 < a <= 1.0 && 0.0 < b <= 1.0 && 0.0 < c <= 1.0
    requires a * b * c == 1.0
    ensures a == 1.0 && b == 1.0 && c == 1.0
  {
    assert a * b <= 1.0 by { ProductInUnit(a, b); }
    assert a * b * c <= a * b;
    assert a * b <= a && a * b <= b;
  }

  /** The adjusted efficiency never exceeds the base, and reaches it exactly under optimal conditions. */
  lemma {:induction false} AdjustedWithinBase(s: DrivingStyle, r: RouteType, useAC: bool)
    ensures 0.0 < AdjustedEfficiency(s, r, useAC) <= BaseEfficiency
    ensures AdjustedEfficiency(s, r, useAC) == BaseEfficiency <==> s == Suave && r == Carretera && !useAC
  {
    FactorBounds(s, r, useAC);
  }

  /** How hard a driving style or route is on fuel: a higher rank is a worse condition. */
  function StyleRank(s: DrivingStyle): nat {
    match s
    case Suave => 0
    case Normal => 1
    case Agresivo => 2
  }

  function RouteRank(r: RouteType): nat {
    match r
    case Carretera => 0
    case Mixta => 1
    case Ciudad => 2
  }

  /** The tables are ordered: suave >= normal >= agresivo and carretera >= mixta >= ciudad. */
  lemma FactorTablesOrdered(s1: DrivingStyle, s2: DrivingStyle, r1: RouteType, r2: RouteType)
    ensures StyleRank(s1) <= StyleRank(s2) ==> StyleFactor(s1) >= StyleFactor(s2)
    ensures RouteRank(r1) <= RouteRank(r2) ==> RouteFactor(r1) >= RouteFactor(r2)
  {
  }

  lemma ProductMonotone(a1: real, a2: real, b1: real, b2: real)
    requires 0.0 < a2 <= a1 && 0.0 < b2 <= b1
    ensures a2 * b2 <= a1 * b1
  {
    assert a2 * b2 <= a1 * b2;
    assert a1 * b2 <= a1 * b1;
  }

  /**
   * A worse condition never raises the estimate: a harsher style, a slower route or
   * switching A/C on gives an adjusted efficiency no higher and a cost per km no lower.
   */
  lemma {:induction false} WorseConditionsNeverHelp(s1: DrivingStyle, r1: RouteType, ac1: bool,
                                                     s2: DrivingStyle, r2: RouteType, ac2: bool)
    requires StyleRank(s1) <= StyleRank(s2) && RouteRank(r1) <= RouteRank(r2) && (ac1 ==> ac2)
    ensures AdjustedEfficiency(s2, r2, ac2) <= AdjustedEfficiency(s1, r1, ac1)
    ensures CostPerKm(s1, r1, ac1) <= CostPerKm(s2, r2, ac2)
  {
    FactorTablesOrdered(s1, s2, r1, r2);
    var c1 := if ac1 then AcFactor else 1.0;
    var c2 := if ac2 then AcFactor else 1.0;
    ProductMonotone(StyleFactor(s1), StyleFactor(s2), RouteFactor(r1), RouteFactor(r2));
    FactorBounds(s1, r1, ac1);
    FactorBounds(s2, r2, ac2);
    ProductMonotone(StyleFactor(s1) * RouteFactor(r1), StyleFactor(s2) * RouteFactor(r2), c1, c2);
    var e1 := AdjustedEfficiency(s1, r1, ac1);
    var e2 := AdjustedEfficiency(s2, r2, ac2);
    assert e2 <= e1;
    DivAntitone(FuelPrice, e2, e1);
    RoundToMonotone(FuelPrice / e1, FuelPrice / e2, 2);
  }

  lemma DivAntitone(a: real, x: real, y: real)
    requires a >= 0.0 && 0.0 < x <= y
    ensures a / y <= a / x
  {
    assert a / y * y == a;
    assert a / x * x == a;
    assert (a / y) * x <= (a / y) * y;
  }

  /** The rounded cost per km is within half a cent of the fixed price over the unrounded efficiency. */
  lemma {:induction false} CostPerKmAccuracy(s: DrivingStyle, r: RouteType, useAC: bool)
    ensures FuelPrice / AdjustedEfficiency(s, r, useAC) - 0.005 <= CostPerKm(s, r, useAC)
                                                                 <= FuelPrice / AdjustedEfficiency(s, r, useAC) + 0.005
    ensures CostPerKm(s, r, useAC) > 0.0
  {
    AdjustedWithinBase(s, r, useAC);
    var e := AdjustedEfficiency(s, r, useAC);
    assert Pow10(2) == 100;
    DivAntitone(FuelPrice, e, BaseEfficiency);
    assert FuelPrice / BaseEfficiency > 69.0;
  }

  lemma ScaleMonotone(k1: real, k2: real, c: real)
    requires k1 <= k2 && c >= 0.0
    ensures k1 * c <= k2 * c
  {
  }

  /** For fixed conditions, a longer trip never costs less. */
  lemma {:induction false} TripCostMonotone(s: DrivingStyle, r: RouteType, useAC: bool, k1: real, k2: real)
    requires 0.0 < k1 <= k2
    ensures TripCost(k1, CostPerKm(s, r, useAC)) <= TripCost(k2, CostPerKm(s, r, useAC))
  {
    CostPerKmAccuracy(s, r, useAC);
    TripCostMonotoneIn(k1, k2, CostPerKm(s, r, useAC));
  }

  lemma TripCostMonotoneIn(k1: real, k2: real, c: real)
    requires k1 <= k2 && c >= 0.0
    ensures TripCost(k1, c) <= TripCost(k2, c)
  {
    ScaleMonotone(k1, k2, c);
    RoundToMonotone(k1 * c, k2 * c, 2);
  }

  // ---- Worked examples ----

  /** 500 km down to 400 km, gentle, highway, no A/C: 18.0 km/L, 69.44 per km, 6944 for the trip. */
  lemma {:induction false} ExampleOptimalHighway()
    ensures var e := Calculate(TripRecord(500.0, 400.0, 62500.0, 500.0, Suave, Carretera, false, 0));
      && e.Estimated?
      && e.result.kmConsumed == 100.0
      && e.result.adjustedEfficiency == 18.0
      && e.result.costPerKm == 69.44
      && e.result.tripCost == 6944.0
  {
    assert Pow10(2) == 100 && Pow10(1) == 10;
    FactorBounds(Suave, Carretera, false);
    assert AdjustedEfficiency(Suave, Carretera, false) == 18.0;
    assert (FuelPrice / 18.0 * 100.0 + 0.5).Floor == 6944;
    assert CostPerKm(Suave, Carretera, false) == 69.44;
    assert (100.0 * 69.44 * 100.0 + 0.5).Floor == 694400;
    assert (18.0 * 10.0 + 0.5).Floor == 180;
  }

  /**
   * 100 km, normal style, mixed route, no A/C: the factor is 0.9 * 0.81 = 0.729, so 13.122 km/L,
   * shown as 13.1; the cost per km is taken from the unrounded 13.122 and is 95.26, the trip 9526.
   */
  lemma {:induction false} ExampleNormalMixed()
    ensures var e := Calculate(TripRecord(500.0, 400.0, 62500.0, 500.0, Normal, Mixta, false, 0));
      && e.Estimated?
      && TotalFactor(Normal, Mixta, false) == 0.729
      && e.result.adjustedEfficiency == 13.1
      && e.result.costPerKm == 95.26
      && e.result.tripCost == 9526.0
  {
    assert Pow10(2) == 100 && Pow10(1) == 10;
    assert AdjustedEfficiency(Normal, Mixta, false) == 13.122;
    assert (13.122 * 10.0 + 0.5).Floor == 131;
    assert (FuelPrice / 13.122 * 100.0 + 0.5).Floor == 9526;
    assert CostPerKm(Normal, Mixta, false) == 95.26;
    assert (100.0 * 95.26 * 100.0 + 0.5).Floor == 952600;
  }

  /**
   * 100 km, aggressive style, city, A/C on: the factor is 0.8 * 0.61 * 0.9 = 0.4392, so 7.9056 km/L,
   * shown as 7.9; the cost per km is 158.12 and the trip 15812.
   */
  lemma {:induction false} ExampleAggressiveCityAc()
    ensures var e := Calculate(TripRecord(500.0, 400.0, 62500.0, 500.0, Agresivo, Ciudad, true, 0));
      && e.Estimated?
      && TotalFactor(Agresivo, Ciudad, true) == 0.4392
      && e.result.adjustedEfficiency == 7.9
      && e.result.costPerKm == 158.12
      && e.result.tripCost == 15812.0
  {
    assert Pow10(2) == 100 && Pow10(1) == 10;
    assert AdjustedEfficiency(Agresivo, Ciudad, true) == 7.9056;
    assert (7.9056 * 10.0 + 0.5).Floor == 79;
    assert (FuelPrice / 7.9056 * 100.0 + 0.5).Floor == 15812;
    assert CostPerKm(Agresivo, Ciudad, true) == 158.12;
    assert (100.0 * 158.12 * 100.0 + 0.5).Floor == 1581200;
  }
}
