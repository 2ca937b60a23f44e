/**
 * The tariff: four per-kWh charges and VAT on their sum. `estimate_bill`
 * applies it to a requested usage; the monthly reports apply it to each
 * month's summed usage.
 */
module Tariff {
  import opened Options
  import opened Json

  const FuelEnergyCostPerKwh: real := 20.0
  const ForexAdjustment: real := 1.5
  const InflationAdjustment: real := 2.0
  const ErcLevy: real := 0.5
  const VatRate: real := 0.16

  /** What one kWh costs once every charge and the VAT are added: 24.00 * 1.16. */
  const RatePerKwh: real := 27.84

  /** A bill in full precision; the handlers round each field to 2 places only when reporting it. */
  datatype Bill = Bill(
    consumption: real,
    fuelEnergyCost: real,
    forexAdj: real,
    inflationAdj: real,
    ercLevy: real,
    totalBeforeVat: real,
    vat: real,
    total: real)

  /** The breakdown for `usage` kWh. */
  function BillFor(usage: real): (b: Bill)
    ensures b.consumption == usage
    ensures b.totalBeforeVat == 24.0 * usage && b.vat == 3.84 * usage
    ensures b.total == RatePerKwh * usage
  {
    var fuel := FuelEnergyCostPerKwh * usage;
    var forex := ForexAdjustment * usage;
    var inflation := InflationAdjustment * usage;
    var levy := ErcLevy * usage;
    var beforeVat := fuel + forex + inflation + levy;
    var vat := beforeVat * VatRate;
    Bill(usage, fuel, forex, inflation, levy, beforeVat, vat, beforeVat + vat)
  }

  /** The parts of a bill add up: the four charges make the subtotal, and VAT is 16% of it. */
  lemma BillAddsUp(usage: real)
    ensures var b := BillFor(usage);
      && b.totalBeforeVat == b.fuelEnergyCost + b.forexAdj + b.inflationAdj + b.ercLevy
      && b.vat == VatRate * b.totalBeforeVat
      && b.total == b.totalBeforeVat + b.vat
      && b.fuelEnergyCost == 20.0 * usage && b.forexAdj == 1.5 * usage
      && b.inflationAdj == 2.0 * usage && b.ercLevy == 0.5 * usage
  {
  }

  /** For a positive usage every charge and the total are positive. */
  lemma BillPositive(usage: real)
    requires usage > 0.0
    ensures var b := BillFor(usage);
      b.fuelEnergyCost > 0.0 && b.forexAdj > 0.0 && b.inflationAdj > 0.0 && b.ercLevy > 0.0
      && b.vat > 0.0 && b.total > 0.0
  {
  }

  /** The total strictly grows with the usage. */
  lemma BillMonotone(u: real, v: real)
    requires u < v
    ensures BillFor(u).total < BillFor(v).total
  {
  }

  /** 10 kWh cost (200 + 15 + 20 + 5) * 1.16 = 278.40. */
  lemma TenKwh()
    ensures BillFor(10.0).total == 278.4
  {
  }

  // ---------------------------------------------------------------------------
  // POST /estimate_bill

  datatype BillError =
    | NoData        // 400 "No data provided"
    | InvalidUsage  // 400 "Invalid energy usage (kWh)"
    | ServerError   // 500: Python raised while comparing the usage

  /**
   * `estimate_bill` on a request body (None when the body is not JSON).
   * An absent or empty body is rejected first; then a usage that is missing,
   * falsy or not above zero; a string usage makes `<= 0` raise.
   */
  function EstimateBill(body: Option<Object>): (r: Result<Bill, BillError>)
    ensures r == Err(NoData) <==> body.None? || body.value == map[]
    ensures r.Ok? <==>
      && body.Some? && "energy_usage" in body.value
      && NumberOf(body.value["energy_usage"]).Some?
      && NumberOf(body.value["energy_usage"]).value > 0.0
    ensures r.Ok? ==> r.value == BillFor(NumberOf(body.value["energy_usage"]).value)
    ensures r.Ok? ==> r.value.total == RatePerKwh * r.value.consumption && r.value.total > 0.0
    ensures r == Err(ServerError) <==>
      && body.Some? && body.value != map[] && "energy_usage" in body.value
      && body.value["energy_usage"].JStr? && body.value["energy_usage"].s != ""
  {
    if body.None? || body.value == map[] then Err(NoData)
    else if !Given(body.value, "energy_usage") then Err(InvalidUsage)
    else
      match NumberOf(body.value["energy_usage"])
      case None => Err(ServerError)
      case Some(usage) => if usage <= 0.0 then Err(InvalidUsage) else Ok(BillFor(usage))
  }

  // ---------------------------------------------------------------------------
  // GET /consumption/monthly: the cost of each month's usage

  /** One row of the aggregation pipeline's output: a month and its summed usage. */
  datatype MonthUsage = MonthUsage(year: int, month: int, totalUsage: real)

  datatype MonthlyCost = MonthlyCost(year: int, month: int, totalUsage: real, bill: Bill)

  /** The loop that builds `monthly_data`: one priced row per month, in the pipeline's order. */
  method MonthlyCostReport(rows: seq<MonthUsage>) returns (data: seq<MonthlyCost>)
    ensures |data| == |rows|
    ensures forall i :: 0 <= i < |rows| ==>
      && data[i].year == rows[i].year && data[i].month == rows[i].month
      && data[i].totalUsage == rows[i].totalUsage
      && data[i].bill == BillFor(rows[i].totalUsage)
  {
    data := [];
    var k := 0;
    while k < |rows|
      invariant 0 <= k <= |rows| && |data| == k
      invariant forall i :: 0 <= i < k ==>
        && data[i].year == rows[i].year && data[i].month == rows[i].month
        && data[i].totalUsage == rows[i].totalUsage
        && data[i].bill == BillFor(rows[i].totalUsage)
    {
      var entry := rows[k];
      data := data + [MonthlyCost(entry.year, entry.month, entry.totalUsage, BillFor(entry.totalUsage))];
      k := k + 1;
    }
  }
}
