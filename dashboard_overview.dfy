/**
 * The dashboard's mapping from the reports endpoint's payload to the figures
 * it shows: totals with defaults, the per-currency rows, the number of active
 * investments, the best performer, and the currency used for display.
 * Numbers that the payload may leave out are `Option<real>`; `None` is
 * undefined or null.
 */
module DashboardOverview {
  import opened Common

  datatype Portfolio = Portfolio(
    totalInvestments: Option<real>,
    totalCurrentValueBase: Option<real>,
    totalReturnsBase: Option<real>)

  datatype ApiCurrencyTotal = ApiCurrencyTotal(
    currency: Option<string>,
    totalPrincipal: Option<real>,
    totalCurrentValue: Option<real>,
    totalReturns: Option<real>,
    count: Option<real>)

  datatype ApiPerformer = ApiPerformer(id: string, name: string, returnPercentage: Option<real>)

  datatype ApiDashboardData = ApiDashboardData(
    portfolio: Option<Portfolio>,
    assetAllocation: Option<map<string, real>>,
    totalsByCurrency: Listed<ApiCurrencyTotal>,
    topPerformers: Listed<ApiPerformer>)

  datatype CurrencyTotal = CurrencyTotal(
    currency: Option<string>,
    totalPrincipal: real,
    totalCurrentValue: real,
    totalReturns: real,
    count: real)

  datatype BestPerformer = BestPerformer(id: string, name: string, returnRate: real)

  datatype DashboardData = DashboardData(
    totalInvestments: real,
    totalValue: real,
    totalReturns: real,
    activeInvestments: real,
    monthlyChange: real,
    yearlyChange: real,
    bestPerformer: BestPerformer,
    assetAllocation: map<string, real>,
    currencyTotals: seq<CurrencyTotal>)

  /** `Number(p.returnPercentage ?? 0)`. */
  function Rate(p: ApiPerformer): real
  {
    Default(p.returnPercentage, 0.0)
  }

  /**
   * The `reduce` without a start value: `acc` is the index kept so far and
   * `i` the next one looked at; a later performer replaces it only with a
   * strictly larger rate.
   */
  function ReduceBest(ps: seq<ApiPerformer>, acc: nat, i: nat): (best: nat)
    requires acc < i <= |ps|
    requires forall j :: 0 <= j < i ==> Rate(ps[j]) <= Rate(ps[acc])
    requires forall j :: 0 <= j < acc ==> Rate(ps[j]) < Rate(ps[acc])
    ensures best < |ps|
    ensures forall j :: 0 <= j < |ps| ==> Rate(ps[j]) <= Rate(ps[best])
    ensures forall j :: 0 <= j < best ==> Rate(ps[j]) < Rate(ps[best])
    decreases |ps| - i
  {
    if i == |ps| then acc
    else if Rate(ps[i]) > Rate(ps[acc]) then ReduceBest(ps, i, i + 1)
    else ReduceBest(ps, acc, i + 1)
  }

  /** The index of the best performer: the earliest one with the largest rate. */
  function BestIndex(ps: seq<ApiPerformer>): (best: nat)
    requires ps != []
    ensures best < |ps|
    ensures forall j :: 0 <= j < |ps| ==> Rate(ps[j]) <= Rate(ps[best])
    ensures forall j :: 0 <= j < best ==> Rate(ps[j]) < Rate(ps[best])
  {
    ReduceBest(ps, 0, 1)
  }

  /** `Array.isArray(api.topPerformers) ? api.topPerformers : []`. */
  function Performers(api: ApiDashboardData): seq<ApiPerformer>
  {
    if api.topPerformers.Items? then api.topPerformers.items else []
  }

  /** The best-performer record, with `''`, `'-'` and 0 when there is no performer. */
  function Best(ps: seq<ApiPerformer>): (b: BestPerformer)
    ensures ps == [] ==> b == BestPerformer("", "-", 0.0)
    ensures ps != [] ==> exists k :: 0 <= k < |ps| && b == BestPerformer(ps[k].id, ps[k].name, Rate(ps[k]))
    ensures forall j :: 0 <= j < |ps| ==> Rate(ps[j]) <= b.returnRate
  {
    if ps == [] then BestPerformer("", "-", 0.0)
    else
      var k := BestIndex(ps);
      BestPerformer(ps[k].id, ps[k].name, Rate(ps[k]))
  }

  /** On a tie the earliest performer with the top rate wins: the best index is that one. */
  lemma BestIsEarliestMaximum(ps: seq<ApiPerformer>, j: nat)
    requires j < |ps|
    requires forall i :: 0 <= i < |ps| ==> Rate(ps[i]) <= Rate(ps[j])
    requires forall i :: 0 <= i < j ==> Rate(ps[i]) < Rate(ps[j])
    ensures BestIndex(ps) == j
  {
  }

  /** One row of `currencyTotals`: the currency copied, missing numbers read as 0. */
  function MapCurrencyTotal(c: ApiCurrencyTotal): (t: CurrencyTotal)
    ensures t.currency == c.currency
    ensures c.totalPrincipal.None? ==> t.totalPrincipal == 0.0
    ensures c.totalPrincipal.Some? ==> t.totalPrincipal == c.totalPrincipal.value
    ensures c.totalCurrentValue.None? ==> t.totalCurrentValue == 0.0
    ensures c.totalCurrentValue.Some? ==> t.totalCurrentValue == c.totalCurrentValue.value
    ensures c.totalReturns.None? ==> t.totalReturns == 0.0
    ensures c.totalReturns.Some? ==> t.totalReturns == c.totalReturns.value
    ensures c.count.None? ==> t.count == 0.0
    ensures c.count.Some? ==> t.count == c.count.value
  {
    CurrencyTotal(c.currency, Default(c.totalPrincipal, 0.0), Default(c.totalCurrentValue, 0.0),
      Default(c.totalReturns, 0.0), Default(c.count, 0.0))
  }

  /** `totalsByCurrency.map(...)`, or `[]` when it is not an array. */
  function CurrencyTotals(totals: Listed<ApiCurrencyTotal>): (rows: seq<CurrencyTotal>)
    ensures !totals.Items? ==> rows == []
    ensures totals.Items? ==> (|rows| == |totals.items|
      && forall i :: 0 <= i < |rows| ==> rows[i] == MapCurrencyTotal(totals.items[i]))
  {
    if totals.Items? then seq(|totals.items|, i requires 0 <= i < |totals.items| => MapCurrencyTotal(totals.items[i]))
    else []
  }

  /** `Number(c.count || 0)`. */
  function CountOf(c: ApiCurrencyTotal): real
  {
    Default(c.count, 0.0)
  }

  /** The per-currency counts, in order. */
  function Counts(rows: seq<ApiCurrencyTotal>): (cs: seq<real>)
    ensures |cs| == |rows|
    ensures forall i :: 0 <= i < |rows| ==> cs[i] == CountOf(rows[i])
  {
    seq(|rows|, i requires 0 <= i < |rows| => CountOf(rows[i]))
  }

  /**
   * `(api.totalsByCurrency || []).reduce((sum, c) => sum + Number(c.count || 0), 0)`.
   * A truthy value that is not an array has no `reduce`: the call throws, `None`.
   */
  function ActiveInvestments(totals: Listed<ApiCurrencyTotal>): (r: Option<real>)
    ensures r.None? <==> totals.NotArray?
    ensures totals.Absent? ==> r == Some(0.0)
    ensures totals.Items? ==> r == Some(Sum(Counts(totals.items)))
  {
    match totals
    case Absent => Some(0.0)
    case NotArray => None
    case Items(rows) =>
      SumFromIsSum(0.0, Counts(rows));
      Some(SumFrom(0.0, Counts(rows)))
  }

  /** The number of active investments adds up the counts row by row. */
  lemma {:induction false} ActiveInvestmentsAppend(xs: seq<ApiCurrencyTotal>, ys: seq<ApiCurrencyTotal>)
    ensures ActiveInvestments(Items(xs + ys)).value
         == ActiveInvestments(Items(xs)).value + ActiveInvestments(Items(ys)).value
  {
    assert Counts(xs + ys) == Counts(xs) + Counts(ys);
    SumAppend(Counts(xs), Counts(ys));
  }

  /** `mapApiToDashboardData`; `None` when it throws. */
  function MapApiToDashboardData(api: ApiDashboardData): (r: Option<DashboardData>)
    ensures r.None? <==> api.totalsByCurrency.NotArray?
    ensures r.Some? ==> var d := r.value;
      && d.monthlyChange == 0.0 && d.yearlyChange == 0.0
      && d.bestPerformer == Best(Performers(api))
      && d.currencyTotals == CurrencyTotals(api.totalsByCurrency)
      && Some(d.activeInvestments) == ActiveInvestments(api.totalsByCurrency)
      && (api.portfolio.None? ==> d.totalInvestments == 0.0 && d.totalValue == 0.0 && d.totalReturns == 0.0)
      && (api.portfolio.Some? ==>
            && d.totalInvestments == Default(api.portfolio.value.totalInvestments, 0.0)
            && d.totalValue == Default(api.portfolio.value.totalCurrentValueBase, 0.0)
            && d.totalReturns == Default(api.portfolio.value.totalReturnsBase, 0.0))
      && (api.assetAllocation.None? ==> d.assetAllocation == map[])
      && (api.assetAllocation.Some? ==> d.assetAllocation == api.assetAllocation.value)
  {
    var active := ActiveInvestments(api.totalsByCurrency);
    if active.None? then None
    else
      var p := if api.portfolio.Some? then api.portfolio.value else Portfolio(None, None, None);
      Some(DashboardData(
        Default(p.totalInvestments, 0.0),
        Default(p.totalCurrentValueBase, 0.0),
        Default(p.totalReturnsBase, 0.0),
        active.value,
        0.0,
        0.0,
        Best(Performers(api)),
        if api.assetAllocation.Some? then api.assetAllocation.value else map[],
        CurrencyTotals(api.totalsByCurrency)))
  }

  /** The best performer's rate bounds every top performer's rate, missing rates read as 0. */
  lemma BestBoundsEveryPerformer(api: ApiDashboardData, d: DashboardData)
    requires MapApiToDashboardData(api) == Some(d)
    requires api.topPerformers.Items?
    ensures forall p :: p in api.topPerformers.items ==> Default(p.returnPercentage, 0.0) <= d.bestPerformer.returnRate
  {
    var ps := api.topPerformers.items;
    forall p | p in ps ensures Default(p.returnPercentage, 0.0) <= d.bestPerformer.returnRate {
      var j :| 0 <= j < |ps| && ps[j] == p;
      assert Rate(ps[j]) <= d.bestPerformer.returnRate;
    }
  }

  /** `apiData?.totalsByCurrency?.[0]?.currency || 'USD'`. */
  function DisplayCurrency(api: ApiDashboardData): (code: string)
    ensures code != ""
    ensures api.totalsByCurrency.Items? && api.totalsByCurrency.items != []
            && api.totalsByCurrency.items[0].currency.Some? && api.totalsByCurrency.items[0].currency.value != ""
            ==> code == api.totalsByCurrency.items[0].currency.value
    ensures !api.totalsByCurrency.Items? || api.totalsByCurrency.items == [] ==> code == "USD"
    ensures api.totalsByCurrency.Items? && api.totalsByCurrency.items != []
            && (api.totalsByCurrency.items[0].currency.None? || api.totalsByCurrency.items[0].currency.value == "")
            ==> code == "USD"
  {
    var first := if api.totalsByCurrency.Items? && api.totalsByCurrency.items != []
                 then api.totalsByCurrency.items[0].currency else None;
    OrElse(first, "USD")
  }
}
