/**
 The figures the analytics view derives from a demo snapshot and a customer snapshot:
 the four headline metrics, the per-category pie data and the per-category performance
 rows. The view keeps no results of its own between reads; total revenue trusts each
 ledger's cached total.
 */
module Analytics {
  import opened Seqs
  import opened JsMath
  import opened CustomerStore

  /** A demo event as the view reads it; its `location` names its category. */
  datatype Demo = Demo(id: string, location: string, attendees: nat)

  /** A category definition from the demo-type table. */
  datatype DemoType = DemoType(name: string, description: string, duration: string, capacity: nat)

  /** `Object.entries(demoTypes)`: category keys with their definitions, in table order. */
  type Catalog = seq<(string, DemoType)>

  /** A percentage as JavaScript produces it here: a whole number, or `Infinity`. */
  datatype Percent = Percent(value: nat) | Infinite

  datatype Metrics = Metrics(totalDemos: nat, avgAttendees: nat, conversionRate: Percent, totalRevenue: int)

  /** One slice of the demo-type pie chart. */
  datatype Slice = Slice(name: string, value: nat)

  /** One category row: the category's own definition spread in, plus the derived figures. */
  datatype Performance = Performance(info: DemoType, demoCount: nat, avgAttendees: nat, conversion: nat, revenue: int)

  predicate DistinctKeys(catalog: Catalog) {
    forall i, j :: 0 <= i < j < |catalog| ==> catalog[i].0 != catalog[j].0
  }

  // ----- Attendance -----

  function Attendance(demos: seq<Demo>): (r: seq<int>)
    ensures |r| == |demos|
    ensures forall i :: 0 <= i < |demos| ==> r[i] == demos[i].attendees
  {
    seq(|demos|, i requires 0 <= i < |demos| => demos[i].attendees)
  }

  /**
   `Math.round(total attendees / demo count || 0)`: the mean rounded half up, and 0 for no
   demos (0 / 0 is NaN, and `NaN || 0` is 0).
   */
  function MeanAttendees(demos: seq<Demo>): (r: nat)
    ensures |demos| == 0 ==> r == 0
    ensures |demos| > 0 ==>
      var total := Sum(Attendance(demos));
      2 * total - |demos| < 2 * |demos| * r <= 2 * total + |demos|
  {
    if |demos| == 0 then 0
    else
      SumNonNegative(Attendance(demos));
      RoundRatio(Reduce(Attendance(demos)), |demos|)
  }

  // ----- Sales across customers -----

  /** `customers.flatMap(c => c.revenue.sales)`. */
  function AllSales(customers: seq<Customer>): (r: seq<Sale>)
    ensures forall s :: s in r <==> exists i :: 0 <= i < |customers| && s in customers[i].revenue.sales
  {
    if customers == [] then []
    else
      var init := customers[..|customers| - 1];
      var rest := AllSales(init);
      assert forall i :: 0 <= i < |init| ==> init[i] == customers[i];
      rest + customers[|customers| - 1].revenue.sales
  }

  /** Flattening a concatenation is concatenating the flattenings: order and multiplicity are kept. */
  lemma {:induction false} AllSalesConcat(a: seq<Customer>, b: seq<Customer>)
    ensures AllSales(a + b) == AllSales(a) + AllSales(b)
    decreases |b|
  {
    if b == [] {
      assert a + b == a;
    } else {
      var b' := b[..|b| - 1];
      assert (a + b)[..|a + b| - 1] == a + b';
      AllSalesConcat(a, b');
    }
  }

  /** A single customer contributes exactly its own ledger's sales, in ledger order. */
  lemma AllSalesSingleton(c: Customer)
    ensures AllSales([c]) == c.revenue.sales
  {
  }

  /** `new Set(customers.flatMap(c => c.revenue.sales.map(s => s.demoId)))`: the distinct demo ids that at least one sale is attributed to. */
  function SoldDemoIds(customers: seq<Customer>): (r: set<string>)
    ensures forall id :: id in r <==> exists s :: s in AllSales(customers) && s.demoId == id
  {
    set s | s in AllSales(customers) :: s.demoId
  }

  /** The cached ledger totals, one per customer. */
  function Totals(customers: seq<Customer>): (r: seq<int>)
    ensures |r| == |customers|
    ensures forall i :: 0 <= i < |customers| ==> r[i] == customers[i].revenue.totalAmount
  {
    seq(|customers|, i requires 0 <= i < |customers| => customers[i].revenue.totalAmount)
  }

  /**
   The global conversion rate: distinct sold demo ids per demo, as a rounded percentage.
   With no demos it is 0 when nothing was sold (NaN || 0) and Infinity otherwise.
   */
  function ConversionRate(demos: seq<Demo>, customers: seq<Customer>): (r: Percent)
    ensures var sold := |SoldDemoIds(customers)|;
      && (|demos| > 0 ==>
            r.Percent? && 2 * (100 * sold) - |demos| < 2 * |demos| * r.value <= 2 * (100 * sold) + |demos|)
      && (|demos| == 0 && AllSales(customers) == [] ==> r == Percent(0))
      && (|demos| == 0 && AllSales(customers) != [] ==> r == Infinite)
  {
    var sold := |SoldDemoIds(customers)|;
    assert AllSales(customers) != [] ==> AllSales(customers)[0].demoId in SoldDemoIds(customers);
    if |demos| > 0 then Percent(RoundRatio(100 * sold, |demos|))
    else if sold == 0 then Percent(0)
    else Infinite
  }

  /** `calculateMetrics`. */
  function CalculateMetrics(demos: seq<Demo>, customers: seq<Customer>): (m: Metrics)
    ensures m.totalDemos == |demos|
    ensures m.avgAttendees == MeanAttendees(demos)
    ensures m.conversionRate == ConversionRate(demos, customers)
    ensures m.totalRevenue == Sum(Totals(customers))
  {
    Metrics(|demos|, MeanAttendees(demos), ConversionRate(demos, customers), Reduce(Totals(customers)))
  }

  // ----- Per-category figures -----

  /** Whether a demo's lowercased location is the category key. */
  function AtLocation(key: string): Demo -> bool {
    (d: Demo) => Lower(d.location) == key
  }

  /** Whether a sale is attributed to one of the given demos. */
  function FromDemos(ids: set<string>): Sale -> bool {
    (s: Sale) => s.demoId in ids
  }

  /** `demos.filter(demo => demo.location.toLowerCase() === key)`. */
  function InCategory(demos: seq<Demo>, key: string): (r: seq<Demo>)
    ensures forall d :: d in r ==> d in demos && Lower(d.location) == key
    ensures forall d :: multiset(r)[d] == if Lower(d.location) == key then multiset(demos)[d] else 0
  {
    Filter(demos, AtLocation(key))
  }

  /** `new Set(typeDemos.map(d => d.id))`. */
  function DemoIds(demos: seq<Demo>): (r: set<string>)
    ensures forall id :: id in r <==> exists d :: d in demos && d.id == id
  {
    set d | d in demos :: d.id
  }

  /** `customers.flatMap(c => c.revenue.sales.filter(s => ids.has(s.demoId)))`. */
  function RelatedSales(customers: seq<Customer>, ids: set<string>): (r: seq<Sale>)
    ensures r == Filter(AllSales(customers), FromDemos(ids))
  {
    if customers == [] then []
    else
      var init := customers[..|customers| - 1];
      var last := customers[|customers| - 1];
      FilterConcat(AllSales(init), last.revenue.sales, FromDemos(ids));
      RelatedSales(init, ids) + Filter(last.revenue.sales, FromDemos(ids))
  }

  /** One entry of `demoPerformance`. */
  function CategoryPerformance(demos: seq<Demo>, customers: seq<Customer>, key: string, info: DemoType): (r: Performance)
    ensures var typeDemos := InCategory(demos, key);
      var related := Filter(AllSales(customers), FromDemos(DemoIds(typeDemos)));
      && r.info == info
      && r.demoCount == |typeDemos|
      && r.avgAttendees == MeanAttendees(typeDemos)
      && r.revenue == Sum(Amounts(related))
      && (r.demoCount == 0 ==> r.conversion == 0)
      && (r.demoCount > 0 ==>
            2 * (100 * |related|) - r.demoCount < 2 * r.demoCount * r.conversion <= 2 * (100 * |related|) + r.demoCount)
  {
    var typeDemos := InCategory(demos, key);
    var related := RelatedSales(customers, DemoIds(typeDemos));
    var conversion := if |typeDemos| > 0 then RoundRatio(100 * |related|, |typeDemos|) else 0;
    Performance(info, |typeDemos|, MeanAttendees(typeDemos), conversion, Reduce(Amounts(related)))
  }

  /** `demoPerformance`: one row per category, in table order. */
  function DemoPerformance(demos: seq<Demo>, customers: seq<Customer>, catalog: Catalog): (r: seq<Performance>)
    ensures |r| == |catalog|
    ensures forall i :: 0 <= i < |catalog| ==> r[i] == CategoryPerformance(demos, customers, catalog[i].0, catalog[i].1)
  {
    seq(|catalog|, i requires 0 <= i < |catalog| => CategoryPerformance(demos, customers, catalog[i].0, catalog[i].1))
  }

  /** `demoTypeData`: the pie chart, one slice per category, sized by its demo count. */
  function DemoTypeData(demos: seq<Demo>, catalog: Catalog): (r: seq<Slice>)
    ensures |r| == |catalog|
    ensures forall i :: 0 <= i < |catalog| ==> r[i].name == catalog[i].1.name
    ensures forall i :: 0 <= i < |catalog| ==> r[i].value == |InCategory(demos, catalog[i].0)|
  {
    seq(|catalog|, i requires 0 <= i < |catalog| => Slice(catalog[i].1.name, |InCategory(demos, catalog[i].0)|))
  }
}
