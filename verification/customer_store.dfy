/**
 The customer store: customer profiles, each carrying an embedded revenue ledger,
 and four state transformers. `SetSelectedCustomer` sets the selection;
 `AddCustomer`, `UpdateCustomer` and `AddDemoRevenue` replace the customer list wholesale.

 The store is an immutable value; every operation is a pure function from the old
 store to the new one. The random ids and the clock readings the store would draw
 itself are parameters.
 */
module CustomerStore {
  import opened Wrappers
  import opened Seqs

  /** A JavaScript `Date`, as milliseconds since the Unix epoch. */
  type Timestamp = int

  datatype Influence = DecisionMaker | TechnicalEvaluator | EndUser | FinancialApprover

  datatype Status = Active | Prospect | ClosedWon | ClosedLost

  datatype Stakeholder = Stakeholder(
    id: string,
    name: string,
    role: string,
    influence: Influence,
    email: string,
    phone: Option<string>,
    notes: Option<string>)

  /** One entry of a customer's revenue ledger. */
  datatype Sale = Sale(
    id: string,
    demoId: string,
    productName: string,
    amount: int,
    date: Timestamp,
    quantity: int,
    notes: Option<string>)

  /** The embedded ledger: its sales in insertion order, a cached total and the time of the last change. */
  datatype Revenue = Revenue(sales: seq<Sale>, totalAmount: int, lastUpdated: Timestamp)

  /** Everything about a customer except its id and its ledger. */
  datatype Profile = Profile(
    company: string,
    industry: string,
    size: string,
    budget: string,
    website: string,
    status: Status,
    painPoints: seq<string>,
    requirements: seq<string>,
    stakeholders: seq<Stakeholder>,
    currentSolution: Option<string>,
    timeline: string,
    notes: string,
    lastContact: Timestamp)

  datatype Customer = Customer(id: string, profile: Profile, revenue: Revenue)

  /** What `addCustomer` is handed: a full profile without an id, ledger included. */
  datatype Draft = Draft(profile: Profile, revenue: Revenue)

  /**
   A partial customer: `None` is a field the update does not mention. The optional
   `currentSolution` can also be mentioned with no value, which clears it.
   */
  datatype Update = Update(
    id: Option<string>,
    company: Option<string>,
    industry: Option<string>,
    size: Option<string>,
    budget: Option<string>,
    website: Option<string>,
    status: Option<Status>,
    painPoints: Option<seq<string>>,
    requirements: Option<seq<string>>,
    stakeholders: Option<seq<Stakeholder>>,
    currentSolution: Option<Option<string>>,
    timeline: Option<string>,
    notes: Option<string>,
    lastContact: Option<Timestamp>,
    revenue: Option<Revenue>)

  /** The update that mentions no field. */
  const NoChange: Update :=
    Update(None, None, None, None, None, None, None, None, None, None, None, None, None, None, None)

  datatype Store = Store(customers: seq<Customer>, selected: Option<Customer>)

  // ----- The ledger invariant -----

  function Amounts(sales: seq<Sale>): (r: seq<int>)
    ensures |r| == |sales|
    ensures forall i :: 0 <= i < |sales| ==> r[i] == sales[i].amount
  {
    seq(|sales|, i requires 0 <= i < |sales| => sales[i].amount)
  }

  lemma AmountsConcat(a: seq<Sale>, b: seq<Sale>)
    ensures Amounts(a + b) == Amounts(a) + Amounts(b)
  {
  }

  /** The cached total of a ledger agrees with its sales. */
  predicate Consistent(c: Customer) {
    c.revenue.totalAmount == Sum(Amounts(c.revenue.sales))
  }

  predicate LedgerInvariant(customers: seq<Customer>) {
    forall i :: 0 <= i < |customers| ==> Consistent(customers[i])
  }

  predicate Known(customers: seq<Customer>, id: string) {
    exists i :: 0 <= i < |customers| && customers[i].id == id
  }

  // ----- The list transformer both updates are built on -----

  /** `customers.map(c => c.id === id ? f(c) : c)`. */
  function ReplaceWhere(customers: seq<Customer>, id: string, f: Customer -> Customer): (r: seq<Customer>)
    ensures |r| == |customers|
    ensures forall i :: 0 <= i < |customers| && customers[i].id != id ==> r[i] == customers[i]
    ensures forall i :: 0 <= i < |customers| && customers[i].id == id ==> r[i] == f(customers[i])
    ensures !Known(customers, id) ==> r == customers
  {
    seq(|customers|, i requires 0 <= i < |customers| =>
      if customers[i].id == id then f(customers[i]) else customers[i])
  }

  // ----- setSelectedCustomer -----

  /** Focuses a customer (or none); the customer list is not touched and nothing is validated. */
  function SetSelectedCustomer(s: Store, customer: Option<Customer>): (r: Store)
    ensures r.customers == s.customers
    ensures r.selected == customer
  {
    s.(selected := customer)
  }

  // ----- addCustomer -----

  /** An empty ledger stamped with the creation time. */
  function EmptyRevenue(now: Timestamp): (r: Revenue)
    ensures r.sales == [] && r.totalAmount == 0
  {
    Revenue([], 0, now)
  }

  /**
   Appends the draft under the fresh id `newId`, with an empty ledger in place of
   whatever ledger the draft carried.
   */
  function AddCustomer(s: Store, draft: Draft, newId: string, now: Timestamp): (r: Store)
    ensures |r.customers| == |s.customers| + 1
    ensures r.customers[..|s.customers|] == s.customers
    ensures var c := r.customers[|s.customers|];
      && c.id == newId
      && c.profile == draft.profile
      && c.revenue.sales == []
      && c.revenue.totalAmount == 0
      && c.revenue.lastUpdated == now
    ensures r.selected == s.selected
  {
    s.(customers := s.customers + [Customer(newId, draft.profile, EmptyRevenue(now))])
  }

  // ----- updateCustomer -----

  /** `after` is what a spread of `patch` over `before` leaves: the patch when present, else the old value. */
  predicate Patched<T(==)>(patch: Option<T>, before: T, after: T) {
    match patch
    case Some(v) => after == v
    case None => after == before
  }

  /** `{ ...customer, ...updates }`: every mentioned field overwrites, every other field is kept. */
  function Merge(c: Customer, u: Update): (r: Customer)
    ensures Patched(u.id, c.id, r.id)
    ensures Patched(u.company, c.profile.company, r.profile.company)
    ensures Patched(u.industry, c.profile.industry, r.profile.industry)
    ensures Patched(u.size, c.profile.size, r.profile.size)
    ensures Patched(u.budget, c.profile.budget, r.profile.budget)
    ensures Patched(u.website, c.profile.website, r.profile.website)
    ensures Patched(u.status, c.profile.status, r.profile.status)
    ensures Patched(u.painPoints, c.profile.painPoints, r.profile.painPoints)
    ensures Patched(u.requirements, c.profile.requirements, r.profile.requirements)
    ensures Patched(u.stakeholders, c.profile.stakeholders, r.profile.stakeholders)
    ensures Patched(u.currentSolution, c.profile.currentSolution, r.profile.currentSolution)
    ensures Patched(u.timeline, c.profile.timeline, r.profile.timeline)
    ensures Patched(u.notes, c.profile.notes, r.profile.notes)
    ensures Patched(u.lastContact, c.profile.lastContact, r.profile.lastContact)
    ensures Patched(u.revenue, c.revenue, r.revenue)
  {
    var p := c.profile;
    Customer(
      u.id.GetOr(c.id),
      Profile(
        u.company.GetOr(p.company),
        u.industry.GetOr(p.industry),
        u.size.GetOr(p.size),
        u.budget.GetOr(p.budget),
        u.website.GetOr(p.website),
        u.status.GetOr(p.status),
        u.painPoints.GetOr(p.painPoints),
        u.requirements.GetOr(p.requirements),
        u.stakeholders.GetOr(p.stakeholders),
        u.currentSolution.GetOr(p.currentSolution),
        u.timeline.GetOr(p.timeline),
        u.notes.GetOr(p.notes),
        u.lastContact.GetOr(p.lastContact)),
      u.revenue.GetOr(c.revenue))
  }

  /** Merges `u` into every customer whose id is `id`; an unknown id leaves the store as it was. */
  function UpdateCustomer(s: Store, id: string, u: Update): (r: Store)
    ensures |r.customers| == |s.customers|
    ensures forall i :: 0 <= i < |s.customers| && s.customers[i].id != id ==> r.customers[i] == s.customers[i]
    ensures forall i :: 0 <= i < |s.customers| && s.customers[i].id == id ==> r.customers[i] == Merge(s.customers[i], u)
    ensures !Known(s.customers, id) ==> r == s
    ensures r.selected == s.selected
  {
    s.(customers := ReplaceWhere(s.customers, id, c => Merge(c, u)))
  }

  // ----- addDemoRevenue -----

  /** The sale `addDemoRevenue` records: one unit of the "<demoType> Package" product. */
  function DemoSale(saleId: string, demoId: string, amount: int, demoType: string, date: Timestamp): (r: Sale)
    ensures r.demoId == demoId && r.amount == amount && r.quantity == 1
    ensures r.productName == demoType + " Package"
    ensures r.id == saleId && r.date == date && r.notes == Some("Sale from " + demoType + " demo")
  {
    Sale(saleId, demoId, demoType + " Package", amount, date, 1, Some("Sale from " + demoType + " demo"))
  }

  /** Appends `sale` to the customer's ledger and recomputes the total from all of its sales. */
  function Credit(c: Customer, sale: Sale, now: Timestamp): (r: Customer)
    ensures r.id == c.id && r.profile == c.profile
    ensures r.revenue.sales == c.revenue.sales + [sale]
    ensures r.revenue.totalAmount == Sum(Amounts(r.revenue.sales))
    ensures r.revenue.lastUpdated == now
  {
    var newSales := c.revenue.sales + [sale];
    c.(revenue := Revenue(newSales, Reduce(Amounts(newSales)), now))
  }

  /**
   Records a sale of `amount` attributed to demo `demoId` on every customer whose id is
   `customerId`. `saleId` and `saleDate` stand for the random id and clock reading of the
   new sale, `now` for the later clock reading that stamps the ledger.
   */
  function AddDemoRevenue(s: Store, customerId: string, demoId: string, amount: int, demoType: string,
                          saleId: string, saleDate: Timestamp, now: Timestamp): (r: Store)
    ensures |r.customers| == |s.customers|
    ensures forall i :: 0 <= i < |s.customers| && s.customers[i].id != customerId ==>
      r.customers[i] == s.customers[i]
    ensures forall i :: 0 <= i < |s.customers| && s.customers[i].id == customerId ==>
      r.customers[i] == Credit(s.customers[i], DemoSale(saleId, demoId, amount, demoType, saleDate), now)
    ensures !Known(s.customers, customerId) ==> r == s
    ensures r.selected == s.selected
  {
    var sale := DemoSale(saleId, demoId, amount, demoType, saleDate);
    s.(customers := ReplaceWhere(s.customers, customerId, c => Credit(c, sale, now)))
  }
}
