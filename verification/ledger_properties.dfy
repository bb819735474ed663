/** What the store operations promise about the revenue ledgers, across one call and across many. */
module LedgerProperties {
  import opened Wrappers
  import opened Seqs
  import opened CustomerStore

  /** A ledger that was consistent, credited with a sale, grows by exactly the sale's amount. */
  lemma CreditAddsAmount(c: Customer, sale: Sale, now: Timestamp)
    requires Consistent(c)
    ensures Credit(c, sale, now).revenue.totalAmount == c.revenue.totalAmount + sale.amount
  {
    var sales := c.revenue.sales;
    AmountsConcat(sales, [sale]);
    SumAppend(Amounts(sales), [sale.amount]);
    assert Amounts([sale]) == [sale.amount];
  }

  /** A new customer starts with a consistent (empty) ledger, and no other ledger changes. */
  lemma AddCustomerKeepsInvariant(s: Store, draft: Draft, newId: string, now: Timestamp)
    requires LedgerInvariant(s.customers)
    ensures LedgerInvariant(AddCustomer(s, draft, newId, now).customers)
  {
  }

  /**
   Every credited ledger is consistent afterwards, whether or not it was before,
   so the whole-store invariant is kept.
   */
  lemma AddDemoRevenueKeepsInvariant(s: Store, customerId: string, demoId: string, amount: int,
                                     demoType: string, saleId: string, saleDate: Timestamp, now: Timestamp)
    ensures var r := AddDemoRevenue(s, customerId, demoId, amount, demoType, saleId, saleDate, now);
      forall i :: 0 <= i < |s.customers| && s.customers[i].id == customerId ==> Consistent(r.customers[i])
    ensures LedgerInvariant(s.customers) ==>
      LedgerInvariant(AddDemoRevenue(s, customerId, demoId, amount, demoType, saleId, saleDate, now).customers)
  {
  }

  /** An update that does not mention the ledger keeps every ledger consistent. */
  lemma UpdateKeepsInvariant(s: Store, id: string, u: Update)
    requires LedgerInvariant(s.customers)
    requires u.revenue.None?
    ensures LedgerInvariant(UpdateCustomer(s, id, u).customers)
  {
  }

  /** An update that does mention the ledger can break the invariant: the cached total is taken as given. */
  lemma UpdateWithRevenueCanBreakInvariant(c: Customer)
    requires c.revenue.sales == [] && c.revenue.totalAmount == 0
    ensures LedgerInvariant([c])
    ensures !LedgerInvariant(UpdateCustomer(Store([c], None), c.id, NoChange.(revenue := Some(Revenue([], 5, 0)))).customers)
  {
    var r := UpdateCustomer(Store([c], None), c.id, NoChange.(revenue := Some(Revenue([], 5, 0))));
    assert r.customers[0].revenue.totalAmount == 5;
  }

  /** The update that mentions nothing changes nothing. */
  lemma UpdateNothingIsIdentity(s: Store, id: string)
    ensures UpdateCustomer(s, id, NoChange) == s
  {
  }

  /**
   Applying the same update twice is applying it once. A renaming update is no exception:
   after the first pass no customer it touched still carries `id`, so the second changes nothing.
   */
  lemma UpdateIdempotent(s: Store, id: string, u: Update)
    ensures UpdateCustomer(UpdateCustomer(s, id, u), id, u) == UpdateCustomer(s, id, u)
  {
  }

  /** A worked example: one earlier sale of 300 (on any demo), then 500 from a "Virtual" demo. */
  lemma VirtualSaleExample(c: Customer, earlier: Sale, saleId: string, saleDate: Timestamp, now: Timestamp)
    requires c.revenue.sales == [earlier] && earlier.amount == 300
    ensures var r := AddDemoRevenue(Store([c], None), c.id, "d9", 500, "Virtual", saleId, saleDate, now);
      var ledger := r.customers[0].revenue;
      && |ledger.sales| == 2
      && ledger.totalAmount == 800
      && ledger.sales[1].productName == "Virtual Package"
      && ledger.sales[1].demoId == "d9"
  {
    var r := AddDemoRevenue(Store([c], None), c.id, "d9", 500, "Virtual", saleId, saleDate, now);
    assert Amounts(r.customers[0].revenue.sales) == [300, 500];
    assert [300, 500][..1] == [300];
    assert [300][..0] == [];
  }

  // ----- Sequences of store operations -----

  /** One call into the store, with the random ids and clock readings it would use. */
  datatype Action =
    | Select(customer: Option<Customer>)
    | Add(draft: Draft, newId: string, now: Timestamp)
    | Change(id: string, update: Update)
    | Record(customerId: string, demoId: string, amount: int, demoType: string,
             saleId: string, saleDate: Timestamp, now: Timestamp)

  function Step(s: Store, a: Action): Store {
    match a
    case Select(c) => SetSelectedCustomer(s, c)
    case Add(draft, newId, now) => AddCustomer(s, draft, newId, now)
    case Change(id, u) => UpdateCustomer(s, id, u)
    case Record(cid, did, amount, demoType, saleId, saleDate, now) =>
      AddDemoRevenue(s, cid, did, amount, demoType, saleId, saleDate, now)
  }

  function Run(s: Store, actions: seq<Action>): Store
    decreases |actions|
  {
    if actions == [] then s else Run(Step(s, actions[0]), actions[1..])
  }

  /** No update in the run writes a ledger directly. */
  predicate LedgerUntouched(actions: seq<Action>) {
    forall k :: 0 <= k < |actions| && actions[k].Change? ==> actions[k].update.revenue.None?
  }

  /** Any run of store operations that leaves ledgers to `addDemoRevenue` keeps every ledger consistent. */
  lemma {:induction false} RunKeepsInvariant(s: Store, actions: seq<Action>)
    requires LedgerInvariant(s.customers)
    requires LedgerUntouched(actions)
    ensures LedgerInvariant(Run(s, actions).customers)
    decreases |actions|
  {
    if actions != [] {
      var a := actions[0];
      match a {
        case Select(c) =>
        case Add(draft, newId, now) => AddCustomerKeepsInvariant(s, draft, newId, now);
        case Change(id, u) => UpdateKeepsInvariant(s, id, u);
        case Record(cid, did, amount, demoType, saleId, saleDate, now) =>
          AddDemoRevenueKeepsInvariant(s, cid, did, amount, demoType, saleId, saleDate, now);
      }
      assert LedgerUntouched(actions[1..]) by {
        forall k | 0 <= k < |actions[1..]| && actions[1..][k].Change?
          ensures actions[1..][k].update.revenue.None?
        {
          assert actions[1..][k] == actions[k + 1];
        }
      }
      RunKeepsInvariant(Step(s, a), actions[1..]);
    }
  }
}
