/** What the derived figures mean, and how they move when the store changes. */
module AnalyticsProperties {
  import opened Seqs
  import opened JsMath
  import opened CustomerStore
  import opened Analytics
  import SeedData
  import LedgerProperties

  // ----- Revenue -----

  /** With every ledger consistent, the cached totals add up to the sum of every sale amount. */
  lemma {:induction false} CachedTotalsMatchSales(customers: seq<Customer>)
    requires LedgerInvariant(customers)
    ensures Sum(Totals(customers)) == Sum(Amounts(AllSales(customers)))
    decreases |customers|
  {
    if customers != [] {
      var init := customers[..|customers| - 1];
      var last := customers[|customers| - 1];
      CachedTotalsMatchSales(init);
      assert Totals(customers) == Totals(init) + [last.revenue.totalAmount];
      SumAppend(Totals(init), [last.revenue.totalAmount]);
      AmountsConcat(AllSales(init), last.revenue.sales);
      SumAppend(Amounts(AllSales(init)), Amounts(last.revenue.sales));
    }
  }

  /** With every ledger consistent, the headline revenue is the sum of every sale amount. */
  lemma TotalRevenueIsSalesSum(customers: seq<Customer>)
    requires LedgerInvariant(customers)
    ensures forall demos :: CalculateMetrics(demos, customers).totalRevenue == Sum(Amounts(AllSales(customers)))
  {
    CachedTotalsMatchSales(customers);
  }

  /**
   Crediting the one customer with a given id, whose ledger is consistent, raises the
   headline revenue by exactly the credited amount.
   */
  lemma CreditRaisesRevenue(s: Store, k: nat, demoId: string, amount: int, demoType: string,
                            saleId: string, saleDate: Timestamp, now: Timestamp)
    requires k < |s.customers| && Consistent(s.customers[k])
    requires forall j :: 0 <= j < |s.customers| && j != k ==> s.customers[j].id != s.customers[k].id
    ensures var r := AddDemoRevenue(s, s.customers[k].id, demoId, amount, demoType, saleId, saleDate, now);
      Sum(Totals(r.customers)) == Sum(Totals(s.customers)) + amount
  {
    var sale := DemoSale(saleId, demoId, amount, demoType, saleDate);
    var r := AddDemoRevenue(s, s.customers[k].id, demoId, amount, demoType, saleId, saleDate, now);
    LedgerProperties.CreditAddsAmount(s.customers[k], sale, now);
    SumBump(Totals(s.customers), Totals(r.customers), k, amount);
  }

  /** Adding a customer leaves every headline metric as it was: the new ledger is empty. */
  lemma AddCustomerKeepsMetrics(demos: seq<Demo>, s: Store, draft: Draft, newId: string, now: Timestamp)
    ensures CalculateMetrics(demos, AddCustomer(s, draft, newId, now).customers) == CalculateMetrics(demos, s.customers)
  {
    var r := AddCustomer(s, draft, newId, now);
    var added := r.customers[|s.customers|];
    assert r.customers == s.customers + [added];
    assert r.customers[..|r.customers| - 1] == s.customers;
    assert AllSales(r.customers) == AllSales(s.customers);
    assert Totals(r.customers) == Totals(s.customers) + [0];
    SumAppend(Totals(s.customers), [0]);
  }

  // ----- Global conversion -----

  /** Crediting a customer adds the credited demo id to the sold set, if that customer exists, and nothing else. */
  lemma SoldIdsAfterCredit(s: Store, customerId: string, demoId: string, amount: int, demoType: string,
                           saleId: string, saleDate: Timestamp, now: Timestamp)
    ensures var r := AddDemoRevenue(s, customerId, demoId, amount, demoType, saleId, saleDate, now);
      SoldDemoIds(r.customers) == SoldDemoIds(s.customers) + (if Known(s.customers, customerId) then {demoId} else {})
  {
    var sale := DemoSale(saleId, demoId, amount, demoType, saleDate);
    var r := AddDemoRevenue(s, customerId, demoId, amount, demoType, saleId, saleDate, now);
    var extra := if Known(s.customers, customerId) then {demoId} else {};
    forall x | x in SoldDemoIds(r.customers)
      ensures x in SoldDemoIds(s.customers) + extra
    {
      var t :| t in AllSales(r.customers) && t.demoId == x;
      var i :| 0 <= i < |r.customers| && t in r.customers[i].revenue.sales;
      if s.customers[i].id == customerId && t !in s.customers[i].revenue.sales {
        assert t == sale;
      } else {
        assert t in AllSales(s.customers);
      }
    }
    forall x | x in SoldDemoIds(s.customers) + extra
      ensures x in SoldDemoIds(r.customers)
    {
      if x in SoldDemoIds(s.customers) {
        var t :| t in AllSales(s.customers) && t.demoId == x;
        var i :| 0 <= i < |s.customers| && t in s.customers[i].revenue.sales;
        assert t in r.customers[i].revenue.sales;
        assert t in AllSales(r.customers);
      } else {
        var i :| 0 <= i < |s.customers| && s.customers[i].id == customerId;
        assert sale in r.customers[i].revenue.sales;
        assert sale in AllSales(r.customers);
      }
    }
  }

  /** Another sale on a demo that already has one leaves the global conversion rate unchanged. */
  lemma ResaleKeepsConversion(demos: seq<Demo>, s: Store, customerId: string, demoId: string, amount: int,
                              demoType: string, saleId: string, saleDate: Timestamp, now: Timestamp)
    requires demoId in SoldDemoIds(s.customers)
    ensures var r := AddDemoRevenue(s, customerId, demoId, amount, demoType, saleId, saleDate, now);
      CalculateMetrics(demos, r.customers).conversionRate == CalculateMetrics(demos, s.customers).conversionRate
  {
    SoldIdsAfterCredit(s, customerId, demoId, amount, demoType, saleId, saleDate, now);
    var r := AddDemoRevenue(s, customerId, demoId, amount, demoType, saleId, saleDate, now);
    assert SoldDemoIds(r.customers) == SoldDemoIds(s.customers);
    RateFollowsSoldIds(demos, r.customers, s.customers);
  }

  /** The global conversion rate depends on the customers only through the set of sold demo ids. */
  lemma RateFollowsSoldIds(demos: seq<Demo>, a: seq<Customer>, b: seq<Customer>)
    requires SoldDemoIds(a) == SoldDemoIds(b)
    ensures ConversionRate(demos, a) == ConversionRate(demos, b)
  {
  }

  /** The sold set is the seed ledgers' d1, d2 and d3. */
  lemma SeedSoldIds()
    ensures SoldDemoIds(SeedData.InitialStore.customers) == {"d1", "d2", "d3"}
  {
    var cs := SeedData.InitialStore.customers;
    assert cs[..1] == [SeedData.TechCorp];
    assert [SeedData.TechCorp][..0] == [];
    assert AllSales([SeedData.TechCorp]) == SeedData.TechCorp.revenue.sales;
    assert AllSales(cs) == SeedData.TechCorp.revenue.sales + SeedData.GlobalSolutions.revenue.sales;
    var sales := AllSales(cs);
    assert sales[0].demoId == "d1" && sales[1].demoId == "d2" && sales[2].demoId == "d3";
    assert sales[0] in sales && sales[1] in sales && sales[2] in sales;
  }

  /**
   The sold ids are not checked against the demo list, so the global rate can pass 100:
   one demo against the seed ledgers, whose sales name three demo ids, gives 300.
   */
  lemma ConversionCanExceedHundred()
    ensures CalculateMetrics([Demo("d1", "Virtual", 12)], SeedData.InitialStore.customers).conversionRate == Percent(300)
  {
    SeedSoldIds();
    assert |{"d1", "d2", "d3"}| == 3;
    RoundRatioExact(300, 1);
  }

  /** Four demos and two distinct sold demo ids give a 50% conversion rate. */
  lemma ConversionExample(demos: seq<Demo>, customers: seq<Customer>)
    requires |demos| == 4 && |SoldDemoIds(customers)| == 2
    ensures CalculateMetrics(demos, customers).conversionRate == Percent(50)
  {
    RoundRatioExact(50, 4);
  }

  // ----- Per category -----

  /** The pie slice and the performance row of a category report the same demo count. */
  lemma PieMatchesPerformance(demos: seq<Demo>, customers: seq<Customer>, catalog: Catalog)
    ensures var pie := DemoTypeData(demos, catalog);
      var perf := DemoPerformance(demos, customers, catalog);
      |pie| == |perf| &&
      forall i :: 0 <= i < |pie| ==> pie[i].value == perf[i].demoCount && pie[i].name == perf[i].info.name
  {
  }

  /**
   Sales count with multiplicity, so a category with at least as many matching sales as
   demos converts at 100% or more, and past 100% once the excess reaches half a percent.
   */
  lemma CategoryConversionCountsEverySale(demos: seq<Demo>, customers: seq<Customer>, key: string, info: DemoType)
    ensures var r := CategoryPerformance(demos, customers, key, info);
      var m := |Filter(AllSales(customers), FromDemos(DemoIds(InCategory(demos, key))))|;
      && (0 < r.demoCount <= m ==> r.conversion >= 100)
      && (0 < r.demoCount && 200 * m >= 201 * r.demoCount ==> r.conversion > 100)
  {
    var r := CategoryPerformance(demos, customers, key, info);
    var m := |Filter(AllSales(customers), FromDemos(DemoIds(InCategory(demos, key))))|;
    if r.demoCount > 0 {
      PercentPastHundred(m, r.demoCount);
    }
  }

  /** Two demos in a category and three sales on them: the category converts at 150%. */
  lemma CategoryConversionExample(demos: seq<Demo>, customers: seq<Customer>, key: string, info: DemoType)
    requires |InCategory(demos, key)| == 2
    requires |Filter(AllSales(customers), FromDemos(DemoIds(InCategory(demos, key))))| == 3
    ensures CategoryPerformance(demos, customers, key, info).conversion == 150
  {
    RoundRatioExact(150, 2);
  }

  /** Every sale's amount where it is attributed to one of `ids`, and 0 where it is not. */
  function MaskedAmounts(sales: seq<Sale>, ids: set<string>): (r: seq<int>)
    ensures |r| == |sales|
    ensures forall i :: 0 <= i < |sales| ==> r[i] == if sales[i].demoId in ids then sales[i].amount else 0
  {
    seq(|sales|, i requires 0 <= i < |sales| => if sales[i].demoId in ids then sales[i].amount else 0)
  }

  /** Summing the filtered sales is summing every sale with the non-matching ones zeroed out. */
  lemma {:induction false} FilteredSumIsMaskedSum(sales: seq<Sale>, ids: set<string>)
    ensures Sum(Amounts(Filter(sales, FromDemos(ids)))) == Sum(MaskedAmounts(sales, ids))
    decreases |sales|
  {
    if sales != [] {
      var init := sales[..|sales| - 1];
      var last := sales[|sales| - 1];
      var masked := MaskedAmounts(sales, ids);
      FilteredSumIsMaskedSum(init, ids);
      assert MaskedAmounts(init, ids) == masked[..|sales| - 1];
      assert Sum(masked) == Sum(MaskedAmounts(init, ids)) + masked[|sales| - 1];
      var kept := Filter(init, FromDemos(ids));
      assert sales[..|sales| - 1] == init;
      if last.demoId in ids {
        assert Filter(sales, FromDemos(ids)) == kept + [last];
        AmountsConcat(kept, [last]);
        SumAppend(Amounts(kept), [last.amount]);
        assert Amounts([last]) == [last.amount];
        assert Sum([last.amount]) == last.amount by { assert [last.amount][..0] == []; }
      } else {
        assert Filter(sales, FromDemos(ids)) == kept;
      }
    }
  }

  /**
   A category's revenue adds up every occurrence of every sale on one of its demos, across
   all ledgers: a demo sold twice contributes both amounts.
   */
  lemma CategoryRevenueCountsMultiplicity(demos: seq<Demo>, customers: seq<Customer>, key: string, info: DemoType)
    ensures CategoryPerformance(demos, customers, key, info).revenue
      == Sum(MaskedAmounts(AllSales(customers), DemoIds(InCategory(demos, key))))
  {
    FilteredSumIsMaskedSum(AllSales(customers), DemoIds(InCategory(demos, key)));
  }

  /** The demo counts of the categories, in table order. */
  function CategoryCounts(demos: seq<Demo>, catalog: Catalog): (r: seq<int>)
    ensures |r| == |catalog|
    ensures forall i :: 0 <= i < |catalog| ==> r[i] == |InCategory(demos, catalog[i].0)|
  {
    seq(|catalog|, i requires 0 <= i < |catalog| => |InCategory(demos, catalog[i].0)|)
  }

  /** With distinct keys a demo lands in at most one category, so the category counts add up to at most the demos. */
  lemma {:induction false} CategoryCountsBounded(demos: seq<Demo>, catalog: Catalog)
    requires DistinctKeys(catalog)
    ensures Sum(CategoryCounts(demos, catalog)) <= |demos|
    decreases |demos|
  {
    var counts := CategoryCounts(demos, catalog);
    if demos == [] {
      assert forall i :: 0 <= i < |counts| ==> counts[i] == 0;
      SumZero(counts);
    } else {
      var init := demos[..|demos| - 1];
      var d := demos[|demos| - 1];
      CategoryCountsBounded(init, catalog);
      var before := CategoryCounts(init, catalog);
      assert forall i :: 0 <= i < |catalog| ==>
        counts[i] == before[i] + (if Lower(d.location) == catalog[i].0 then 1 else 0);
      if k :| 0 <= k < |catalog| && Lower(d.location) == catalog[k].0 {
        SumBump(before, counts, k, 1);
      } else {
        assert counts == before;
      }
    }
  }

  lemma {:induction false} SumZero(xs: seq<int>)
    requires forall i :: 0 <= i < |xs| ==> xs[i] == 0
    ensures Sum(xs) == 0
    decreases |xs|
  {
    if xs != [] {
      SumZero(xs[..|xs| - 1]);
    }
  }

  /** The performance rows' demo counts add up to at most the number of demos. */
  lemma PerformanceCountsBounded(demos: seq<Demo>, customers: seq<Customer>, catalog: Catalog)
    requires DistinctKeys(catalog)
    ensures var perf := DemoPerformance(demos, customers, catalog);
      Sum(seq(|perf|, i requires 0 <= i < |perf| => perf[i].demoCount as int)) <= |demos|
  {
    var perf := DemoPerformance(demos, customers, catalog);
    CategoryCountsBounded(demos, catalog);
    assert seq(|perf|, i requires 0 <= i < |perf| => perf[i].demoCount as int) == CategoryCounts(demos, catalog);
  }
}
