/** The two customers the store starts with. */
module SeedData {
  import opened Wrappers
  import opened CustomerStore

  const TechCorp: Customer := Customer(
    "1",
    Profile(
      "TechCorp Industries", "Manufacturing", "1000-5000", "$100k-500k", "techcorp.com", Active,
      ["Legacy system integration issues", "Scalability challenges", "Data security concerns"],
      ["Cloud deployment", "Real-time analytics", "Mobile access", "Enterprise-grade security"],
      [ Stakeholder("s1", "John Smith", "CTO", DecisionMaker, "john.smith@techcorp.com",
                    Some("(555) 123-4567"), Some("Primary technical contact")),
        Stakeholder("s2", "Sarah Johnson", "IT Director", TechnicalEvaluator, "sarah.j@techcorp.com",
                    None, Some("Focused on security requirements")) ],
      Some("Legacy on-premise system"),
      "Q2 2024",
      "High-priority prospect with immediate needs",
      1710460800000),  // 2024-03-15
    Revenue(
      [ Sale("s1", "d1", "Enterprise License", 150000, 1708387200000, 1,      // 2024-02-20
             Some("Annual enterprise license with support")),
        Sale("s2", "d2", "Department Licenses", 75000, 1709596800000, 5,      // 2024-03-05
             Some("Expansion to marketing and sales departments")) ],
      225000,
      1709596800000))

  const GlobalSolutions: Customer := Customer(
    "2",
    Profile(
      "Global Solutions Ltd", "Technology", "500-1000", "$50k-100k", "globalsolutions.io", Prospect,
      ["High operational costs", "Manual process inefficiencies", "Limited visibility into metrics"],
      ["Cost optimization tools", "Process automation", "Advanced reporting", "Integration capabilities"],
      [ Stakeholder("s3", "Michael Chang", "COO", DecisionMaker, "m.chang@globalsolutions.io",
                    Some("(555) 987-6543"), Some("Interested in operational efficiency gains")),
        Stakeholder("s4", "Emma Wilson", "Finance Director", FinancialApprover, "e.wilson@globalsolutions.io",
                    None, Some("Focused on ROI and cost savings")) ],
      Some("Multiple disconnected tools"),
      "Q3 2024",
      "Looking for comprehensive solution to replace current tech stack",
      1710028800000),  // 2024-03-10
    Revenue(
      [ Sale("s3", "d3", "Professional License", 45000, 1710460800000, 3,     // 2024-03-15
             Some("Initial deployment for core team")) ],
      45000,
      1710460800000))

  /** The initial state: both seed customers, nothing selected. */
  const InitialStore: Store := Store([TechCorp, GlobalSolutions], None)

  /** The hand-written totals agree with the seed sales: 150000 + 75000 = 225000 and 45000 = 45000. */
  lemma SeedLedgersConsistent()
    ensures LedgerInvariant(InitialStore.customers)
    ensures InitialStore.customers[0].revenue.totalAmount == 225000
    ensures InitialStore.customers[1].revenue.totalAmount == 45000
  {
    assert Amounts(TechCorp.revenue.sales) == [150000, 75000];
    assert Amounts(GlobalSolutions.revenue.sales) == [45000];
    assert [150000, 75000][..1] == [150000];
    assert [150000][..0] == [] && [45000][..0] == [];
    assert Consistent(TechCorp) && Consistent(GlobalSolutions);
  }
}
