/** The company dashboard: its gate, the budget fallback and its fixed metrics. */
module CompanyApp {
  import opened Base
  import opened AppContext
  import RoleGate

  datatype Dashboard = Dashboard(campaignBudget: RoleGate.MoneyText, activeCampaigns: string, impressions: string)

  datatype Screen = Placeholder | Content(dashboard: Dashboard)

  /** The placeholder metrics the dashboard shows. */
  const ACTIVE_CAMPAIGNS: string := "5"
  const IMPRESSIONS: string := "150,000"

  function Render(u: UserProfile): Dashboard
  {
    Dashboard(RoleGate.MoneyDisplay(u.campaignBudget), ACTIVE_CAMPAIGNS, IMPRESSIONS)
  }

  predicate Redirect(c: Snapshot)
  {
    RoleGate.Redirects(c, EMPRESA)
  }

  function View(c: Snapshot): Screen
  {
    if RoleGate.ShowsContent(c, EMPRESA) then Content(Render(c.user.value)) else Placeholder
  }

  /** Redirect exactly when loading is over and the user is absent or not EMPRESA; content only for EMPRESA. */
  lemma GateIsExactRole(c: Snapshot)
    ensures Redirect(c) <==> !c.isLoadingUser && (c.user.None? || c.userType != EMPRESA)
    ensures View(c).Content? <==> !c.isLoadingUser && c.user.Some? && c.userType == EMPRESA
    ensures Redirect(c) ==> View(c) == Placeholder
  {
  }

  /** An absent budget shows "0.00"; the two metrics are the same for every user. */
  lemma BudgetFallbackAndFixedMetrics(u: UserProfile, v: UserProfile)
    ensures u.campaignBudget.None? ==> Render(u).campaignBudget == RoleGate.Text("0.00")
    ensures u.campaignBudget.Some? ==> Render(u).campaignBudget == RoleGate.Amount(u.campaignBudget.value)
    ensures Render(u).activeCampaigns == Render(v).activeCampaigns == ACTIVE_CAMPAIGNS
    ensures Render(u).impressions == Render(v).impressions == IMPRESSIONS
  {
  }
}
