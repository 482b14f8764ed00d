/** The personal-user dashboard: its gate and the fallbacks of the values it shows. */
module UserApp {
  import opened Base
  import opened AppContext
  import RoleGate

  /** What the dashboard shows of the user. */
  datatype Dashboard = Dashboard(
    balance: RoleGate.MoneyText,
    adsViewed: string,
    referredUsers: int,
    referralField: string)

  datatype Screen = Placeholder | Content(dashboard: Dashboard)

  /** The placeholder count of viewed ads. */
  const ADS_VIEWED_PLACEHOLDER: string := "1,234"
  const REFERRAL_PENDING: string := "Generando código..."

  function Render(u: UserProfile): Dashboard
  {
    Dashboard(
      RoleGate.MoneyDisplay(u.balance),
      ADS_VIEWED_PLACEHOLDER,
      if u.referredUsersCount.Some? then u.referredUsersCount.value else 0,
      OrText(u.referralCode, REFERRAL_PENDING))
  }

  /** The text the copy button writes to the clipboard. */
  function CopyText(u: UserProfile): string
  {
    OrText(u.referralCode, "")
  }

  /** Whether the effect issues `router.push("/")`. */
  predicate Redirect(c: Snapshot)
  {
    RoleGate.Redirects(c, PERSONAL)
  }

  function View(c: Snapshot): Screen
  {
    if RoleGate.ShowsContent(c, PERSONAL) then Content(Render(c.user.value)) else Placeholder
  }

  /** The gate: redirect exactly when loading is over and the user is absent or not PERSONAL; content only for PERSONAL. */
  lemma GateIsExactRole(c: Snapshot)
    ensures Redirect(c) <==> !c.isLoadingUser && (c.user.None? || c.userType != PERSONAL)
    ensures View(c).Content? <==> !c.isLoadingUser && c.user.Some? && c.userType == PERSONAL
    ensures Redirect(c) ==> View(c) == Placeholder
  {
  }

  /** The fallbacks: count 0, a pending text in the field, "" on the clipboard, "0.00" for the balance. */
  lemma DisplayFallbacks(u: UserProfile)
    ensures u.referredUsersCount.Some? ==> Render(u).referredUsers == u.referredUsersCount.value
    ensures u.referredUsersCount.None? ==> Render(u).referredUsers == 0
    ensures Truthy(u.referralCode) ==> Render(u).referralField == CopyText(u) == u.referralCode.value
    ensures !Truthy(u.referralCode) ==> Render(u).referralField == REFERRAL_PENDING && CopyText(u) == ""
    ensures u.balance.None? ==> Render(u).balance == RoleGate.Text("0.00")
    ensures u.balance.Some? ==> Render(u).balance == RoleGate.Amount(u.balance.value)
  {
  }
}
