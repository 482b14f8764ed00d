/** The admin page: its gate and its greeting. */
module AdminPage {
  import opened Base
  import opened AppContext
  import RoleGate

  datatype Screen = Placeholder | Welcome(name: string)

  predicate Redirect(c: Snapshot)
  {
    RoleGate.Redirects(c, ADMIN)
  }

  function View(c: Snapshot): Screen
  {
    if RoleGate.ShowsContent(c, ADMIN) then Welcome(RoleGate.Greeting(c.user.value)) else Placeholder
  }

  /** Redirect exactly when loading is over and the user is absent or not ADMIN; then the placeholder renders. */
  lemma GateIsExactRole(c: Snapshot)
    ensures Redirect(c) <==> !c.isLoadingUser && (c.user.None? || c.userType != ADMIN)
    ensures View(c).Welcome? <==> !c.isLoadingUser && c.user.Some? && c.userType == ADMIN
    ensures Redirect(c) ==> View(c) == Placeholder
  {
  }

  /** The greeting names the user, or falls back to the email when the name is absent or empty. */
  lemma GreetingFallback(c: Snapshot)
    requires View(c).Welcome?
    ensures Truthy(c.user.value.name) ==> View(c).name == c.user.value.name.value
    ensures !Truthy(c.user.value.name) ==> View(c).name == c.user.value.email
  {
  }
}
