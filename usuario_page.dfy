/** The personal-user page: its gate and its greeting. */
module UsuarioPage {
  import opened Base
  import opened AppContext
  import RoleGate

  datatype Screen = Placeholder | Welcome(name: string)

  predicate Redirect(c: Snapshot)
  {
    RoleGate.Redirects(c, PERSONAL)
  }

  function View(c: Snapshot): Screen
  {
    if RoleGate.ShowsContent(c, PERSONAL) then Welcome(RoleGate.Greeting(c.user.value)) else Placeholder
  }

  /** Redirect exactly when loading is over and the user is absent or not PERSONAL; then the placeholder renders. */
  lemma GateIsExactRole(c: Snapshot)
    ensures Redirect(c) <==> !c.isLoadingUser && (c.user.None? || c.userType != PERSONAL)
    ensures View(c).Welcome? <==> !c.isLoadingUser && c.user.Some? && c.userType == PERSONAL
    ensures Redirect(c) ==> View(c) == Placeholder
  {
  }

  /** The greeting names the user, or falls back to the email when the name is absent or empty. */
  lemma GreetingFallback(c: Snapshot)
    requires View(c).Welcome?
    ensures Truthy(c.user.value.name) ==> View(c).name == c.user.value.name.value
    ensures !Truthy(c.user.value.name) ==> View(c).name == c.user.value.email
  {
  }
}
