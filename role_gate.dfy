/**
 * The gate that every role-specific page repeats: an effect that redirects to
 * "/" and a render guard that shows a placeholder instead of the content.
 */
module RoleGate {
  import opened Base
  import opened AppContext

  /** The effect's condition: `!isLoadingUser && (!user || userType !== required)`. */
  predicate Redirects(c: Snapshot, required: string)
  {
    !c.isLoadingUser && (c.user.None? || c.userType != required)
  }

  /** The negation of the render guard `isLoadingUser || !user || userType !== required`. */
  predicate ShowsContent(c: Snapshot, required: string)
  {
    !(c.isLoadingUser || c.user.None? || c.userType != required)
  }

  /** Content is shown exactly when loading is over, a user is present and the role matches exactly. */
  lemma ContentNeedsExactRole(c: Snapshot, required: string)
    ensures ShowsContent(c, required) <==> !c.isLoadingUser && c.user.Some? && c.userType == required
  {
  }

  /** A page that redirects never shows its content; once loading is over it does exactly one of the two. */
  lemma RedirectExcludesContent(c: Snapshot, required: string)
    ensures Redirects(c, required) ==> !ShowsContent(c, required)
    ensures !c.isLoadingUser ==> (Redirects(c, required) <==> !ShowsContent(c, required))
    ensures c.isLoadingUser ==> !Redirects(c, required) && !ShowsContent(c, required)
  {
  }

  /** How an optional money field is shown: the amount (formatted by `toFixed(2)`), or "0.00" when absent. */
  datatype MoneyText = Amount(value: real) | Text(text: string)

  function MoneyDisplay(v: Option<real>): (r: MoneyText)
    ensures v.Some? ==> r == Amount(v.value)
    ensures v.None? ==> r == Text("0.00")
  {
    if v.Some? then Amount(v.value) else Text("0.00")
  }

  /** `user.name || user.email`, the greeting of the personal and admin pages. */
  function Greeting(u: UserProfile): (r: string)
    ensures Truthy(u.name) ==> r == u.name.value
    ensures !Truthy(u.name) ==> r == u.email
  {
    OrText(u.name, u.email)
  }
}
