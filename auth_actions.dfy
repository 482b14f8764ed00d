/**
 * The server actions for signing in, signing up (with a compensating delete
 * when the profile row cannot be created) and signing out. Each action is a
 * function from the outcomes of its backend calls to its result and the calls
 * it issued, in order.
 */
module AuthActions {
  import opened Base

  /** `{ success, message }`. */
  datatype ActionResult = ActionResult(success: bool, message: string)

  /** `signOut` either returns a failure or ends in `redirect(path)`. */
  datatype SignOutResult = SignOutFailed(result: ActionResult) | Redirected(path: string)

  /** The role parameter of `signUp`, typed `"user" | "company"`. */
  datatype SignUpRole = UserRole | CompanyRole

  function RoleName(r: SignUpRole): (s: string)
    ensures s == "user" || s == "company"
    ensures r == UserRole <==> s == "user"
  {
    match r
    case UserRole => "user"
    case CompanyRole => "company"
  }

  /** `data.user` after a successful auth sign-up. */
  datatype CreatedUser = CreatedUser(id: string, email: Option<string>)

  /** The outcome of `auth.signUp`. */
  datatype SignUpAuth = AuthRejected(message: string) | AuthCreated(user: CreatedUser)

  /** The row `signUp` inserts into `profiles`. */
  datatype ProfileInsert = ProfileInsert(
    id: string,
    email: Option<string>,
    role: string,
    balance: real,
    campaignBudget: real,
    referralCode: string,
    referredUsersCount: int)

  /** The backend calls the actions issue. */
  datatype AuthCall =
    | SignInWithPassword(email: string, password: string)
    | SignUpWithRole(email: string, password: string, role: string)
    | InsertProfile(row: ProfileInsert)
    | DeleteUser(id: string)
    | SignOutSession

  /** An action's result with the calls it made. */
  datatype Run<R> = Run(result: R, calls: seq<AuthCall>)

  const SIGN_IN_OK: string := "Inicio de sesión exitoso."
  const PROFILE_CREATE_FAILED: string := "Error al crear el perfil de usuario."
  const SIGN_UP_OK: string := "Registro exitoso. Por favor, verifica tu correo electrónico si es necesario."

  function SignIn(email: string, password: string, outcome: Outcome): Run<ActionResult>
  {
    Run(
      if outcome.Err? then ActionResult(false, outcome.message) else ActionResult(true, SIGN_IN_OK),
      [SignInWithPassword(email, password)])
  }

  function Clamp(i: int, len: nat): (r: nat)
    ensures r <= len
  {
    if i < 0 then 0 else if i > len then len else i
  }

  /** JavaScript's `s.substring(start, end)`: both ends clamped to the string, swapped when reversed. */
  function JsSubstring(s: string, start: int, end: int): (r: string)
    ensures |r| <= |s|
    ensures 0 <= start <= end <= |s| ==> r == s[start..end]
    ensures |r| == if Clamp(start, |s|) <= Clamp(end, |s|) then Clamp(end, |s|) - Clamp(start, |s|)
                   else Clamp(start, |s|) - Clamp(end, |s|)
  {
    var a, b := Clamp(start, |s|), Clamp(end, |s|);
    if a <= b then s[a..b] else s[b..a]
  }

  /** The referral code: characters 2 to 10 of the random base-36 text. */
  function ReferralCode(random: string): string
  {
    JsSubstring(random, 2, 10)
  }

  /** The code has at most eight characters, is empty for texts of two characters or fewer, and is a slice of the text. */
  lemma ReferralCodeShape(random: string)
    ensures |ReferralCode(random)| <= 8
    ensures |random| <= 2 ==> ReferralCode(random) == ""
    ensures |random| >= 10 ==> ReferralCode(random) == random[2..10]
    ensures 2 <= |random| <= 10 ==> ReferralCode(random) == random[2..]
  {
  }

  /** The profile row built for a newly created user. */
  function NewProfile(u: CreatedUser, role: SignUpRole, random: string): ProfileInsert
  {
    ProfileInsert(u.id, u.email, RoleName(role), 0.0, 0.0, ReferralCode(random), 0)
  }

  /**
   * `signUp`, given the outcome of the auth sign-up, the random text behind the
   * referral code and the outcome of the profile insert.
   */
  function SignUp(email: string, password: string, role: SignUpRole, auth: SignUpAuth, random: string, insert: Outcome)
    : Run<ActionResult>
  {
    var signUp := SignUpWithRole(email, password, RoleName(role));
    if auth.AuthRejected? then
      Run(ActionResult(false, auth.message), [signUp])
    else
      var row := NewProfile(auth.user, role, random);
      if insert.Err? then
        Run(ActionResult(false, PROFILE_CREATE_FAILED), [signUp, InsertProfile(row), DeleteUser(auth.user.id)])
      else
        Run(ActionResult(true, SIGN_UP_OK), [signUp, InsertProfile(row)])
  }

  function SignOut(outcome: Outcome): Run<SignOutResult>
  {
    Run(
      if outcome.Err? then SignOutFailed(ActionResult(false, outcome.message)) else Redirected("/"),
      [SignOutSession])
  }

  /** How many delete calls a run of calls holds. */
  function Deletes(cs: seq<AuthCall>): (n: nat)
    ensures n <= |cs|
    ensures n == 0 <==> forall i :: 0 <= i < |cs| ==> !cs[i].DeleteUser?
  {
    if cs == [] then 0 else (if cs[0].DeleteUser? then 1 else 0) + Deletes(cs[1..])
  }

  /** The inserts among a run of calls. */
  function Inserts(cs: seq<AuthCall>): (n: nat)
    ensures n <= |cs|
    ensures n == 0 <==> forall i :: 0 <= i < |cs| ==> !cs[i].InsertProfile?
  {
    if cs == [] then 0 else (if cs[0].InsertProfile? then 1 else 0) + Inserts(cs[1..])
  }

  /** Sign-in returns the backend's message on error and the fixed success message otherwise. */
  lemma SignInResults(email: string, password: string, outcome: Outcome)
    ensures SignIn(email, password, outcome).calls == [SignInWithPassword(email, password)]
    ensures outcome.Err? ==> SignIn(email, password, outcome).result == ActionResult(false, outcome.message)
    ensures outcome.Ok? ==> SignIn(email, password, outcome).result == ActionResult(true, SIGN_IN_OK)
  {
  }

  /** A rejected auth step returns the raw backend message and makes neither an insert nor a delete. */
  lemma SignUpAuthFailure(email: string, password: string, role: SignUpRole, message: string, random: string, insert: Outcome)
    ensures SignUp(email, password, role, AuthRejected(message), random, insert).result == ActionResult(false, message)
    ensures Inserts(SignUp(email, password, role, AuthRejected(message), random, insert).calls) == 0
    ensures Deletes(SignUp(email, password, role, AuthRejected(message), random, insert).calls) == 0
  {
  }

  /** The inserted row carries the requested role, the created user's id and email, and zeroed counters. */
  lemma SignUpInsertsDefaults(email: string, password: string, role: SignUpRole, u: CreatedUser, random: string, insert: Outcome)
    ensures |SignUp(email, password, role, AuthCreated(u), random, insert).calls| >= 2
    ensures SignUp(email, password, role, AuthCreated(u), random, insert).calls[1].InsertProfile?
    ensures var row := SignUp(email, password, role, AuthCreated(u), random, insert).calls[1].row;
            && row.role == RoleName(role) && row.id == u.id && row.email == u.email
            && row.balance == 0.0 && row.campaignBudget == 0.0 && row.referredUsersCount == 0
            && |row.referralCode| <= 8
  {
    ReferralCodeShape(random);
  }

  /**
   * The delete is issued exactly once, with the created id, exactly when the insert fails, and the
   * caller then gets the fixed message whatever the backend said.
   */
  lemma {:induction false} SignUpCompensates(
    email: string, password: string, role: SignUpRole, auth: SignUpAuth, random: string, insert: Outcome)
    ensures var run := SignUp(email, password, role, auth, random, insert);
            Deletes(run.calls) == (if auth.AuthCreated? && insert.Err? then 1 else 0)
    ensures auth.AuthCreated? && insert.Err? ==>
              var run := SignUp(email, password, role, auth, random, insert);
              run.calls[|run.calls| - 1] == DeleteUser(auth.user.id)
              && run.result == ActionResult(false, PROFILE_CREATE_FAILED)
    ensures auth.AuthCreated? && insert.Ok? ==>
              SignUp(email, password, role, auth, random, insert).result == ActionResult(true, SIGN_UP_OK)
  {
    var cs := SignUp(email, password, role, auth, random, insert).calls;
    if auth.AuthCreated? {
      assert cs[1..][0].InsertProfile?;
      if insert.Err? {
        assert cs[1..][1..][1..] == [];
        assert Deletes(cs) == Deletes(cs[1..]) == Deletes(cs[1..][1..]) == 1;
      } else {
        assert cs[1..][1..] == [];
        assert Deletes(cs) == Deletes(cs[1..]) == 0;
      }
    } else {
      assert cs[1..] == [];
      assert Deletes(cs) == 0;
    }
  }

  /** The insert error text never reaches the caller: two different failures give the same result. */
  lemma InsertErrorIsSwallowed(
    email: string, password: string, role: SignUpRole, u: CreatedUser, random: string, m1: string, m2: string)
    ensures SignUp(email, password, role, AuthCreated(u), random, Err(m1))
         == SignUp(email, password, role, AuthCreated(u), random, Err(m2))
  {
  }

  /** The scenario of a company sign-up whose profile insert fails. */
  lemma CompanySignUpWithFailedInsert(id: string, random: string, m: string)
    ensures var run := SignUp("a@x.com", "pw123456", CompanyRole, AuthCreated(CreatedUser(id, Some("a@x.com"))), random, Err(m));
            && run.result == ActionResult(false, "Error al crear el perfil de usuario.")
            && DeleteUser(id) in run.calls
  {
  }

  /** Sign-out returns the backend's message on error and otherwise redirects to "/". */
  lemma SignOutResults(outcome: Outcome)
    ensures outcome.Err? ==> SignOut(outcome).result == SignOutFailed(ActionResult(false, outcome.message))
    ensures outcome.Ok? ==> SignOut(outcome).result == Redirected("/")
  {
  }
}
