/**
 * The session resolver: the context provider's `user`, `userType` and
 * `isLoadingUser`, driven by the outcomes of the session lookup, the profile
 * fetch and sign-out.
 */
module AppContext {
  import opened Base

  // The string values of the `UserType` enum.
  const PERSONAL: string := "user"
  const EMPRESA: string := "company"
  const ADMIN: string := "admin"
  const NONE: string := "none"

  /** The enum's values are exactly four distinct strings. */
  lemma UserTypeValues()
    ensures [PERSONAL, EMPRESA, ADMIN, NONE] == ["user", "company", "admin", "none"]
    ensures |{PERSONAL, EMPRESA, ADMIN, NONE}| == 4
  {
  }

  /** The merged user the context publishes. */
  datatype UserProfile = UserProfile(
    id: string,
    email: string,
    userType: string,
    name: Option<string>,
    balance: Option<real>,
    campaignBudget: Option<real>,
    referralCode: Option<string>,
    referredUsersCount: Option<int>)

  /** `session.user`: its id, its optional email and `user_metadata.full_name`. */
  datatype SessionUser = SessionUser(id: string, email: Option<string>, fullName: Option<string>)

  /** The outcome of `getSession()`. */
  datatype SessionResult = SessionFailed(message: string) | NoSession | ActiveSession(user: SessionUser)

  /** The selected columns of a `profiles` row. `role` is whatever string the row holds. */
  datatype ProfileRow = ProfileRow(
    role: string,
    name: Option<string>,
    balance: Option<real>,
    campaignBudget: Option<real>,
    referralCode: Option<string>,
    referredUsersCount: Option<int>)

  /** The outcome of the `.single()` profile query. */
  datatype ProfileResult = ProfileFailed(message: string) | NoProfile | FoundProfile(row: ProfileRow)

  /** What a resolution pass does besides setting the user: loading flag writes, requests and notices. */
  datatype Effect = LoadingSet(on: bool) | ProfileRequested(id: string) | SignOutRequested | Notified(notice: Notice)

  const ProfileLoadFailed: Notice := Notice("Error", "Failed to load user profile.", Destructive)
  const SignOutFailed: Notice := Notice("Error", "Failed to sign out.", Destructive)
  const SignedOut: Notice := Notice("Sesión cerrada", "Has cerrado sesión correctamente.", Plain)

  /** What `useAppContext()` hands to the pages. */
  datatype Snapshot = Snapshot(user: Option<UserProfile>, userType: string, isLoadingUser: bool)

  /** The user built from the session and its profile row. */
  function MergeProfile(u: SessionUser, p: ProfileRow): UserProfile
  {
    UserProfile(
      u.id,
      OrText(u.email, ""),
      p.role,
      OrElse(p.name, u.fullName),
      p.balance,
      p.campaignBudget,
      p.referralCode,
      p.referredUsersCount)
  }

  /** The net result of one `fetchUserSession` pass. */
  datatype Pass = Pass(user: Option<UserProfile>, userType: string, effects: seq<Effect>)

  /** The specification of one `fetchUserSession` pass, from the outcomes of its two backend calls. */
  function ResolutionPass(s: SessionResult, p: ProfileResult): Pass
  {
    if !s.ActiveSession? then
      Pass(None, NONE, [LoadingSet(true), LoadingSet(false)])
    else if !p.FoundProfile? then
      Pass(None, NONE, [LoadingSet(true), ProfileRequested(s.user.id), Notified(ProfileLoadFailed), LoadingSet(false)])
    else
      var u := MergeProfile(s.user, p.row);
      Pass(Some(u), u.userType, [LoadingSet(true), ProfileRequested(s.user.id), LoadingSet(false)])
  }

  /** The loading flags a run of effects writes, in order. */
  function LoadingWrites(es: seq<Effect>): (r: seq<bool>)
    ensures |r| <= |es|
  {
    if es == [] then []
    else if es[0].LoadingSet? then [es[0].on] + LoadingWrites(es[1..])
    else LoadingWrites(es[1..])
  }

  /** The notices a run of effects emits, in order. */
  function Notices(es: seq<Effect>): (r: seq<Notice>)
    ensures |r| <= |es|
  {
    if es == [] then []
    else if es[0].Notified? then [es[0].notice] + Notices(es[1..])
    else Notices(es[1..])
  }

  /** Without a session (or on a session error) the user is cleared and no profile is fetched. */
  lemma NoSessionClearsUser(s: SessionResult, p: ProfileResult)
    requires !s.ActiveSession?
    ensures ResolutionPass(s, p).user == None && ResolutionPass(s, p).userType == NONE
    ensures forall e :: e in ResolutionPass(s, p).effects ==> !e.ProfileRequested?
    ensures Notices(ResolutionPass(s, p).effects) == []
  {
  }

  /** A failed or empty profile fetch clears the user and emits exactly one error notice. */
  lemma ProfileFailureClearsUser(s: SessionResult, p: ProfileResult)
    requires s.ActiveSession? && !p.FoundProfile?
    ensures ResolutionPass(s, p).user == None && ResolutionPass(s, p).userType == NONE
    ensures ProfileRequested(s.user.id) in ResolutionPass(s, p).effects
    ensures Notices(ResolutionPass(s, p).effects) == [ProfileLoadFailed]
  {
    var es := ResolutionPass(s, p).effects;
    assert es[3..][1..] == [];
    assert Notices(es[2..]) == [ProfileLoadFailed] + Notices(es[3..]);
    assert Notices(es) == Notices(es[1..]) == Notices(es[2..]);
  }

  /** A found profile is merged with the session: id and email from the session, the role unvalidated. */
  lemma SuccessMergesSessionAndProfile(s: SessionResult, p: ProfileResult)
    requires s.ActiveSession? && p.FoundProfile?
    ensures ResolutionPass(s, p).user.Some?
    ensures ResolutionPass(s, p).user.value.id == s.user.id
    ensures ResolutionPass(s, p).user.value.email == (if Truthy(s.user.email) then s.user.email.value else "")
    ensures ResolutionPass(s, p).user.value.name == (if Truthy(p.row.name) then p.row.name else s.user.fullName)
    ensures ResolutionPass(s, p).userType == p.row.role == ResolutionPass(s, p).user.value.userType
    ensures ResolutionPass(s, p).user.value.balance == p.row.balance
    ensures ResolutionPass(s, p).user.value.campaignBudget == p.row.campaignBudget
    ensures ResolutionPass(s, p).user.value.referralCode == p.row.referralCode
    ensures ResolutionPass(s, p).user.value.referredUsersCount == p.row.referredUsersCount
    ensures Notices(ResolutionPass(s, p).effects) == []
  {
    var es := ResolutionPass(s, p).effects;
    assert es[2..][1..] == [];
    assert Notices(es) == Notices(es[1..]) == Notices(es[2..]) == [];
  }

  /** Every pass sets loading true first and false last, and writes the flag nowhere else. */
  lemma PassIsBracketedByLoading(s: SessionResult, p: ProfileResult)
    ensures LoadingWrites(ResolutionPass(s, p).effects) == [true, false]
    ensures ResolutionPass(s, p).effects[0] == LoadingSet(true)
    ensures ResolutionPass(s, p).effects[|ResolutionPass(s, p).effects| - 1] == LoadingSet(false)
  {
    var es := ResolutionPass(s, p).effects;
    if !s.ActiveSession? {
      assert es[1..][1..] == [];
      assert LoadingWrites(es) == [true] + LoadingWrites(es[1..]);
    } else if !p.FoundProfile? {
      assert es[3..][1..] == [];
      assert LoadingWrites(es[1..]) == LoadingWrites(es[2..]) == LoadingWrites(es[3..]) == [false];
      assert LoadingWrites(es) == [true] + LoadingWrites(es[1..]);
    } else {
      assert es[2..][1..] == [];
      assert LoadingWrites(es[1..]) == LoadingWrites(es[2..]) == [false];
      assert LoadingWrites(es) == [true] + LoadingWrites(es[1..]);
    }
  }

  /** The published user and user type agree: no user means NONE, a user means its own type. */
  ghost predicate Agrees(user: Option<UserProfile>, userType: string)
  {
    (user.None? ==> userType == NONE) && (user.Some? ==> userType == user.value.userType)
  }

  lemma PassAgrees(s: SessionResult, p: ProfileResult)
    ensures Agrees(ResolutionPass(s, p).user, ResolutionPass(s, p).userType)
  {
  }

  /** The auth events that re-run the resolution. */
  predicate Refetches(event: string)
  {
    event == "SIGNED_IN" || event == "SIGNED_OUT" || event == "USER_UPDATED"
  }

  lemma RefetchEvents(event: string)
    ensures Refetches(event) <==> event in {"SIGNED_IN", "SIGNED_OUT", "USER_UPDATED"}
  {
  }

  /** The state of the context provider, with a log of what it has done. */
  class AppState {
    var user: Option<UserProfile>
    var userType: string
    var isLoadingUser: bool
    var effects: seq<Effect>

    ghost predicate Valid()
      reads this
    {
      Agrees(user, userType)
    }

    function View(): Snapshot
      reads this
    {
      Snapshot(user, userType, isLoadingUser)
    }

    /** The provider's initial state: no user, NONE, loading. */
    constructor ()
      ensures Valid()
      ensures user == None && userType == NONE && isLoadingUser && effects == []
    {
      user := None;
      userType := NONE;
      isLoadingUser := true;
      effects := [];
    }

    method SetLoading(on: bool)
      modifies this`isLoadingUser, this`effects
      ensures isLoadingUser == on && effects == old(effects) + [LoadingSet(on)]
    {
      isLoadingUser := on;
      effects := effects + [LoadingSet(on)];
    }

    /** `fetchUserSession`, given what `getSession()` and, if it is reached, the profile query return. */
    method FetchUserSession(session: SessionResult, profile: ProfileResult)
      modifies this
      ensures Valid()
      ensures user == ResolutionPass(session, profile).user
      ensures userType == ResolutionPass(session, profile).userType
      ensures effects == old(effects) + ResolutionPass(session, profile).effects
      ensures !isLoadingUser
    {
      SetLoading(true);
      if !session.ActiveSession? {
        user := None;
        userType := NONE;
        SetLoading(false);
        return;
      }
      effects := effects + [ProfileRequested(session.user.id)];
      if !profile.FoundProfile? {
        user := None;
        userType := NONE;
        effects := effects + [Notified(ProfileLoadFailed)];
      } else {
        var merged := MergeProfile(session.user, profile.row);
        user := Some(merged);
        userType := merged.userType;
      }
      SetLoading(false);
    }

    /** The auth-state listener: only three events re-run the resolution. */
    method OnAuthStateChange(event: string, session: SessionResult, profile: ProfileResult)
      requires Valid()
      modifies this
      ensures Valid()
      ensures !Refetches(event) ==>
                user == old(user) && userType == old(userType) && isLoadingUser == old(isLoadingUser) && effects == old(effects)
      ensures Refetches(event) ==>
                user == ResolutionPass(session, profile).user && userType == ResolutionPass(session, profile).userType
                && effects == old(effects) + ResolutionPass(session, profile).effects && !isLoadingUser
    {
      if Refetches(event) {
        FetchUserSession(session, profile);
      }
    }

    /** `login`: publish the given user and its type. */
    method Login(p: UserProfile)
      modifies this`user, this`userType
      ensures Valid()
      ensures user == Some(p) && userType == p.userType
    {
      user := Some(p);
      userType := p.userType;
    }

    /** `logout`, given the outcome of `signOut()`. */
    method Logout(signOut: Outcome)
      requires Valid()
      modifies this
      ensures Valid()
      ensures signOut.Err? ==> user == old(user) && userType == old(userType)
      ensures signOut.Ok? ==> user == None && userType == NONE
      ensures effects == old(effects) + LogoutEffects(signOut)
      ensures !isLoadingUser
    {
      SetLoading(true);
      effects := effects + [SignOutRequested];
      if signOut.Err? {
        effects := effects + [Notified(SignOutFailed)];
      } else {
        user := None;
        userType := NONE;
        effects := effects + [Notified(SignedOut)];
      }
      SetLoading(false);
    }
  }

  /** What `logout` does besides changing the user. */
  function LogoutEffects(signOut: Outcome): seq<Effect>
  {
    [LoadingSet(true), SignOutRequested, Notified(if signOut.Err? then SignOutFailed else SignedOut), LoadingSet(false)]
  }

  /** Logout emits one notice, the error one exactly when sign-out failed, and ends not loading. */
  lemma LogoutNotices(signOut: Outcome)
    ensures Notices(LogoutEffects(signOut)) == [if signOut.Err? then SignOutFailed else SignedOut]
    ensures LoadingWrites(LogoutEffects(signOut)) == [true, false]
  {
    var es := LogoutEffects(signOut);
    assert es[3..][1..] == [];
    assert Notices(es[2..]) == [es[2].notice] + Notices(es[3..]);
    assert Notices(es) == Notices(es[1..]) == Notices(es[2..]);
    assert LoadingWrites(es[1..]) == LoadingWrites(es[2..]) == LoadingWrites(es[3..]) == [false];
    assert LoadingWrites(es) == [true] + LoadingWrites(es[1..]);
  }
}
