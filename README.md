# Publicaya: a verified model of the dashboard's client and server logic

Publicaya is a role-based web dashboard. Personal users watch ads and refer friends; companies run
campaigns; administrators review pending transactions. Authentication, storage and row-level
authorisation live in a hosted backend. The application itself contributes the following, and this
project models and proves properties of each part:

- **The toast store** (`use_toast.dfy`, module `UseToast`). A process-wide notification store.
  - Its reducer has four actions and keeps at most `TOAST_LIMIT = 1` toast.
  - Ids come from a counter that wraps modulo `Number.MAX_SAFE_INTEGER`.
  - A registry of scheduled removals is keyed by toast id, and subscribed listeners are notified on
    every dispatch.
  - The store is the class `ToastStore`. Its fields are the module-level variables of the source.
    Each `setTimeout` callback still pending is an entry of `timers`, and its firing is the method
    `TimerFired`.
- **The session resolver** (`app_context.dfy`, module `AppContext`). The context provider's `user`,
  `userType` and `isLoadingUser`.
  - They are driven by the outcome of the session lookup, the profile fetch and sign-out.
  - One resolution pass is specified by the function `ResolutionPass`. The class `AppState` is
    proved against it.
  - Loading-flag writes, profile requests and notices are logged as `Effect`s.
- **Role routing and gating**:
  - `home_page.dfy` is the root page's choice among six views.
  - `role_gate.dfy` is the redirect effect and render guard that every role page repeats.
  - `user_app.dfy`, `company_app.dfy`, `usuario_page.dfy` and `admin_page.dfy` are each page's use
    of the gate, with the fallbacks of the values the page shows.
- **The admin dashboard** (`admin_app.dfy`, module `AdminApp`). Five fetchers overwrite the
  dashboard's fields, and `fetchData` runs all five.
  - The approve handler makes a status update, then a balance procedure call, then a refetch. It
    returns early after any failed step.
  - The reject handler makes a status update, then a refetch.
  - The effect either redirects or fetches, and the render has two guards.
  - The backend is a class `Backend`. It answers queries from its tables, applies status updates
    and records every call. Whether each call fails is a parameter.
- **The auth server actions** (`auth_actions.dfy`, module `AuthActions`): `signIn`, `signUp` and
  `signOut`.
  - `signUp` issues a compensating `deleteUser` when the profile insert fails.
  - Each action is a function from the outcomes of its backend calls to its result and the list of
    calls it made.
- **The ad-view dialog** (`ad_interaction_modal.dfy`, module `AdInteractionModal`). A class with
  the dialog's three state flags and the log of its `onAdViewed` reports.
  - The end of the simulated playback is a method that takes the random draw as a parameter.
  - Its rendering is a function that keeps the nested conditionals as written.

`base.dfy` holds the shared vocabulary:

- `Option`, for JavaScript's absent and `null` fields.
- `Outcome`, the result of one backend call.
- `Notice`, the payload of a `toast(...)` call.
- JavaScript truthiness of optional strings. `a || b` treats `""` like an absent value.


Points where the code does less than its own names and comments suggest, and the model follows the code:

- **The role is not validated.** The type `UserType` suggests that a profile role is one of four
  known values.
  - The code stores `profile.role as UserType` unchecked (`context/app-context.tsx:77`), so
    `userType` can be any string.
  - Only the root page's `default:` branch turns an unknown role into the unassigned-role notice
    (`app/page.tsx:38-49`). `AppContext.SuccessMergesSessionAndProfile` states that the role is
    passed through as received. `HomePage.OtherRolesGetNotice` states that the router still never
    shows a dashboard for it.
- **Loading passes can overlap.** The code starts a new `fetchUserSession` on every qualifying
  auth event without cancelling the previous one, so two passes can be in flight at once.
  - The model treats each pass as atomic (`AppState.FetchUserSession`) and proves the true→false
    bracketing of each pass.
- **A failed ad view is not shown as a failure.** The dialog's description, icon and caption test
  `viewed` twice in a row. Since a failed view leaves `viewed` false, the failure texts are
  unreachable. After a failed draw the dialog shows the initial prompt again
  (`AdInteractionModal.FailureBranchesUnreachable`, `AdInteractionModal.FailedViewScenario`).

## Model

| member | source | states |
|---|---|---|
| Base.OrElse | context/app-context.tsx:78 | `a \|\| b` is one of its operands, and it is truthy exactly when at least one operand is |
| Base.OrText | context/app-context.tsx:76 | `a \|\| d` is the value of `a` or the fallback, and it is non-empty exactly when `a` is truthy or the fallback is non-empty |
| UseToast.NextCount | hooks/use-toast.ts:27 | the counter step stays below MAX_SAFE_INTEGER, adds one below the modulus and wraps to 0 at it |
| UseToast.NatToString | hooks/use-toast.ts:28 | `toString` of the counter is a non-empty decimal digit string, of two digits or more from 10 on |
| UseToast.NatToStringInjective | hooks/use-toast.ts:26-29 | equal id texts come from equal counter values |
| UseToast.ConsecutiveIdsDiffer | hooks/use-toast.ts:26-29 | two consecutive `genId` calls never return the same id, including across the wrap-around |
| UseToast.Take | hooks/use-toast.ts:58 | `slice(0, n)` returns the prefix of exactly `n` elements, or the whole list when it is shorter |
| UseToast.WithoutId | hooks/use-toast.ts:89 | the filter keeps a toast exactly when it belonged to the list and its id differs |
| UseToast.ClearedTimeout | hooks/use-toast.ts:67-73 | the reducer deletes a registry key only for DISMISS with a truthy id, and then exactly that id |
| UseToast.AddKeepsOnlyNewest | hooks/use-toast.ts:55-59 | ADD puts the new toast first and trims the list to TOAST_LIMIT, so the list becomes exactly the new toast |
| UseToast.UpdateMergesMatchingOnly | hooks/use-toast.ts:61-65 | UPDATE keeps the length, merges the patch into toasts with the patch's id, leaves every other toast identical and changes nothing when the patch has no id |
| UseToast.MergeKeepsId | hooks/use-toast.ts:64 | merging a patch into the toast it matches keeps the toast's id |
| UseToast.DismissClosesMatchingOnly | hooks/use-toast.ts:75-78 | DISMISS with an id sets `open: false` on exactly the toasts with that id and changes nothing else |
| UseToast.DismissWithoutIdChangesNothing | hooks/use-toast.ts:67-78 | DISMISS without an id neither closes a toast nor deletes a registry key |
| UseToast.RemoveWithoutIdClears | hooks/use-toast.ts:81-86 | REMOVE without an id empties the list |
| UseToast.WithoutIdAppend | hooks/use-toast.ts:87-90 | REMOVE's filter distributes over concatenation, so the surviving toasts keep their order |
| UseToast.WithoutIdCounts | hooks/use-toast.ts:87-90 | REMOVE with an id drops every toast with that id and keeps each other toast with its multiplicity |
| UseToast.WithoutAbsentId | hooks/use-toast.ts:87-90 | REMOVE with an id that no toast has leaves the list unchanged |
| UseToast.ReducePreservesLimit | hooks/use-toast.ts:53-92 | every action keeps a list within TOAST_LIMIT within it |
| UseToast.BroadcastAppend | hooks/use-toast.ts:114-116 | notifying a list of listeners is notifying its first part and then its second, so the calls follow subscription order |
| UseToast.BroadcastDelivers | hooks/use-toast.ts:114-116 | every subscribed listener receives the new state, and no call carries another state or goes to an unsubscribed listener |
| UseToast.IndexOf | hooks/use-toast.ts:181 | `indexOf` is -1 exactly when the listener is absent, otherwise its first position |
| UseToast.UnsubscribeRemovesOne | hooks/use-toast.ts:180-185 | unsubscribing removes one occurrence of the listener when subscribed and none otherwise (as multisets and lengths) |
| UseToast.UnsubscribeKeepsOthersInOrder | hooks/use-toast.ts:180-185 | unsubscribing leaves all other listeners in their order |
| UseToast.ToastStore.constructor | hooks/use-toast.ts:24 | the store starts with count 0, no toasts, no scheduled removals and no listeners, satisfying its invariant |
| UseToast.ToastStore.GenId | hooks/use-toast.ts:26-29 | advances the wrapping counter and returns its decimal text, which is non-empty and differs from the previous id |
| UseToast.ToastStore.Dispatch | hooks/use-toast.ts:118-121 | the toasts become the reducer's result, DISMISS's registry deletion happens, each listener receives the new list in order, and the invariant is kept |
| UseToast.ToastStore.AddToRemoveQueue | hooks/use-toast.ts:98-112 | an id already registered is left alone; otherwise a timer is scheduled and the id registered |
| UseToast.ToastStore.TimerFired | hooks/use-toast.ts:103-109 | a firing timer is consumed, deletes its registry key and dispatches REMOVE for its id to every listener |
| UseToast.ToastStore.PostToast | hooks/use-toast.ts:129-159 | `toast(...)` takes a fresh id, makes the open new toast the only toast, registers its removal and notifies every listener |
| UseToast.ToastStore.Dismiss | hooks/use-toast.ts:138 | the `dismiss` closure closes the toast with its id and deletes the registry key unless the id is "" |
| UseToast.ToastStore.OnOpenChange | hooks/use-toast.ts:146-148 | closing a toast runs DISMISS for its id: the list is reduced, the id's registry key is deleted (unless the id is empty) and the listeners get the new list; opening changes nothing |
| UseToast.ToastStore.Update | hooks/use-toast.ts:132-136 | the `update` closure merges the given fields under the toast's own id and leaves the registry alone |
| UseToast.ToastStore.Subscribe | hooks/use-toast.ts:178-179 | appends the listener |
| UseToast.ToastStore.Unsubscribe | hooks/use-toast.ts:180-185 | removes the first occurrence of the listener, and no other listener or order changes |
| AppContext.UserTypeValues | context/app-context.tsx:7-12 | the user types are the four distinct strings "user", "company", "admin" and "none" |
| AppContext.NoSessionClearsUser | context/app-context.tsx:50-55 | on a session error or no session, the user is cleared, the type is NONE, no profile is requested and nothing is notified |
| AppContext.ProfileFailureClearsUser | context/app-context.tsx:58-72 | when the profile fetch fails or finds nothing, the user is cleared, the type is NONE and exactly one error notice is shown |
| AppContext.SuccessMergesSessionAndProfile | context/app-context.tsx:73-86 | a found profile gives a user with the session's id, the session's email or "", the profile's name or else the metadata's full name, the profile's fields and its role unvalidated as the type, with no notice |
| AppContext.PassIsBracketedByLoading | context/app-context.tsx:43-88 | every pass writes the loading flag exactly twice: true first and false last |
| AppContext.PassAgrees | context/app-context.tsx:43-88 | after every pass, no user means type NONE and a user means the user's own type |
| AppContext.RefetchEvents | context/app-context.tsx:93-97 | exactly SIGNED_IN, SIGNED_OUT and USER_UPDATED re-run the resolution |
| AppContext.LogoutNotices | context/app-context.tsx:109-128 | logout shows one notice (the error one exactly when sign-out failed) and writes loading true then false |
| AppContext.AppState.constructor | context/app-context.tsx:36-38 | the provider starts with no user, type NONE and loading |
| AppContext.AppState.SetLoading | context/app-context.tsx:44 | sets the loading flag and logs the write |
| AppContext.AppState.FetchUserSession | context/app-context.tsx:43-88 | the user, type and effects become those of `ResolutionPass` for the two outcomes, loading ends false and user and type agree |
| AppContext.AppState.OnAuthStateChange | context/app-context.tsx:93-97 | the three refetching events run one resolution pass: user, type and effects as `ResolutionPass`, loading ends false; any other event changes nothing |
| AppContext.AppState.Login | context/app-context.tsx:104-107 | publishes the given user and its own type |
| AppContext.AppState.Logout | context/app-context.tsx:109-128 | a failed sign-out keeps the user and type; otherwise they are cleared; the effects are `LogoutEffects` and loading ends false |
| RoleGate.ContentNeedsExactRole | app/usuario/page.tsx:18-24 | a role page shows its content exactly when loading is over, a user is present and the type equals the required role |
| RoleGate.RedirectExcludesContent | app/usuario/page.tsx:12-24 | a redirecting page never shows content; once loading is over it does exactly one of the two; while loading it does neither |
| UserApp.GateIsExactRole | components/user-app.tsx:16-28 | redirect exactly when loading is over and the user is absent or not PERSONAL; content exactly for PERSONAL; a redirect shows the placeholder |
| UserApp.DisplayFallbacks | components/user-app.tsx:46-89 | shows the balance or "0.00", the referred count or 0, and the referral code or "Generando código..."; the copy button writes the code or "" |
| CompanyApp.GateIsExactRole | components/company-app.tsx:13-25 | redirect exactly when loading is over and the user is absent or not EMPRESA; content exactly for EMPRESA |
| CompanyApp.BudgetFallbackAndFixedMetrics | components/company-app.tsx:44-64 | shows the budget or "0.00"; the campaign and impression figures are the same placeholders for every user |
| UsuarioPage.GateIsExactRole | app/usuario/page.tsx:12-24 | redirect exactly when loading is over and the user is absent or not PERSONAL; the welcome exactly for PERSONAL |
| UsuarioPage.GreetingFallback | app/usuario/page.tsx:28 | the welcome names the user, or the email when the name is absent or empty |
| AdminPage.GateIsExactRole | app/admin/page.tsx:12-24 | redirect exactly when loading is over and the user is absent or not ADMIN; the welcome exactly for ADMIN |
| AdminPage.GreetingFallback | app/admin/page.tsx:28 | the welcome names the admin, or the email when the name is absent or empty |
| HomePage.LoadingFirst | app/page.tsx:19-25 | while loading, the loading view is chosen whatever the user and role |
| HomePage.NoUserGetsAuthPage | app/page.tsx:27-29 | once loading is over without a user, the auth page is chosen |
| HomePage.DashboardsNeedExactRole | app/page.tsx:31-37 | each dashboard is chosen exactly when loading is over, a user is present and the type is its role |
| HomePage.OtherRolesGetNotice | app/page.tsx:38-49 | any other type, "none" or unknown, gives the unassigned-role notice and never a privileged view |
| HomePage.ExactlyOneView | app/page.tsx:19-50 | the loading, auth-page and notice views are each chosen exactly under their own condition |
| HomePage.RouterAgreesWithDashboardGates | app/page.tsx:31-37 | a dashboard the router picks passes that dashboard's own gate and does not redirect |
| HomePage.DashboardGatesAgreeWithRouter | app/page.tsx:31-37 | a dashboard whose gate admits the context is the one the router picks |
| AdminApp.Filter | components/admin-app.tsx:73 | `.eq` returns no more rows than the table holds |
| AdminApp.FilterMembers | components/admin-app.tsx:73 | `.eq` returns a row exactly when the table holds it and it matches |
| AdminApp.FilterCounts | components/admin-app.tsx:73 | `.eq` keeps each matching row with its multiplicity and drops every other row |
| AdminApp.SetStatusTargetsId | components/admin-app.tsx:138-141 | the update keeps the row count and every id, gives each row with that id the new status, leaves every other row as it was, and changes nothing when no row has the id |
| AdminApp.ApprovedIsNoLongerPending | components/admin-app.tsx:137-141 | after approval no row with that id is counted among the pending transactions |
| AdminApp.ApproveOrdersItsSteps | components/admin-app.tsx:137-172 | approve updates the status first, calls the balance procedure exactly once (with the user and amount) only after a successful update, and refetches only after both succeed |
| AdminApp.RejectNeverAdjustsBalance | components/admin-app.tsx:174-192 | reject never calls the balance procedure, updates the status first and refetches only after success |
| AdminApp.HandlerNotices | components/admin-app.tsx:137-192 | a failed step ends a handler with exactly its error notice; the success notice appears exactly when every step succeeded and comes before the refetch's notices |
| AdminApp.RedirectAndFetchExclusive | components/admin-app.tsx:51-58 | the effect never both redirects and fetches, does one of them once loading is over, and fetches exactly when the render gate admits |
| AdminApp.Backend.constructor | components/admin-app.tsx:73 | the backend holds the given tables and has logged no call |
| AdminApp.Backend.SelectProfiles | components/admin-app.tsx:73 | logs the query and returns the profiles with the role, or no data on error |
| AdminApp.Backend.SelectTransactions | components/admin-app.tsx:99 | logs the query and returns the transactions, or no data on error |
| AdminApp.Backend.SelectAds | components/admin-app.tsx:112 | logs the query and returns the ads with the status, or no data on error |
| AdminApp.Backend.SelectTransactionsByStatus | components/admin-app.tsx:125 | logs the query and returns the transactions with the status, or no data on error |
| AdminApp.Backend.UpdateStatus | components/admin-app.tsx:138-141 | logs the update, and on success sets the status of the rows with that id |
| AdminApp.Backend.UpdateBalance | components/admin-app.tsx:152-155 | logs the procedure call with the user and amount and reports its outcome |
| AdminApp.AdminDashboard.constructor | components/admin-app.tsx:40-45 | the dashboard starts with empty lists, zero counts, loading and no notices |
| AdminApp.AdminDashboard.Render | components/admin-app.tsx:194-246 | anything but the placeholder needs the gate to admit; the figures (user count, pending count and active ads) are shown only when not loading |
| AdminApp.AdminDashboard.FetchUsers | components/admin-app.tsx:72-83 | on success the users become the role-"user" profiles, and on error they are kept and one error notice is added |
| AdminApp.AdminDashboard.FetchCompanies | components/admin-app.tsx:85-96 | on success the companies become the role-"company" profiles, and on error they are kept and one error notice is added |
| AdminApp.AdminDashboard.FetchTransactions | components/admin-app.tsx:98-109 | on success the transactions are replaced, and on error they are kept and one error notice is added |
| AdminApp.AdminDashboard.FetchActiveAds | components/admin-app.tsx:111-122 | on success the count becomes the number of active ads, and on error it is kept and one error notice is added |
| AdminApp.AdminDashboard.FetchPendingTransactions | components/admin-app.tsx:124-135 | on success the count becomes the number of pending transactions, and on error it is kept and one error notice is added |
| AdminApp.AdminDashboard.FetchData | components/admin-app.tsx:60-70 | issues the five queries in order; each field is refreshed exactly when its fetch succeeded; one notice per failed fetch; loading ends false |
| AdminApp.AdminDashboard.ApproveTransaction | components/admin-app.tsx:137-172 | the calls and notices are `ApproveCalls` and `ApproveNotices`; the table is updated only on success; a failed step leaves the dashboard as it was; full success refetches against the updated table |
| AdminApp.AdminDashboard.RejectTransaction | components/admin-app.tsx:174-192 | the calls and notices are `RejectCalls` and `RejectNotices`; a failed update leaves the dashboard as it was; success refetches against the updated table |
| AdminApp.AdminDashboard.OnContextChange | components/admin-app.tsx:51-58 | redirects exactly when the gate condition fails; for a loaded admin it runs one fetch pass (calls, refreshed fields and notices as `FetchData`); otherwise calls, data, notices and loading are unchanged |
| AuthActions.RoleName | app/auth/actions.ts:22-30 | the sign-up role is "user" or "company" |
| AuthActions.JsSubstring | app/auth/actions.ts:46 | `substring` clamps both ends to the string and swaps them when reversed; the length is their distance |
| AuthActions.ReferralCodeShape | app/auth/actions.ts:46 | the referral code has at most eight characters and is a slice from position 2 of the random text (empty when the text is short) |
| AuthActions.SignInResults | app/auth/actions.ts:6-20 | sign-in makes one call and returns the backend's message on error and the fixed success message otherwise |
| AuthActions.SignUpAuthFailure | app/auth/actions.ts:25-37 | a rejected auth sign-up returns the backend's message and neither inserts a profile nor deletes a user |
| AuthActions.SignUpInsertsDefaults | app/auth/actions.ts:40-48 | the inserted profile has the created user's id and email, the requested role, zero balance, budget and referral count, and a code of at most 8 characters |
| AuthActions.SignUpCompensates | app/auth/actions.ts:50-58 | the user is deleted exactly once, by its id and as the last call, exactly when the insert fails; the caller then gets the fixed failure message, and gets the success message otherwise |
| AuthActions.InsertErrorIsSwallowed | app/auth/actions.ts:50-54 | the insert error's text never reaches the caller |
| AuthActions.CompanySignUpWithFailedInsert | app/auth/actions.ts:22-55 | a company sign-up whose insert fails deletes the created user and reports "Error al crear el perfil de usuario." |
| AuthActions.SignOutResults | app/auth/actions.ts:61-72 | sign-out returns the backend's message on error and otherwise redirects to "/" |
| AdInteractionModal.OutcomeThreshold | components/ad-interaction-modal.tsx:29 | a view succeeds exactly when the draw exceeds 0.2 |
| AdInteractionModal.FailureBranchesUnreachable | components/ad-interaction-modal.tsx:49-65 | the failure description, cross icon and retry caption never render; any result panel is the success panel |
| AdInteractionModal.StartButtonRule | components/ad-interaction-modal.tsx:73-77 | the start button shows exactly while nothing has been viewed, and is disabled exactly while loading |
| AdInteractionModal.Modal.constructor | components/ad-interaction-modal.tsx:20-23 | the dialog starts closed, not viewed, not loading, with no reports |
| AdInteractionModal.Modal.SetOpen | components/ad-interaction-modal.tsx:41-43 | the trigger button and `onOpenChange` set the open flag |
| AdInteractionModal.Modal.ClickStart | components/ad-interaction-modal.tsx:25-26 | a click on the shown, enabled start button starts loading; otherwise nothing changes |
| AdInteractionModal.Modal.AdDelayElapsed | components/ad-interaction-modal.tsx:28-32 | at the end of the delay, `viewed` becomes the outcome, that outcome is reported once with the ad id, and loading ends |
| AdInteractionModal.Modal.HandleClose | components/ad-interaction-modal.tsx:35-38 | closing closes the dialog and resets `viewed` |
| AdInteractionModal.FailedViewScenario | components/ad-interaction-modal.tsx:25-77 | open, start and a failing draw report `(adId, false)` once and show the initial prompt, the ad area and an enabled start button |
| AdInteractionModal.SuccessfulViewScenario | components/ad-interaction-modal.tsx:25-77 | open, start and a succeeding draw report `(adId, true)` once and show the success texts without a start button |

## Left out

- `lib/supabase.ts` (the backend client) is not part of this model. Every backend call is
  represented by its outcome (`Outcome`, `SessionResult`, `ProfileResult`, `SignUpAuth`, the `ok`
  flags of `AdminApp.Backend`), and the `createClient` helper those files import is not modelled.
- `app/forgot-password/page.tsx` is not part of this model.
- Timers are explicit events: `ToastStore.TimerFired` stands for a removal callback after
  `TOAST_REMOVE_DELAY`, and `Modal.AdDelayElapsed` for the end of the three-second ad delay.
  Neither duration is modelled.
- `Math.random()` is an input: the draw of `Modal.AdDelayElapsed` and the base-36 text behind the
  referral code. The base-36 formatting is not modelled.
- Number formatting (`toFixed(2)`) is not modelled. `RoleGate.MoneyDisplay` keeps the amount as a
  value; money is a `real` that is only passed through, and NaN and floating-point rounding are out
  of scope.
- AdminApp.AdminDashboard.FetchData: models `Promise.all` as the five fetches run one after another
  in array order. The calls are issued in that order in the source too; the order of the error
  notices when several fetches fail depends on backend timing.
- The order `order("created_at", { ascending: false })` is performed by the backend.
  `AdminApp.Backend.SelectTransactions` returns the table as held.
- AdminApp.Backend.UpdateBalance: the `update_user_balance` procedure's effect on balances is
  backend code and is only logged.
- Row-level security, session cookies and the `redirect` exception mechanism of the server actions
  are outside the application code. `AuthActions.SignOut` returns `Redirected("/")` instead.
- React mechanics are not modelled:
  - rendering, re-render timing and effect dependency lists
  - `useToast`/`getSnapshot`, which only read the store
  - the hook's `useEffect` subscription lifecycle, though `ToastStore.Subscribe` and
    `ToastStore.Unsubscribe` model its two halves
  - the auth listener's teardown
  - `console.error` logging
- Toasts carry title, description and variant. The `action` element and other React props are
  left out.
- AuthActions.SignUp: covers only the case where a successful auth sign-up returns a user object.
  If one returned no user, `data.user!.id` would throw on the compensation path. That path depends
  on backend behaviour outside the application.
- AppContext.AppState.FetchUserSession: each pass is atomic. Interleaving of concurrent passes,
  which the source permits, is not modelled.
- The static texts and layout of the pages are left out. Only the texts whose choice depends on
  state are modelled: notices, fallbacks, placeholders and the dialog's texts.
