/**
 * The admin dashboard: five fetchers that overwrite its fields, the approve
 * and reject handlers with their ordered backend steps and early returns, and
 * the gate in its effect and render. The backend is a stub that answers from
 * its tables and records every call; whether a call fails is an input.
 */
module AdminApp {
  import opened Base
  import opened AppContext
  import RoleGate

  datatype Profile = Profile(id: string, email: string, role: string, balance: real, createdAt: string)

  datatype Ad = Ad(
    id: string,
    title: string,
    companyId: string,
    budget: real,
    status: string,
    viewsCount: int,
    referralsCount: int)

  datatype Transaction = Transaction(
    id: string,
    userId: string,
    amount: real,
    kind: string,
    createdAt: string,
    status: string)

  /** The backend requests the dashboard issues. */
  datatype Call =
    | SelectProfilesWithRole(role: string)
    | SelectTransactionsNewestFirst
    | SelectAdsWithStatus(adStatus: string)
    | SelectTransactionsWithStatus(txStatus: string)
    | UpdateTransactionStatus(id: string, newStatus: string)
    | UpdateUserBalance(userId: string, amount: real)

  /** The requests of one `fetchData`, in the order `Promise.all` starts them. */
  const FETCH_CALLS: seq<Call> := [
    SelectProfilesWithRole("user"),
    SelectProfilesWithRole("company"),
    SelectTransactionsNewestFirst,
    SelectAdsWithStatus("active"),
    SelectTransactionsWithStatus("pending")
  ]

  /** Whether each of the five fetches of one `fetchData` succeeds. */
  datatype FetchOutcomes = FetchOutcomes(users: bool, companies: bool, transactions: bool, activeAds: bool, pending: bool)

  const UsersFailed: Notice := Notice("Error", "No se pudieron cargar los usuarios.", Destructive)
  const CompaniesFailed: Notice := Notice("Error", "No se pudieron cargar las empresas.", Destructive)
  const TransactionsFailed: Notice := Notice("Error", "No se pudieron cargar las transacciones.", Destructive)
  const ActiveAdsFailed: Notice := Notice("Error", "No se pudieron cargar las campañas activas.", Destructive)
  const PendingFailed: Notice := Notice("Error", "No se pudieron cargar las transacciones pendientes.", Destructive)
  const ApproveFailed: Notice := Notice("Error", "No se pudo aprobar la transacción.", Destructive)
  const BalanceFailed: Notice := Notice("Error", "No se pudo actualizar el balance del usuario.", Destructive)
  const Approved: Notice :=
    Notice("Transacción Aprobada", "La transacción ha sido aprobada y el balance del usuario actualizado.", Positive)
  const RejectFailed: Notice := Notice("Error", "No se pudo rechazar la transacción.", Destructive)
  const Rejected: Notice := Notice("Transacción Rechazada", "La transacción ha sido marcada como rechazada.", Positive)

  // ---------------------------------------------------------------------------
  // Queries

  /** The rows a `.eq(column, value)` filter keeps, in table order. */
  function Filter<T(==,!new)>(s: seq<T>, keep: T -> bool): (r: seq<T>)
    ensures |r| <= |s|
  {
    if s == [] then []
    else if keep(s[0]) then [s[0]] + Filter(s[1..], keep)
    else Filter(s[1..], keep)
  }

  /** A filter keeps exactly the rows that match. */
  lemma {:induction false} FilterMembers<T(!new)>(s: seq<T>, keep: T -> bool, x: T)
    ensures x in Filter(s, keep) <==> x in s && keep(x)
    decreases |s|
  {
    if s != [] {
      assert s == [s[0]] + s[1..];
      FilterMembers(s[1..], keep, x);
    }
  }

  /** A filter keeps every matching row with its multiplicity and no other row. */
  lemma {:induction false} FilterCounts<T(!new)>(s: seq<T>, keep: T -> bool, x: T)
    ensures multiset(Filter(s, keep))[x] == if keep(x) then multiset(s)[x] else 0
    decreases |s|
  {
    if s != [] {
      assert s == [s[0]] + s[1..];
      FilterCounts(s[1..], keep, x);
    }
  }

  function HasRole(role: string): Profile -> bool
  {
    (p: Profile) => p.role == role
  }

  function AdHasStatus(status: string): Ad -> bool
  {
    (a: Ad) => a.status == status
  }

  function TxHasStatus(status: string): Transaction -> bool
  {
    (t: Transaction) => t.status == status
  }

  /** `.update({ status }).eq("id", id)` on the transactions table. */
  function SetStatus(ts: seq<Transaction>, id: string, status: string): (r: seq<Transaction>)
    ensures |r| == |ts|
    ensures forall i :: 0 <= i < |ts| ==> r[i] == if ts[i].id == id then ts[i].(status := status) else ts[i]
  {
    seq(|ts|, i requires 0 <= i < |ts| => if ts[i].id == id then ts[i].(status := status) else ts[i])
  }

  /**
   * The update touches only the rows with that id: row count and every id are kept, each such row
   * ends with the new status, and every other row is left as it was.
   */
  lemma SetStatusTargetsId(ts: seq<Transaction>, id: string, status: string)
    ensures |SetStatus(ts, id, status)| == |ts|
    ensures forall i :: 0 <= i < |ts| ==> SetStatus(ts, id, status)[i].id == ts[i].id
    ensures forall t :: t in SetStatus(ts, id, status) && t.id == id ==> t.status == status
    ensures forall t :: t in ts && t.id != id ==> t in SetStatus(ts, id, status)
    ensures forall t :: t in SetStatus(ts, id, status) && t.id != id ==> t in ts
    ensures (forall t :: t in ts ==> t.id != id) ==> SetStatus(ts, id, status) == ts
  {
    var r := SetStatus(ts, id, status);
    forall t | t in ts && t.id != id
      ensures t in r
    {
      var k :| 0 <= k < |ts| && ts[k] == t;
      assert r[k] == t;
    }
    forall t | t in r
      ensures t.id == id ==> t.status == status
      ensures t.id != id ==> t in ts
    {
      var k :| 0 <= k < |r| && r[k] == t;
      assert ts[k].id == t.id;
    }
  }

  /** Once approved, no row with that id is counted among the pending ones. */
  lemma ApprovedIsNoLongerPending(ts: seq<Transaction>, id: string)
    ensures forall t :: t in Filter(SetStatus(ts, id, "approved"), TxHasStatus("pending")) ==> t.id != id
  {
    var r := SetStatus(ts, id, "approved");
    forall t | t in Filter(r, TxHasStatus("pending"))
      ensures t.id != id
    {
      FilterMembers(r, TxHasStatus("pending"), t);
      var i :| 0 <= i < |r| && r[i] == t;
    }
  }

  // ---------------------------------------------------------------------------
  // What the handlers do, as functions of the backend outcomes

  /** The balance-adjustment calls among a run of calls, in order. */
  function BalanceCalls(cs: seq<Call>): (r: seq<Call>)
    ensures forall c :: c in r ==> c.UpdateUserBalance? && c in cs
  {
    if cs == [] then []
    else if cs[0].UpdateUserBalance? then [cs[0]] + BalanceCalls(cs[1..])
    else BalanceCalls(cs[1..])
  }

  lemma {:induction false} BalanceCallsAppend(a: seq<Call>, b: seq<Call>)
    ensures BalanceCalls(a + b) == BalanceCalls(a) + BalanceCalls(b)
    decreases |a|
  {
    if a == [] {
      assert a + b == b;
    } else {
      assert (a + b)[1..] == a[1..] + b;
      BalanceCallsAppend(a[1..], b);
    }
  }

  lemma {:induction false} NoBalanceCalls(cs: seq<Call>)
    requires forall i :: 0 <= i < |cs| ==> !cs[i].UpdateUserBalance?
    ensures BalanceCalls(cs) == []
    decreases |cs|
  {
    if cs != [] {
      NoBalanceCalls(cs[1..]);
    }
  }

  function ApproveCalls(txId: string, userId: string, amount: real, statusOk: bool, rpcOk: bool): seq<Call>
  {
    [UpdateTransactionStatus(txId, "approved")]
    + if statusOk then [UpdateUserBalance(userId, amount)] + (if rpcOk then FETCH_CALLS else []) else []
  }

  function RejectCalls(txId: string, statusOk: bool): seq<Call>
  {
    [UpdateTransactionStatus(txId, "rejected")] + if statusOk then FETCH_CALLS else []
  }

  /** The notice a fetcher shows: none on success, its error notice on failure. */
  function OnFailure(ok: bool, n: Notice): (r: seq<Notice>)
    ensures r == [] <==> ok
  {
    if ok then [] else [n]
  }

  /** The notices of one `fetchData`: one per failed fetch, in issue order. */
  function FetchNotices(o: FetchOutcomes): seq<Notice>
  {
    OnFailure(o.users, UsersFailed)
    + OnFailure(o.companies, CompaniesFailed)
    + OnFailure(o.transactions, TransactionsFailed)
    + OnFailure(o.activeAds, ActiveAdsFailed)
    + OnFailure(o.pending, PendingFailed)
  }

  /** The five fetches, each appending its own call, append `FETCH_CALLS`. */
  lemma FetchCallsInOrder(c: seq<Call>)
    ensures c + [SelectProfilesWithRole("user")] + [SelectProfilesWithRole("company")] + [SelectTransactionsNewestFirst]
            + [SelectAdsWithStatus("active")] + [SelectTransactionsWithStatus("pending")]
            == c + FETCH_CALLS
  {
  }

  /** The five fetches, each appending its own notice on failure, append `FetchNotices`. */
  lemma FetchNoticesInOrder(n: seq<Notice>, o: FetchOutcomes)
    ensures n + OnFailure(o.users, UsersFailed) + OnFailure(o.companies, CompaniesFailed)
            + OnFailure(o.transactions, TransactionsFailed) + OnFailure(o.activeAds, ActiveAdsFailed)
            + OnFailure(o.pending, PendingFailed)
            == n + FetchNotices(o)
  {
  }

  function ApproveNotices(statusOk: bool, rpcOk: bool, o: FetchOutcomes): seq<Notice>
  {
    if !statusOk then [ApproveFailed]
    else if !rpcOk then [BalanceFailed]
    else [Approved] + FetchNotices(o)
  }

  function RejectNotices(statusOk: bool, o: FetchOutcomes): seq<Notice>
  {
    if !statusOk then [RejectFailed] else [Rejected] + FetchNotices(o)
  }

  /**
   * Approve issues the status update first; the balance call is made exactly once, with the
   * transaction's user and amount, and only when the update succeeded; the refetch only after both.
   */
  lemma ApproveOrdersItsSteps(txId: string, userId: string, amount: real, statusOk: bool, rpcOk: bool)
    ensures ApproveCalls(txId, userId, amount, statusOk, rpcOk)[0] == UpdateTransactionStatus(txId, "approved")
    ensures BalanceCalls(ApproveCalls(txId, userId, amount, statusOk, rpcOk))
            == if statusOk then [UpdateUserBalance(userId, amount)] else []
    ensures statusOk ==> ApproveCalls(txId, userId, amount, statusOk, rpcOk)[1] == UpdateUserBalance(userId, amount)
    ensures |ApproveCalls(txId, userId, amount, statusOk, rpcOk)|
            == if !statusOk then 1 else if !rpcOk then 2 else 2 + |FETCH_CALLS|
    ensures statusOk && rpcOk ==> ApproveCalls(txId, userId, amount, statusOk, rpcOk)[2..] == FETCH_CALLS
  {
    var update, balance := UpdateTransactionStatus(txId, "approved"), UpdateUserBalance(userId, amount);
    var tail := if rpcOk then FETCH_CALLS else [];
    NoBalanceCalls([update]);
    NoBalanceCalls(tail);
    if statusOk {
      assert ApproveCalls(txId, userId, amount, statusOk, rpcOk) == [update] + ([balance] + tail);
      BalanceCallsAppend([balance], tail);
      BalanceCallsAppend([update], [balance] + tail);
      assert ([update] + ([balance] + tail))[2..] == tail;
    } else {
      assert ApproveCalls(txId, userId, amount, statusOk, rpcOk) == [update];
    }
  }

  /** Reject never calls the balance procedure, and refetches only after a successful update. */
  lemma RejectNeverAdjustsBalance(txId: string, statusOk: bool)
    ensures BalanceCalls(RejectCalls(txId, statusOk)) == []
    ensures RejectCalls(txId, statusOk)[0] == UpdateTransactionStatus(txId, "rejected")
    ensures |RejectCalls(txId, statusOk)| == if statusOk then 1 + |FETCH_CALLS| else 1
  {
    var cs := RejectCalls(txId, statusOk);
    forall i | 0 <= i < |cs|
      ensures !cs[i].UpdateUserBalance?
    {
      if i > 0 {
        assert cs[i] == FETCH_CALLS[i - 1];
      }
    }
    NoBalanceCalls(cs);
  }

  /** A failed step ends the handler with its one error notice; success reports before the refetch. */
  lemma HandlerNotices(statusOk: bool, rpcOk: bool, o: FetchOutcomes)
    ensures !statusOk ==> ApproveNotices(statusOk, rpcOk, o) == [ApproveFailed]
    ensures statusOk && !rpcOk ==> ApproveNotices(statusOk, rpcOk, o) == [BalanceFailed]
    ensures Approved in ApproveNotices(statusOk, rpcOk, o) <==> statusOk && rpcOk
    ensures statusOk && rpcOk ==> ApproveNotices(statusOk, rpcOk, o)[0] == Approved
    ensures !statusOk ==> RejectNotices(statusOk, o) == [RejectFailed]
    ensures statusOk ==> RejectNotices(statusOk, o)[0] == Rejected
  {
    assert Approved !in FetchNotices(o);
  }

  /** The calls and notices of approve, as the handler appends them step by step. */
  lemma ApproveSteps(c: seq<Call>, n: seq<Notice>, txId: string, userId: string, amount: real, statusOk: bool, rpcOk: bool,
                     o: FetchOutcomes)
    ensures !statusOk ==>
              && c + [UpdateTransactionStatus(txId, "approved")] == c + ApproveCalls(txId, userId, amount, statusOk, rpcOk)
              && n + [ApproveFailed] == n + ApproveNotices(statusOk, rpcOk, o)
    ensures statusOk && !rpcOk ==>
              && c + [UpdateTransactionStatus(txId, "approved")] + [UpdateUserBalance(userId, amount)]
                 == c + ApproveCalls(txId, userId, amount, statusOk, rpcOk)
              && n + [BalanceFailed] == n + ApproveNotices(statusOk, rpcOk, o)
    ensures statusOk && rpcOk ==>
              && c + [UpdateTransactionStatus(txId, "approved")] + [UpdateUserBalance(userId, amount)] + FETCH_CALLS
                 == c + ApproveCalls(txId, userId, amount, statusOk, rpcOk)
              && n + [Approved] + FetchNotices(o) == n + ApproveNotices(statusOk, rpcOk, o)
  {
  }

  /** The calls and notices of reject, as the handler appends them step by step. */
  lemma RejectSteps(c: seq<Call>, n: seq<Notice>, txId: string, statusOk: bool, o: FetchOutcomes)
    ensures !statusOk ==>
              && c + [UpdateTransactionStatus(txId, "rejected")] == c + RejectCalls(txId, statusOk)
              && n + [RejectFailed] == n + RejectNotices(statusOk, o)
    ensures statusOk ==>
              && c + [UpdateTransactionStatus(txId, "rejected")] + FETCH_CALLS == c + RejectCalls(txId, statusOk)
              && n + [Rejected] + FetchNotices(o) == n + RejectNotices(statusOk, o)
  {
  }

  // ---------------------------------------------------------------------------
  // The gate

  /** The effect's redirect condition. */
  predicate Redirect(c: Snapshot)
  {
    RoleGate.Redirects(c, ADMIN)
  }

  /** The effect's fetch condition: `!isLoadingUser && user && userType === ADMIN`. */
  predicate Fetches(c: Snapshot)
  {
    !c.isLoadingUser && c.user.Some? && c.userType == ADMIN
  }

  datatype Access = Blocked | Admitted

  /** The first render guard: the placeholder unless loading is over, a user is present and the role is ADMIN. */
  function Gate(c: Snapshot): Access
  {
    if RoleGate.ShowsContent(c, ADMIN) then Admitted else Blocked
  }

  /** Redirect and fetch never both happen, and once loading is over one of them does. */
  lemma RedirectAndFetchExclusive(c: Snapshot)
    ensures !(Redirect(c) && Fetches(c))
    ensures !c.isLoadingUser ==> (Redirect(c) || Fetches(c))
    ensures Gate(c) == Admitted <==> Fetches(c)
    ensures Gate(c) == Admitted <==> !c.isLoadingUser && c.user.Some? && c.userType == ADMIN
  {
  }

  datatype Screen = Placeholder | LoadingData | Dashboard(totalUsers: nat, pendingTransactions: nat, activeAds: nat)

  // ---------------------------------------------------------------------------
  // The backend stub

  /** The tables the dashboard reads and writes, and every call made so far. */
  class Backend {
    var profiles: seq<Profile>
    var transactions: seq<Transaction>
    var ads: seq<Ad>
    var calls: seq<Call>

    constructor (profiles: seq<Profile>, transactions: seq<Transaction>, ads: seq<Ad>)
      ensures this.profiles == profiles && this.transactions == transactions && this.ads == ads
      ensures calls == []
    {
      this.profiles := profiles;
      this.transactions := transactions;
      this.ads := ads;
      calls := [];
    }

    method SelectProfiles(role: string, ok: bool) returns (data: Option<seq<Profile>>)
      modifies this`calls
      ensures calls == old(calls) + [SelectProfilesWithRole(role)]
      ensures data == if ok then Some(Filter(profiles, HasRole(role))) else None
    {
      calls := calls + [SelectProfilesWithRole(role)];
      data := if ok then Some(Filter(profiles, HasRole(role))) else None;
    }

    /** The transactions, newest first; the backend does the ordering, so the model returns the table as held. */
    method SelectTransactions(ok: bool) returns (data: Option<seq<Transaction>>)
      modifies this`calls
      ensures calls == old(calls) + [SelectTransactionsNewestFirst]
      ensures data == if ok then Some(transactions) else None
    {
      calls := calls + [SelectTransactionsNewestFirst];
      data := if ok then Some(transactions) else None;
    }

    method SelectAds(status: string, ok: bool) returns (data: Option<seq<Ad>>)
      modifies this`calls
      ensures calls == old(calls) + [SelectAdsWithStatus(status)]
      ensures data == if ok then Some(Filter(ads, AdHasStatus(status))) else None
    {
      calls := calls + [SelectAdsWithStatus(status)];
      data := if ok then Some(Filter(ads, AdHasStatus(status))) else None;
    }

    method SelectTransactionsByStatus(status: string, ok: bool) returns (data: Option<seq<Transaction>>)
      modifies this`calls
      ensures calls == old(calls) + [SelectTransactionsWithStatus(status)]
      ensures data == if ok then Some(Filter(transactions, TxHasStatus(status))) else None
    {
      calls := calls + [SelectTransactionsWithStatus(status)];
      data := if ok then Some(Filter(transactions, TxHasStatus(status))) else None;
    }

    method UpdateStatus(id: string, status: string, ok: bool) returns (success: bool)
      modifies this`calls, this`transactions
      ensures calls == old(calls) + [UpdateTransactionStatus(id, status)]
      ensures success == ok
      ensures transactions == if ok then SetStatus(old(transactions), id, status) else old(transactions)
    {
      calls := calls + [UpdateTransactionStatus(id, status)];
      if ok {
        transactions := SetStatus(transactions, id, status);
      }
      success := ok;
    }

    /** The `update_user_balance` procedure; what it does to balances is the backend's business. */
    method UpdateBalance(userId: string, amount: real, ok: bool) returns (success: bool)
      modifies this`calls
      ensures calls == old(calls) + [UpdateUserBalance(userId, amount)]
      ensures success == ok
    {
      calls := calls + [UpdateUserBalance(userId, amount)];
      success := ok;
    }
  }

  // ---------------------------------------------------------------------------
  // The dashboard

  class AdminDashboard {
    const backend: Backend
    var users: seq<Profile>
    var companies: seq<Profile>
    var transactions: seq<Transaction>
    var activeAds: nat
    var pendingTransactions: nat
    var loading: bool
    var notices: seq<Notice>

    constructor (backend: Backend)
      ensures this.backend == backend
      ensures users == [] && companies == [] && transactions == []
      ensures activeAds == 0 && pendingTransactions == 0 && loading && notices == []
    {
      this.backend := backend;
      users, companies, transactions := [], [], [];
      activeAds, pendingTransactions := 0, 0;
      loading := true;
      notices := [];
    }

    /** The screen for the given context: the two render guards, then the dashboard's figures. */
    function Render(c: Snapshot): (s: Screen)
      reads this
      ensures s != Placeholder <==> Gate(c) == Admitted
      ensures s.Dashboard? ==> s == Dashboard(|users|, pendingTransactions, activeAds) && !loading
    {
      if Gate(c) == Blocked then Placeholder
      else if loading then LoadingData
      else Dashboard(|users|, pendingTransactions, activeAds)
    }

    method FetchUsers(ok: bool)
      modifies this`users, this`notices, backend`calls
      ensures backend.calls == old(backend.calls) + [SelectProfilesWithRole("user")]
      ensures users == if ok then Filter(backend.profiles, HasRole("user")) else old(users)
      ensures notices == old(notices) + OnFailure(ok, UsersFailed)
    {
      var data := backend.SelectProfiles("user", ok);
      if data.None? {
        notices := notices + [UsersFailed];
        return;
      }
      users := data.value;
    }

    method FetchCompanies(ok: bool)
      modifies this`companies, this`notices, backend`calls
      ensures backend.calls == old(backend.calls) + [SelectProfilesWithRole("company")]
      ensures companies == if ok then Filter(backend.profiles, HasRole("company")) else old(companies)
      ensures notices == old(notices) + OnFailure(ok, CompaniesFailed)
    {
      var data := backend.SelectProfiles("company", ok);
      if data.None? {
        notices := notices + [CompaniesFailed];
        return;
      }
      companies := data.value;
    }

    method FetchTransactions(ok: bool)
      modifies this`transactions, this`notices, backend`calls
      ensures backend.calls == old(backend.calls) + [SelectTransactionsNewestFirst]
      ensures transactions == if ok then backend.transactions else old(transactions)
      ensures notices == old(notices) + OnFailure(ok, TransactionsFailed)
    {
      var data := backend.SelectTransactions(ok);
      if data.None? {
        notices := notices + [TransactionsFailed];
        return;
      }
      transactions := data.value;
    }

    method FetchActiveAds(ok: bool)
      modifies this`activeAds, this`notices, backend`calls
      ensures backend.calls == old(backend.calls) + [SelectAdsWithStatus("active")]
      ensures activeAds == if ok then |Filter(backend.ads, AdHasStatus("active"))| else old(activeAds)
      ensures notices == old(notices) + OnFailure(ok, ActiveAdsFailed)
    {
      var data := backend.SelectAds("active", ok);
      if data.None? {
        notices := notices + [ActiveAdsFailed];
        return;
      }
      activeAds := |data.value|;
    }

    method FetchPendingTransactions(ok: bool)
      modifies this`pendingTransactions, this`notices, backend`calls
      ensures backend.calls == old(backend.calls) + [SelectTransactionsWithStatus("pending")]
      ensures pendingTransactions
              == if ok then |Filter(backend.transactions, TxHasStatus("pending"))| else old(pendingTransactions)
      ensures notices == old(notices) + OnFailure(ok, PendingFailed)
    {
      var data := backend.SelectTransactionsByStatus("pending", ok);
      if data.None? {
        notices := notices + [PendingFailed];
        return;
      }
      pendingTransactions := |data.value|;
    }

    /** The state `fetchData` leaves behind with the backend's current tables. */
    ghost predicate Fetched(o: FetchOutcomes, u: seq<Profile>, co: seq<Profile>, t: seq<Transaction>, a: nat, p: nat)
      reads this, backend
    {
      && users == (if o.users then Filter(backend.profiles, HasRole("user")) else u)
      && companies == (if o.companies then Filter(backend.profiles, HasRole("company")) else co)
      && transactions == (if o.transactions then backend.transactions else t)
      && activeAds == (if o.activeAds then |Filter(backend.ads, AdHasStatus("active"))| else a)
      && pendingTransactions == (if o.pending then |Filter(backend.transactions, TxHasStatus("pending"))| else p)
    }

    /** `fetchData`: loading on, the five fetches, loading off. */
    method FetchData(o: FetchOutcomes)
      modifies this`users, this`companies, this`transactions, this`activeAds, this`pendingTransactions
      modifies this`loading, this`notices, backend`calls
      ensures backend.calls == old(backend.calls) + FETCH_CALLS
      ensures Fetched(o, old(users), old(companies), old(transactions), old(activeAds), old(pendingTransactions))
      ensures notices == old(notices) + FetchNotices(o)
      ensures !loading
    {
      ghost var c0, n0 := backend.calls, notices;
      loading := true;
      FetchUsers(o.users);
      FetchCompanies(o.companies);
      FetchTransactions(o.transactions);
      FetchActiveAds(o.activeAds);
      FetchPendingTransactions(o.pending);
      loading := false;
      FetchCallsInOrder(c0);
      FetchNoticesInOrder(n0, o);
    }

    /** `handleApproveTransaction`, given the outcomes of its two steps and of the refetch. */
    method ApproveTransaction(txId: string, userId: string, amount: real, statusOk: bool, rpcOk: bool, o: FetchOutcomes)
      modifies this`users, this`companies, this`transactions, this`activeAds, this`pendingTransactions
      modifies this`loading, this`notices, backend`calls, backend`transactions
      ensures backend.calls == old(backend.calls) + ApproveCalls(txId, userId, amount, statusOk, rpcOk)
      ensures notices == old(notices) + ApproveNotices(statusOk, rpcOk, o)
      ensures backend.transactions
              == if statusOk then SetStatus(old(backend.transactions), txId, "approved") else old(backend.transactions)
      ensures !(statusOk && rpcOk) ==>
                users == old(users) && companies == old(companies) && transactions == old(transactions)
                && activeAds == old(activeAds) && pendingTransactions == old(pendingTransactions)
                && loading == old(loading)
      ensures statusOk && rpcOk ==>
                Fetched(o, old(users), old(companies), old(transactions), old(activeAds), old(pendingTransactions))
    {
      ApproveSteps(backend.calls, notices, txId, userId, amount, statusOk, rpcOk, o);
      var updated := backend.UpdateStatus(txId, "approved", statusOk);
      if !updated {
        notices := notices + [ApproveFailed];
        return;
      }
      var adjusted := backend.UpdateBalance(userId, amount, rpcOk);
      if !adjusted {
        notices := notices + [BalanceFailed];
        return;
      }
      notices := notices + [Approved];
      FetchData(o);
    }

    /** `handleRejectTransaction`, given the outcome of its update and of the refetch. */
    method RejectTransaction(txId: string, statusOk: bool, o: FetchOutcomes)
      modifies this`users, this`companies, this`transactions, this`activeAds, this`pendingTransactions
      modifies this`loading, this`notices, backend`calls, backend`transactions
      ensures backend.calls == old(backend.calls) + RejectCalls(txId, statusOk)
      ensures notices == old(notices) + RejectNotices(statusOk, o)
      ensures backend.transactions
              == if statusOk then SetStatus(old(backend.transactions), txId, "rejected") else old(backend.transactions)
      ensures !statusOk ==>
                users == old(users) && companies == old(companies) && transactions == old(transactions)
                && activeAds == old(activeAds) && pendingTransactions == old(pendingTransactions)
                && loading == old(loading)
      ensures statusOk ==>
                Fetched(o, old(users), old(companies), old(transactions), old(activeAds), old(pendingTransactions))
    {
      RejectSteps(backend.calls, notices, txId, statusOk, o);
      var updated := backend.UpdateStatus(txId, "rejected", statusOk);
      if !updated {
        notices := notices + [RejectFailed];
        return;
      }
      notices := notices + [Rejected];
      FetchData(o);
    }

    /** The effect: redirect when the gate fails, fetch when it passes; returns whether it redirected. */
    method OnContextChange(c: Snapshot, o: FetchOutcomes) returns (redirected: bool)
      modifies this`users, this`companies, this`transactions, this`activeAds, this`pendingTransactions
      modifies this`loading, this`notices, backend`calls
      ensures redirected == Redirect(c)
      ensures backend.calls == old(backend.calls) + if Fetches(c) then FETCH_CALLS else []
      ensures !Fetches(c) ==>
                users == old(users) && companies == old(companies) && transactions == old(transactions)
                && activeAds == old(activeAds) && pendingTransactions == old(pendingTransactions)
                && notices == old(notices) && loading == old(loading)
      ensures Fetches(c) ==>
                Fetched(o, old(users), old(companies), old(transactions), old(activeAds), old(pendingTransactions))
                && notices == old(notices) + FetchNotices(o) && !loading
    {
      redirected := Redirect(c);
      if Fetches(c) {
        FetchData(o);
      }
    }
  }
}
