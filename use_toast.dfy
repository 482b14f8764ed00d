/**
 * The process-wide notification store: a reducer over a toast list capped at
 * TOAST_LIMIT entries, a wrapping id counter, a registry of scheduled removals
 * keyed by toast id, and a list of subscribed listeners.
 */
module UseToast {
  import opened Base

  /** At most this many toasts are held at once. */
  const TOAST_LIMIT: nat := 1
  /** Delay before a scheduled removal fires; timers are explicit events here, so it only documents the source. */
  const TOAST_REMOVE_DELAY: nat := 1000000
  /** JavaScript's Number.MAX_SAFE_INTEGER, the modulus of the id counter. */
  const MAX_SAFE_INTEGER: nat := 9007199254740991

  /** A toast as the store holds it. */
  datatype Toast = Toast(id: string, open: bool, title: string, description: string, variant: Variant)

  /** A `Partial<ToasterToast>`: every field may be absent. */
  datatype ToastPatch = ToastPatch(
    id: Option<string>,
    open: Option<bool>,
    title: Option<string>,
    description: Option<string>,
    variant: Option<Variant>)

  /** The four reducer actions; `toastId` is optional for DISMISS and REMOVE. */
  datatype Action =
    | AddToast(toast: Toast)
    | UpdateToast(patch: ToastPatch)
    | DismissToast(toastId: Option<string>)
    | RemoveToast(toastId: Option<string>)

  /** Listeners are compared by identity; a number stands for that identity. */
  type ListenerId = nat

  /** One call `listener(state)` made by `callListeners`. */
  datatype Delivery = Delivery(listener: ListenerId, toasts: seq<Toast>)

  // ---------------------------------------------------------------------------
  // Ids

  /** The counter step of `genId`: add one, modulo MAX_SAFE_INTEGER. */
  function NextCount(c: nat): (r: nat)
    ensures r < MAX_SAFE_INTEGER
    ensures c + 1 < MAX_SAFE_INTEGER ==> r == c + 1
    ensures c + 1 == MAX_SAFE_INTEGER ==> r == 0
  {
    (c + 1) % MAX_SAFE_INTEGER
  }

  function DigitChar(d: nat): (c: char)
    requires d < 10
    ensures '0' <= c <= '9'
  {
    (('0' as int) + d) as char
  }

  /** `n.toString()` for a non-negative integer: its decimal digits. */
  function NatToString(n: nat): (s: string)
    ensures |s| >= 1
    ensures n >= 10 ==> |s| >= 2
    ensures forall k :: 0 <= k < |s| ==> '0' <= s[k] <= '9'
    decreases n
  {
    if n < 10 then [DigitChar(n)] else NatToString(n / 10) + [DigitChar(n % 10)]
  }

  /** Distinct counter values give distinct ids. */
  lemma {:induction false} NatToStringInjective(a: nat, b: nat)
    requires NatToString(a) == NatToString(b)
    ensures a == b
    decreases a
  {
    var sa, sb := NatToString(a), NatToString(b);
    if a < 10 && b < 10 {
      assert sa[0] == DigitChar(a) && sb[0] == DigitChar(b);
    } else if a >= 10 && b >= 10 {
      assert sa[|sa| - 1] == DigitChar(a % 10);
      assert sb[|sb| - 1] == DigitChar(b % 10);
      assert sa[..|sa| - 1] == NatToString(a / 10);
      assert sb[..|sb| - 1] == NatToString(b / 10);
      NatToStringInjective(a / 10, b / 10);
    }
  }

  /** Two consecutive calls of `genId` never return the same id. */
  lemma ConsecutiveIdsDiffer(c: nat)
    requires c < MAX_SAFE_INTEGER
    ensures NatToString(NextCount(c)) != NatToString(c)
  {
    if NatToString(NextCount(c)) == NatToString(c) {
      NatToStringInjective(NextCount(c), c);
    }
  }

  // ---------------------------------------------------------------------------
  // The reducer

  /** `t.id === id`: an absent id equals no toast's id. */
  predicate SameId(t: Toast, id: Option<string>)
  {
    id == Some(t.id)
  }

  /** `{ ...t, ...p }`: the fields the patch carries override those of the toast. */
  function Merge(t: Toast, p: ToastPatch): Toast
  {
    Toast(
      if p.id.Some? then p.id.value else t.id,
      if p.open.Some? then p.open.value else t.open,
      if p.title.Some? then p.title.value else t.title,
      if p.description.Some? then p.description.value else t.description,
      if p.variant.Some? then p.variant.value else t.variant)
  }

  /** `s.slice(0, n)`. */
  function Take<T>(s: seq<T>, n: nat): (r: seq<T>)
    ensures |r| == if n <= |s| then n else |s|
    ensures r == s[..|r|]
    ensures |s| <= n ==> r == s
  {
    if n <= |s| then s[..n] else s
  }

  /** `toasts.filter((t) => t.id !== id)`. */
  function WithoutId(ts: seq<Toast>, id: string): (r: seq<Toast>)
    ensures |r| <= |ts|
    ensures forall t :: t in r <==> t in ts && t.id != id
  {
    if ts == [] then []
    else if ts[0].id != id then [ts[0]] + WithoutId(ts[1..], id)
    else WithoutId(ts[1..], id)
  }

  /** The reducer, without the side effect of DISMISS on the timeout registry (see `ClearedTimeout`). */
  function Reduce(ts: seq<Toast>, a: Action): seq<Toast>
  {
    match a
    case AddToast(t) => Take([t] + ts, TOAST_LIMIT)
    case UpdateToast(p) =>
      seq(|ts|, i requires 0 <= i < |ts| => if SameId(ts[i], p.id) then Merge(ts[i], p) else ts[i])
    case DismissToast(id) =>
      seq(|ts|, i requires 0 <= i < |ts| => if SameId(ts[i], id) then ts[i].(open := false) else ts[i])
    case RemoveToast(id) =>
      if id.None? then [] else WithoutId(ts, id.value)
  }

  /** The registry key the reducer deletes: only a DISMISS whose id is truthy (present and not ""). */
  function ClearedTimeout(a: Action): (r: set<string>)
    ensures |r| <= 1
    ensures r != {} <==> a.DismissToast? && Truthy(a.toastId)
    ensures forall id :: id in r ==> a == DismissToast(Some(id))
  {
    if a.DismissToast? && Truthy(a.toastId) then {a.toastId.value} else {}
  }

  /** ADD puts the new toast first and keeps at most TOAST_LIMIT toasts, so only the new one survives. */
  lemma AddKeepsOnlyNewest(ts: seq<Toast>, t: Toast)
    ensures |Reduce(ts, AddToast(t))| <= TOAST_LIMIT
    ensures Reduce(ts, AddToast(t)) == [t]
  {
  }

  /** UPDATE keeps length and order, merges into the toasts whose id matches and leaves the others identical. */
  lemma UpdateMergesMatchingOnly(ts: seq<Toast>, p: ToastPatch)
    ensures |Reduce(ts, UpdateToast(p))| == |ts|
    ensures forall i :: 0 <= i < |ts| && SameId(ts[i], p.id) ==> Reduce(ts, UpdateToast(p))[i] == Merge(ts[i], p)
    ensures forall i :: 0 <= i < |ts| && !SameId(ts[i], p.id) ==> Reduce(ts, UpdateToast(p))[i] == ts[i]
    ensures p.id.None? ==> Reduce(ts, UpdateToast(p)) == ts
  {
  }

  /** A merge into a matching toast keeps its id. */
  lemma MergeKeepsId(t: Toast, p: ToastPatch)
    requires SameId(t, p.id)
    ensures Merge(t, p).id == t.id
  {
  }

  /** DISMISS with an id closes exactly the toasts with that id and changes nothing else about them. */
  lemma DismissClosesMatchingOnly(ts: seq<Toast>, id: string)
    ensures |Reduce(ts, DismissToast(Some(id)))| == |ts|
    ensures forall i :: 0 <= i < |ts| ==>
      Reduce(ts, DismissToast(Some(id)))[i] == if ts[i].id == id then ts[i].(open := false) else ts[i]
  {
  }

  /** DISMISS without an id dismisses nothing: no toast's id equals `undefined`. */
  lemma DismissWithoutIdChangesNothing(ts: seq<Toast>)
    ensures Reduce(ts, DismissToast(None)) == ts
    ensures ClearedTimeout(DismissToast(None)) == {}
  {
  }

  /** REMOVE without an id empties the list. */
  lemma RemoveWithoutIdClears(ts: seq<Toast>)
    ensures Reduce(ts, RemoveToast(None)) == []
  {
  }

  /** Filtering distributes over concatenation, so the kept toasts stay in their relative order. */
  lemma {:induction false} WithoutIdAppend(a: seq<Toast>, b: seq<Toast>, id: string)
    ensures WithoutId(a + b, id) == WithoutId(a, id) + WithoutId(b, id)
    decreases |a|
  {
    if a == [] {
      assert a + b == b;
    } else {
      assert (a + b)[0] == a[0];
      assert (a + b)[1..] == a[1..] + b;
      WithoutIdAppend(a[1..], b, id);
    }
  }

  /** REMOVE with an id drops every toast with that id and keeps every other one with its multiplicity. */
  lemma {:induction false} WithoutIdCounts(ts: seq<Toast>, id: string, t: Toast)
    ensures multiset(WithoutId(ts, id))[t] == if t.id == id then 0 else multiset(ts)[t]
    decreases |ts|
  {
    if ts != [] {
      assert ts == [ts[0]] + ts[1..];
      WithoutIdCounts(ts[1..], id, t);
    }
  }

  /** REMOVE with an id that no toast has changes nothing. */
  lemma {:induction false} WithoutAbsentId(ts: seq<Toast>, id: string)
    requires forall i :: 0 <= i < |ts| ==> ts[i].id != id
    ensures WithoutId(ts, id) == ts
    decreases |ts|
  {
    if ts != [] {
      WithoutAbsentId(ts[1..], id);
    }
  }

  /** Every action keeps the list within TOAST_LIMIT. */
  lemma ReducePreservesLimit(ts: seq<Toast>, a: Action)
    requires |ts| <= TOAST_LIMIT
    ensures |Reduce(ts, a)| <= TOAST_LIMIT
  {
  }

  // ---------------------------------------------------------------------------
  // Listeners

  /** `listeners.forEach((l) => l(state))`, as the list of calls it makes. */
  function Broadcast(ls: seq<ListenerId>, ts: seq<Toast>): (r: seq<Delivery>)
    ensures |r| == |ls|
    ensures forall k :: 0 <= k < |ls| ==> r[k] == Delivery(ls[k], ts)
  {
    seq(|ls|, k requires 0 <= k < |ls| => Delivery(ls[k], ts))
  }

  /** Notifying two groups of listeners is notifying the first group, then the second. */
  lemma BroadcastAppend(a: seq<ListenerId>, b: seq<ListenerId>, ts: seq<Toast>)
    ensures Broadcast(a + b, ts) == Broadcast(a, ts) + Broadcast(b, ts)
  {
    var l, r := Broadcast(a + b, ts), Broadcast(a, ts) + Broadcast(b, ts);
    assert |l| == |r|;
    forall k | 0 <= k < |l|
      ensures l[k] == r[k]
    {
      if k < |a| {
        assert (a + b)[k] == a[k];
      } else {
        assert (a + b)[k] == b[k - |a|];
      }
    }
  }

  /** Every delivery carries the same state, and the listeners are reached in list order, each once per position. */
  lemma BroadcastDelivers(ls: seq<ListenerId>, ts: seq<Toast>)
    ensures forall d :: d in Broadcast(ls, ts) ==> d.toasts == ts && d.listener in ls
    ensures forall l :: l in ls ==> Delivery(l, ts) in Broadcast(ls, ts)
  {
    var r := Broadcast(ls, ts);
    forall l | l in ls
      ensures Delivery(l, ts) in r
    {
      var k :| 0 <= k < |ls| && ls[k] == l;
      assert r[k] == Delivery(l, ts);
    }
  }

  /** `s.indexOf(x)`: the first position of `x`, or -1. */
  function IndexOf<T(==)>(s: seq<T>, x: T): (r: int)
    ensures -1 <= r < |s|
    ensures r == -1 <==> x !in s
    ensures r >= 0 ==> s[r] == x && forall j :: 0 <= j < r ==> s[j] != x
  {
    if s == [] then -1
    else if s[0] == x then 0
    else
      var k := IndexOf(s[1..], x);
      if k == -1 then -1 else k + 1
  }

  /** The list after the unsubscribe closure: `indexOf` then `splice(index, 1)` when found. */
  function RemoveFirst<T(==)>(s: seq<T>, x: T): seq<T>
  {
    var i := IndexOf(s, x);
    if i > -1 then s[..i] + s[i + 1..] else s
  }

  /** Every element other than `x`, in order. */
  function Erase<T(==)>(s: seq<T>, x: T): (r: seq<T>)
    ensures x !in r
  {
    if s == [] then [] else if s[0] == x then Erase(s[1..], x) else [s[0]] + Erase(s[1..], x)
  }

  lemma {:induction false} EraseAppend<T>(a: seq<T>, b: seq<T>, x: T)
    ensures Erase(a + b, x) == Erase(a, x) + Erase(b, x)
    decreases |a|
  {
    if a == [] {
      assert a + b == b;
    } else {
      assert (a + b)[1..] == a[1..] + b;
      EraseAppend(a[1..], b, x);
    }
  }

  /** A subscribed listener splits the list at its first occurrence, and the splice removes exactly that one. */
  lemma RemoveFirstSplits<T>(s: seq<T>, x: T) returns (before: seq<T>, after: seq<T>)
    requires x in s
    ensures s == before + [x] + after
    ensures RemoveFirst(s, x) == before + after
  {
    var i := IndexOf(s, x);
    before, after := s[..i], s[i + 1..];
    assert s == before + [x] + after;
  }

  /** Unsubscribing removes at most one occurrence of the listener, and one exactly when it was subscribed. */
  lemma UnsubscribeRemovesOne<T>(s: seq<T>, x: T)
    ensures multiset(RemoveFirst(s, x)) == multiset(s) - multiset{x}
    ensures |RemoveFirst(s, x)| == if x in s then |s| - 1 else |s|
  {
    if x in s {
      var before, after := RemoveFirstSplits(s, x);
      assert multiset(s) == multiset(before) + multiset{x} + multiset(after);
    } else {
      assert x !in multiset(s);
    }
  }

  /** Unsubscribing leaves every other listener in its order. */
  lemma UnsubscribeKeepsOthersInOrder<T>(s: seq<T>, x: T)
    ensures Erase(RemoveFirst(s, x), x) == Erase(s, x)
  {
    if x in s {
      var before, after := RemoveFirstSplits(s, x);
      EraseAppend(before + [x], after, x);
      EraseAppend(before, [x], x);
      EraseAppend(before, after, x);
      assert [x][1..] == [];
    }
  }

  // ---------------------------------------------------------------------------
  // The module-level state and its operations

  /**
   * The store's module-level variables: `count`, `state.toasts`, the keys of
   * `timeouts`, the `setTimeout` callbacks still pending (by toast id) and `listeners`.
   * `deliveries` records every listener call. Listeners are React state setters:
   * they do not call back into the store.
   */
  class ToastStore {
    var count: nat
    var toasts: seq<Toast>
    var timeouts: set<string>
    var timers: seq<string>
    var listeners: seq<ListenerId>
    var deliveries: seq<Delivery>

    /** The counter is in range, the list is capped, and every registered id has a pending timer. */
    ghost predicate Valid()
      reads this
    {
      && count < MAX_SAFE_INTEGER
      && |toasts| <= TOAST_LIMIT
      && (forall id :: id in timeouts ==> id in timers)
    }

    constructor ()
      ensures Valid()
      ensures count == 0 && toasts == [] && timeouts == {} && timers == []
      ensures listeners == [] && deliveries == []
    {
      count := 0;
      toasts := [];
      timeouts := {};
      timers := [];
      listeners := [];
      deliveries := [];
    }

    /** `genId`: advance the wrapping counter and return its decimal text. */
    method GenId() returns (id: string)
      requires Valid()
      modifies this`count
      ensures Valid()
      ensures count == NextCount(old(count)) && id == NatToString(count)
      ensures id != NatToString(old(count)) && id != ""
    {
      ConsecutiveIdsDiffer(count);
      count := NextCount(count);
      id := NatToString(count);
    }

    /** `dispatch`: run the reducer (with its DISMISS side effect) and notify every listener in order. */
    method Dispatch(a: Action)
      requires Valid()
      modifies this`toasts, this`timeouts, this`deliveries
      ensures Valid()
      ensures toasts == Reduce(old(toasts), a)
      ensures timeouts == old(timeouts) - ClearedTimeout(a)
      ensures deliveries == old(deliveries) + Broadcast(listeners, toasts)
    {
      ReducePreservesLimit(toasts, a);
      timeouts := timeouts - ClearedTimeout(a);
      toasts := Reduce(toasts, a);
      var i := 0;
      while i < |listeners|
        invariant 0 <= i <= |listeners|
        invariant toasts == Reduce(old(toasts), a) && timeouts == old(timeouts) - ClearedTimeout(a)
        invariant deliveries == old(deliveries) + Broadcast(listeners[..i], toasts)
      {
        assert listeners[..i + 1] == listeners[..i] + [listeners[i]];
        BroadcastAppend(listeners[..i], [listeners[i]], toasts);
        deliveries := deliveries + [Delivery(listeners[i], toasts)];
        i := i + 1;
      }
      assert listeners[..i] == listeners;
    }

    /** `addToRemoveQueue`: schedule a removal unless one is already registered for the id. */
    method AddToRemoveQueue(id: string)
      requires Valid()
      modifies this`timeouts, this`timers
      ensures Valid()
      ensures id in old(timeouts) ==> timeouts == old(timeouts) && timers == old(timers)
      ensures id !in old(timeouts) ==> timeouts == old(timeouts) + {id} && timers == old(timers) + [id]
    {
      if id in timeouts {
        return;
      }
      timers := timers + [id];
      timeouts := timeouts + {id};
    }

    /** The pending timer at position `k` fires: its callback deletes the key and dispatches REMOVE for its id. */
    method TimerFired(k: nat)
      requires Valid()
      requires k < |timers|
      modifies this`timers, this`timeouts, this`toasts, this`deliveries
      ensures Valid()
      ensures timers == old(timers[..k] + timers[k + 1..])
      ensures timeouts == old(timeouts) - {old(timers[k])}
      ensures toasts == Reduce(old(toasts), RemoveToast(Some(old(timers[k]))))
      ensures deliveries == old(deliveries) + Broadcast(listeners, toasts)
    {
      var id := timers[k];
      ghost var before := timers;
      timers := timers[..k] + timers[k + 1..];
      timeouts := timeouts - {id};
      forall other | other in timeouts
        ensures other in timers
      {
        var j :| 0 <= j < |before| && before[j] == other;
        if j < k {
          assert timers[j] == other;
        } else {
          assert timers[j - 1] == other;
        }
      }
      Dispatch(RemoveToast(Some(id)));
    }

    /** `toast(props)`: a fresh id, ADD with `open: true`, then a removal scheduled for that id. */
    method PostToast(title: string, description: string, variant: Variant) returns (id: string)
      requires Valid()
      modifies this`count, this`toasts, this`timeouts, this`timers, this`deliveries
      ensures Valid()
      ensures count == NextCount(old(count)) && id == NatToString(count) && id != NatToString(old(count))
      ensures toasts == [Toast(id, true, title, description, variant)]
      ensures timeouts == old(timeouts) + {id}
      ensures timers == if id in old(timeouts) then old(timers) else old(timers) + [id]
      ensures deliveries == old(deliveries) + Broadcast(listeners, toasts)
    {
      id := GenId();
      Dispatch(AddToast(Toast(id, true, title, description, variant)));
      AddToRemoveQueue(id);
    }

    /** The `dismiss` closure returned by `toast`: DISMISS with that toast's id. */
    method Dismiss(id: string)
      requires Valid()
      modifies this`toasts, this`timeouts, this`deliveries
      ensures Valid()
      ensures toasts == Reduce(old(toasts), DismissToast(Some(id)))
      ensures timeouts == if id == "" then old(timeouts) else old(timeouts) - {id}
      ensures deliveries == old(deliveries) + Broadcast(listeners, toasts)
    {
      Dispatch(DismissToast(Some(id)));
    }

    /** The `onOpenChange` handler of an added toast: closing it dismisses it. */
    method OnOpenChange(id: string, open: bool)
      requires Valid()
      modifies this`toasts, this`timeouts, this`deliveries
      ensures Valid()
      ensures open ==> toasts == old(toasts) && timeouts == old(timeouts) && deliveries == old(deliveries)
      ensures !open ==> toasts == Reduce(old(toasts), DismissToast(Some(id)))
      ensures !open ==> timeouts == (if id == "" then old(timeouts) else old(timeouts) - {id})
      ensures !open ==> deliveries == old(deliveries) + Broadcast(listeners, toasts)
    {
      if !open {
        Dismiss(id);
      }
    }

    /** The `update` closure returned by `toast`: UPDATE with the given fields and that toast's id. */
    method Update(id: string, p: ToastPatch)
      requires Valid()
      modifies this`toasts, this`timeouts, this`deliveries
      ensures Valid()
      ensures toasts == Reduce(old(toasts), UpdateToast(p.(id := Some(id))))
      ensures timeouts == old(timeouts)
      ensures deliveries == old(deliveries) + Broadcast(listeners, toasts)
    {
      Dispatch(UpdateToast(p.(id := Some(id))));
    }

    /** `subscribe`: append the listener. */
    method Subscribe(l: ListenerId)
      modifies this`listeners
      ensures listeners == old(listeners) + [l]
    {
      listeners := listeners + [l];
    }

    /** The unsubscribe closure returned by `subscribe`. */
    method Unsubscribe(l: ListenerId)
      modifies this`listeners
      ensures listeners == RemoveFirst(old(listeners), l)
      ensures multiset(listeners) == multiset(old(listeners)) - multiset{l}
      ensures Erase(listeners, l) == Erase(old(listeners), l)
    {
      UnsubscribeRemovesOne(listeners, l);
      UnsubscribeKeepsOthersInOrder(listeners, l);
      var index := IndexOf(listeners, l);
      if index > -1 {
        listeners := listeners[..index] + listeners[index + 1..];
      }
    }
  }
}
