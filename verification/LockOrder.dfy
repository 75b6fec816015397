/**
 The order in which a select locks the channels of its cases: by address, each
 once. Channels are named by their addresses, which are not null.
 */
module LockOrder {

  type Address = n: nat | n > 0 witness 1

  ghost predicate Sorted(s: seq<Address>) {
    forall i, j :: 0 <= i < j < |s| ==> s[i] <= s[j]
  }

  ghost predicate StrictlySorted(s: seq<Address>) {
    forall i, j :: 0 <= i < j < |s| ==> s[i] < s[j]
  }

  ghost predicate SameMembers(s: seq<Address>, t: seq<Address>) {
    forall x :: x in s <==> x in t
  }

  /** s sorted but for the key at j, which is no greater than what follows it. */
  ghost predicate SortedBut(s: seq<Address>, j: nat) {
    && j < |s|
    && (forall a, b :: 0 <= a < b < |s| && a != j && b != j ==> s[a] <= s[b])
    && (forall b :: j < b < |s| ==> s[j] <= s[b])
  }

  /** Moving the neighbour below the hole up by one moves the hole down by one. */
  lemma ShiftUp(s: seq<Address>, j: nat, key: Address)
    requires 0 < j < |s| && SortedBut(s[j := key], j) && s[j - 1] > key
    ensures SortedBut(s[j := s[j - 1]][j - 1 := key], j - 1)
    ensures multiset(s[j := s[j - 1]][j - 1 := key]) == multiset(s[j := key])
  {
    var v := s[j := key];
    assert s[j := s[j - 1]][j - 1 := key] == v[j := v[j - 1]][j - 1 := v[j]];
  }

  lemma Settle(s: seq<Address>, j: nat)
    requires SortedBut(s, j) && (j > 0 ==> s[j - 1] <= s[j])
    ensures Sorted(s)
  {
    forall a, b | 0 <= a < b < |s| ensures s[a] <= s[b] {
      if b == j && a < j - 1 { assert s[a] <= s[j - 1]; }
    }
  }

  /** One round of the insertion sort: a[i] goes to its place among a[..i]. */
  method Insert(a: array<Address>, i: nat)
    requires i < a.Length && Sorted(a[..i])
    modifies a
    ensures Sorted(a[..i + 1]) && a[i + 1..] == old(a[i + 1..])
    ensures multiset(a[..i + 1]) == multiset(old(a[..i + 1]))
  {
    var key := a[i];
    var j := i;
    ghost var was := a[..i + 1];
    assert was[..i] == a[..i];
    assert a[..i + 1][i := key] == was;
    while j > 0 && a[j - 1] > key
      invariant 0 <= j <= i && a[i + 1..] == old(a[i + 1..])
      invariant SortedBut(a[..i + 1][j := key], j) && multiset(a[..i + 1][j := key]) == multiset(was)
    {
      ShiftUp(a[..i + 1], j, key);
      Put(a, i, j, a[j - 1]);
      j := j - 1;
    }
    Settle(a[..i + 1][j := key], j);
    Put(a, i, j, key);
  }

  method Put(a: array<Address>, i: nat, j: nat, x: Address)
    requires j <= i < a.Length
    modifies a
    ensures a[..i + 1] == old(a[..i + 1])[j := x] && a[i + 1..] == old(a[i + 1..])
  {
    a[j] := x;
  }

  /** Insertion sort of the first n entries, in place. */
  method Sort(a: array<Address>, n: nat)
    requires n <= a.Length
    modifies a
    ensures Sorted(a[..n]) && multiset(a[..n]) == multiset(old(a[..n])) && a[n..] == old(a[n..])
  {
    var i := 1;
    if n == 0 { return; }
    while i < n
      invariant 1 <= i <= n && Sorted(a[..i]) && multiset(a[..i]) == multiset(old(a[..i])) && a[i..] == old(a[i..])
    {
      ghost var before := a[..];
      assert before[..i + 1] == before[..i] + [before[i]] && old(a[..i + 1]) == old(a[..i]) + [old(a[i])];
      assert before[i] == before[i..][0] == old(a[i..])[0];
      Insert(a, i);
      assert a[i + 1..] == before[i..][1..];
      i := i + 1;
    }
  }

  /** Drops repeated entries of a sorted prefix, in place; `previous` starts out null. */
  method Dedup(a: array<Address>, n: nat) returns (count: nat)
    requires n <= a.Length && Sorted(a[..n])
    modifies a
    ensures count <= n && StrictlySorted(a[..count]) && SameMembers(a[..count], old(a[..n]))
  {
    count := 0;
    var previous: nat := 0;
    var i := 0;
    ghost var was := a[..];
    while i < n
      invariant 0 <= count <= i <= n && forall k :: i <= k < a.Length ==> a[k] == was[k]
      invariant StrictlySorted(a[..count]) && SameMembers(a[..count], was[..i])
      invariant if count == 0 then i == 0 && previous == 0 else i > 0 && previous == a[count - 1] == was[i - 1]
    {
      assert was[..i + 1] == was[..i] + [was[i]];
      ghost var kept := a[..count];
      if a[i] != previous {
        previous := a[i];
        assert forall k :: 0 <= k < count ==> kept[k] < was[i] by {
          if count > 0 { assert was[..n][i - 1] <= was[..n][i]; }
        }
        a[count] := a[i];
        count := count + 1;
        assert a[..count] == kept + [was[i]];
      }
      i := i + 1;
    }
  }

  /** The sorting and deduplication part of setup(): what is locked, and in which order. */
  method LockOrder(a: array<Address>, n: nat) returns (count: nat)
    requires n <= a.Length
    modifies a
    ensures count <= n && StrictlySorted(a[..count]) && SameMembers(a[..count], old(a[..n]))
  {
    Sort(a, n);
    assert forall x :: x in a[..n] <==> x in multiset(a[..n]);
    count := Dedup(a, n);
  }

  // ------------------------------------------------------ why it is enough

  /** A select that has locked a prefix of its order and waits for the next channel of it. */
  datatype Waiting = Waiting(order: seq<Address>, held: nat)

  ghost predicate WaitingOk(w: Waiting) {
    StrictlySorted(w.order) && w.held < |w.order|
  }

  function Wanted(w: Waiting): Address
    requires WaitingOk(w)
  {
    w.order[w.held]
  }

  /** Each select of the chain holds what the one before it waits for. */
  ghost predicate Chain(ws: seq<Waiting>) {
    && (forall i :: 0 <= i < |ws| ==> WaitingOk(ws[i]))
    && forall i, j :: 0 <= i && j == i + 1 < |ws| ==> Wanted(ws[i]) in ws[j].order[..ws[j].held]
  }

  lemma {:induction false} ChainClimbs(ws: seq<Waiting>, k: nat)
    requires Chain(ws) && 0 < k < |ws|
    ensures Wanted(ws[0]) < Wanted(ws[k])
  {
    var i, j := k - 1, k;
    assert Wanted(ws[i]) in ws[j].order[..ws[j].held];
    if k > 1 { ChainClimbs(ws, k - 1); }
  }

  /** Selects that lock in this order never wait for each other in a circle, however many they are. */
  lemma NoDeadlock(ws: seq<Waiting>)
    requires Chain(ws) && ws != []
    ensures Wanted(ws[|ws| - 1]) !in ws[0].order[..ws[0].held]
  {
    if |ws| > 1 { ChainClimbs(ws, |ws| - 1); }
  }
}
