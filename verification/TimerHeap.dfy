/**
 One shard of the timer service: the indexed four-way heap of armed timers and
 the earliest deadline published for the poller. Every method is the body of one
 lock-protected section. A Timer object stands for one arming of a node, so its
 deadline and its callback are fixed.
 */
module TimerHeap {
  import opened Prelude

  const FAN_OUT := 4
  const BATCH := 64
  const NOT_IN_HEAP := -1
  const INT64_MAX := 0x7fff_ffff_ffff_ffff

  datatype TimerState = Idle | Armed | Firing | Fired | Cancelled

  class Timer {
    const deadline: int
    const callback: bool
    var state: TimerState
    var heapIndex: int

    constructor (deadline: int, callback: bool)
      ensures this.deadline == deadline && this.callback == callback
      ensures state == Idle && heapIndex == NOT_IN_HEAP
    {
      this.deadline, this.callback := deadline, callback;
      state, heapIndex := Idle, NOT_IN_HEAP;
    }
  }

  // -------------------------------------------------- positions and order

  function Parent(i: int): int
    requires i > 0
  {
    (i - 1) / FAN_OUT
  }

  function FirstChild(i: nat): nat {
    FAN_OUT * i + 1
  }

  lemma ChildrenOf(i: nat, k: nat)
    requires k > 0
    ensures Parent(k) == i <==> FirstChild(i) <= k < FirstChild(i) + FAN_OUT
    ensures 0 <= Parent(k) < k
  {
  }

  /** No timer is due before its parent. */
  ghost predicate Ordered(h: seq<Timer>) {
    forall k :: 0 < k < |h| ==> h[Parent(k)].deadline <= h[k].deadline
  }

  /** Ordered but for the edges around i: at most the edge above it (up) or those below it (down) are wrong. */
  ghost predicate OrderedAround(h: seq<Timer>, i: nat, up: bool) {
    && i < |h|
    && (forall k :: 0 < k < |h| && (if up then k != i else Parent(k) != i) ==> h[Parent(k)].deadline <= h[k].deadline)
    && (forall k :: 0 < k < |h| && Parent(k) == i && i > 0 ==> h[Parent(i)].deadline <= h[k].deadline)
  }

  lemma {:induction false} RootIsEarliest(h: seq<Timer>, k: nat)
    requires Ordered(h) && k < |h|
    ensures h[0].deadline <= h[k].deadline
  {
    if k > 0 { RootIsEarliest(h, Parent(k)); }
  }

  /** The root is due first among the members, and the published deadline of an empty heap is the sentinel. */
  ghost predicate IsEarliest(e: int, h: seq<Timer>) {
    && (h == [] ==> e == INT64_MAX)
    && (h != [] ==> exists t :: t in h && t.deadline == e)
    && (forall t :: t in h ==> e <= t.deadline)
  }

  lemma SwapKeepsMembers(h: seq<Timer>, i: nat, j: nat)
    requires i < |h| && j < |h|
    ensures multiset(h[i := h[j]][j := h[i]]) == multiset(h)
  {
  }

  /** Moving the parent of i down into i's place moves the wrong edge up by one level. */
  lemma SwapUp(h: seq<Timer>, i: nat)
    requires OrderedAround(h, i, true) && i > 0 && h[i].deadline < h[Parent(i)].deadline
    ensures OrderedAround(h[i := h[Parent(i)]][Parent(i) := h[i]], Parent(i), true)
  {
    var p := Parent(i);
    var g := h[i := h[p]][p := h[i]];
    forall k | 0 < k < |g| && k != p ensures g[Parent(k)].deadline <= g[k].deadline {
      ChildrenOf(Parent(k), k);
    }
    forall k | 0 < k < |g| && Parent(k) == p && p > 0 ensures g[Parent(p)].deadline <= g[k].deadline {
      ChildrenOf(p, k);
      ChildrenOf(Parent(p), p);
    }
  }

  /** One round of sift_up: the hole at i moves to its parent's place, the node still to be put back. */
  lemma HoleUp(h: seq<Timer>, i: nat, node: Timer)
    requires 0 < i < |h| && OrderedAround(h[i := node], i, true) && node.deadline < h[Parent(i)].deadline
    ensures var p := Parent(i); var g := h[i := h[p]][p := node];
            OrderedAround(g, p, true) && multiset(g) == multiset(h[i := node])
  {
    var p, v := Parent(i), h[i := node];
    ChildrenOf(p, i);
    SwapUp(v, i);
    SwapKeepsMembers(v, i, p);
    assert h[i := h[p]][p := node] == v[i := v[p]][p := v[i]];
  }

  ghost predicate IsLeastChild(h: seq<Timer>, i: nat, best: nat) {
    && 0 < best < |h| && Parent(best) == i
    && forall k :: 0 < k < |h| && Parent(k) == i ==> h[best].deadline <= h[k].deadline
  }

  /** Moving the least child of i up into i's place moves the wrong edges down by one level. */
  lemma SwapDown(h: seq<Timer>, i: nat, best: nat)
    requires OrderedAround(h, i, false) && IsLeastChild(h, i, best) && h[best].deadline < h[i].deadline
    ensures OrderedAround(h[i := h[best]][best := h[i]], best, false)
  {
    var g := h[i := h[best]][best := h[i]];
    ChildrenOf(i, best);
    forall k | 0 < k < |g| && Parent(k) != best ensures g[Parent(k)].deadline <= g[k].deadline {
      ChildrenOf(Parent(k), k);
      if k == i { assert h[Parent(i)].deadline <= h[best].deadline; }
    }
    forall k | 0 < k < |g| && Parent(k) == best ensures g[Parent(best)].deadline <= g[k].deadline {
      ChildrenOf(best, k);
      assert h[Parent(k)].deadline <= h[k].deadline;
    }
  }

  lemma LeastChildOfHole(h: seq<Timer>, i: nat, best: nat, node: Timer)
    requires i < |h| && IsLeastChild(h, i, best)
    ensures best != i && IsLeastChild(h[i := node], i, best)
  {
    ChildrenOf(i, best);
    forall k | 0 < k < |h| && Parent(k) == i ensures h[i := node][best].deadline <= h[i := node][k].deadline {
      ChildrenOf(i, k);
    }
  }

  /** One round of sift_down: the hole at i moves to its least child's place, the node still to be put back. */
  lemma HoleDown(h: seq<Timer>, i: nat, best: nat, node: Timer)
    requires i < |h| && OrderedAround(h[i := node], i, false) && IsLeastChild(h, i, best)
    requires h[best].deadline < node.deadline
    ensures var g := h[i := h[best]][best := node];
            OrderedAround(g, best, false) && multiset(g) == multiset(h[i := node])
  {
    var v := h[i := node];
    LeastChildOfHole(h, i, best, node);
    assert h[i := h[best]][best := node] == v[i := v[best]][best := v[i]];
    SwapKeepsMembers(v, i, best);
    SwapDown(v, i, best);
  }

  /** A node no greater than its least child, or without children, may stay where it is. */
  lemma Settled(h: seq<Timer>, i: nat, node: Timer)
    requires i < |h| && OrderedAround(h[i := node], i, false)
    requires forall k :: 0 < k < |h| && Parent(k) == i ==> node.deadline <= h[k].deadline
    ensures Ordered(h[i := node])
  {
    var v := h[i := node];
    forall k | 0 < k < |v| ensures v[Parent(k)].deadline <= v[k].deadline { ChildrenOf(Parent(k), k); }
  }

  /** The heap without its member at i, the last one moved into the gap. */
  function Gap(h: seq<Timer>, i: nat): seq<Timer>
    requires i < |h| - 1
  {
    h[..|h| - 1][i := h[|h| - 1]]
  }

  lemma GapMembers(h: seq<Timer>, i: nat)
    requires i < |h| - 1
    ensures multiset(Gap(h, i)) + multiset{h[i]} == multiset(h)
  {
    var last := |h| - 1;
    assert h == h[..last] + [h[last]];
    assert multiset(h[..last][i := h[last]]) == multiset(h[..last]) - multiset{h[i]} + multiset{h[last]};
  }

  /** heap_remove's choice: the replacement is wrong in one direction only, and the comparison names it. */
  lemma GapOrder(h: seq<Timer>, i: nat)
    requires Ordered(h) && i < |h| - 1
    ensures var g := Gap(h, i); OrderedAround(g, i, i > 0 && g[i].deadline < g[Parent(i)].deadline)
  {
    var g := Gap(h, i);
    forall k | 0 < k < |g| ensures 0 <= Parent(k) < k { ChildrenOf(Parent(k), k); }
  }

  lemma RootIsPublished(h: seq<Timer>)
    requires Ordered(h)
    ensures IsEarliest(if h == [] then INT64_MAX else h[0].deadline, h)
  {
    if h != [] {
      assert h[0] in h;
      forall t | t in h ensures h[0].deadline <= t.deadline {
        var k :| 0 <= k < |h| && h[k] == t;
        RootIsEarliest(h, k);
      }
    }
  }

  lemma PushedOrder(h: seq<Timer>, t: Timer)
    requires Ordered(h)
    ensures OrderedAround(h + [t], |h|, true)
  {
    forall k | 0 < k < |h| + 1 ensures 0 <= Parent(k) < k && Parent(k) != |h| { ChildrenOf(Parent(k), k); }
  }

  /** After a push the published minimum changes only if the new timer is the root. */
  lemma PushedEarliest(h: seq<Timer>, g: seq<Timer>, t: Timer, e: int)
    requires IsEarliest(e, h) && Ordered(g) && multiset(g) == multiset(h) + multiset{t}
    requires g != [] && (g[0] != t ==> h != [] && g[0] == h[0] && Ordered(h))
    ensures IsEarliest(if g[0] == t then t.deadline else e, g)
  {
    RootIsPublished(g);
    if g[0] != t { RootIsPublished(h); }
  }

  lemma PushedMembers(h: seq<Timer>, g: seq<Timer>, t: Timer)
    requires multiset(g) == multiset(h) + multiset{t}
    ensures forall u :: u in g ==> u in h || u == t
  {
    forall u | u in g ensures u in h || u == t { assert u in multiset(g); }
  }

  lemma PushedNudge(h: seq<Timer>, g: seq<Timer>, t: Timer)
    requires Ordered(h) && Ordered(g) && multiset(g) == multiset(h) + multiset{t} && t !in h && g != []
    requires g[0] == t && h != [] ==> t.deadline < h[0].deadline
    ensures g[0] == t <==> forall u :: u in h ==> t.deadline < u.deadline
  {
    RootIsPublished(h);
    RootIsPublished(g);
    assert t in multiset(g);
    assert g[0] in multiset(g);
  }

  /** Removing anything but the root leaves the published minimum right. */
  lemma RemovedEarliest(h: seq<Timer>, g: seq<Timer>, t: Timer, e: int)
    requires IsEarliest(e, h) && Ordered(h) && h != [] && h[0] != t && multiset(g) + multiset{t} == multiset(h)
    ensures IsEarliest(e, g)
  {
    RootIsPublished(h);
    assert h[0] in multiset(h);
    assert h[0] in multiset(g);
    forall u | u in g ensures e <= u.deadline { assert u in multiset(h); }
  }

  /** In nondecreasing order of deadline. */
  ghost predicate Sorted(f: seq<Timer>) {
    forall i, j :: 0 <= i < j < |f| ==> f[i].deadline <= f[j].deadline
  }

  ghost predicate Precedes(f: seq<Timer>, h: seq<Timer>) {
    forall a, b :: a in f && b in h ==> a.deadline <= b.deadline
  }

  /** `fired` and `rest` share out the timers of `all`; those fired were due, and came out in order. */
  ghost predicate Splits(fired: seq<Timer>, rest: seq<Timer>, all: seq<Timer>, now: int) {
    && multiset(rest) + multiset(fired) == multiset(all)
    && Sorted(fired) && Precedes(fired, rest)
    && forall f :: f in fired ==> f.deadline <= now
  }

  ghost predicate NoneDue(h: seq<Timer>, now: int) {
    forall t :: t in h ==> now < t.deadline
  }

  lemma SplitMembers(fired: seq<Timer>, rest: seq<Timer>, all: seq<Timer>, now: int)
    requires Splits(fired, rest, all, now)
    ensures forall k :: 0 <= k < |rest| ==> rest[k] in all
    ensures forall k :: 0 <= k < |fired| ==> fired[k] in all
    ensures |rest| + |fired| == |all|
  {
    assert forall u :: u in multiset(all) <==> u in all;
    assert |multiset(rest) + multiset(fired)| == |multiset(all)|;
  }

  lemma SplitCovers(fired: seq<Timer>, rest: seq<Timer>, all: seq<Timer>, now: int)
    requires Splits(fired, rest, all, now)
    ensures forall t :: t in all <==> t in fired || t in rest
  {
    forall t ensures t in all <==> t in fired || t in rest {
      assert t in all <==> t in multiset(all);
    }
  }

  lemma JoinSplits(f: seq<Timer>, mid: seq<Timer>, b: seq<Timer>, rest: seq<Timer>, all: seq<Timer>, now: int)
    requires Splits(f, mid, all, now) && Splits(b, rest, mid, now)
    ensures Splits(f + b, rest, all, now) && |rest| + |b| == |mid|
  {
    SplitMembers(b, rest, mid, now);
    forall i, j | 0 <= i < j < |f + b| ensures (f + b)[i].deadline <= (f + b)[j].deadline {
      if i < |f| <= j { assert f[i] in f && b[j - |f|] in mid; }
    }
  }

  /** Taking the root next keeps the taken timers sorted and due no later than those left. */
  lemma TakeNext(f: seq<Timer>, h: seq<Timer>, g: seq<Timer>, all: seq<Timer>, t: Timer, now: int)
    requires Ordered(h) && h != [] && h[0] == t && multiset(g) + multiset{t} == multiset(h) && t.deadline <= now
    requires Splits(f, h, all, now)
    ensures Splits(f + [t], g, all, now) && |g| < |h| && forall u :: u in g ==> u in h
  {
    RootIsPublished(h);
    assert |multiset(g) + multiset{t}| == |multiset(h)|;
    forall u | u in g ensures u in h { assert u in multiset(h); }
    JoinSplits(f, h, [t], g, all, now);
  }

  /** Taken out of the heap, its callback, if any, not yet run. */
  ghost predicate Unlinked(f: Timer)
    reads f
  {
    f.heapIndex == NOT_IN_HEAP && f.state == if f.callback then Firing else Fired
  }

  /** Fired, and nobody will touch it again. */
  ghost predicate Done(f: Timer)
    reads f
  {
    f.heapIndex == NOT_IN_HEAP && f.state == Fired
  }

  // ---------------------------------------------------- rounds of run_expired

  /** What other threads ask of the shard while it is unlocked; Proceed lets the poller go on. */
  datatype Request = ArmRequest(t: Timer) | RemoveRequest(t: Timer) | Proceed

  /** One locked section of run_expired_shard(): the heap it found, the batch it took, the heap it left. */
  datatype Round = Round(before: seq<Timer>, batch: seq<Timer>, after: seq<Timer>)

  function AllFired(rounds: seq<Round>): seq<Timer> {
    if rounds == [] then [] else AllFired(rounds[..|rounds| - 1]) + rounds[|rounds| - 1].batch
  }

  /** Every batch is due, in order, due no later than what stays, and neither loses nor doubles a timer. */
  ghost predicate AllSplit(rounds: seq<Round>, now: int) {
    forall i :: 0 <= i < |rounds| ==>
                  |rounds[i].batch| <= BATCH && Splits(rounds[i].batch, rounds[i].after, rounds[i].before, now)
  }

  ghost predicate Chained(rounds: seq<Round>) {
    forall i, j :: 0 <= i && j == i + 1 < |rounds| ==> rounds[j].before == rounds[i].after
  }

  /** When nobody arms or removes between the rounds, their batches together are one sorted split of the heap. */
  lemma {:induction false} UndisturbedRounds(rounds: seq<Round>, now: int)
    requires rounds != [] && AllSplit(rounds, now) && Chained(rounds)
    ensures Splits(AllFired(rounds), rounds[|rounds| - 1].after, rounds[0].before, now)
  {
    var i, j := |rounds| - 2, |rounds| - 1;
    var front := rounds[..j];
    if front == [] {
      assert AllFired(rounds) == rounds[0].batch;
    } else {
      UndisturbedRounds(front, now);
      assert rounds[j].before == rounds[i].after;
      JoinSplits(AllFired(front), front[i].after, rounds[j].batch, rounds[j].after, rounds[0].before, now);
    }
  }

  lemma SameMembers(h: seq<Timer>, g: seq<Timer>, t: Timer)
    requires multiset(g) == multiset(h) + multiset{t}
    ensures forall u :: u in g <==> u in h || u == t
  {
    forall u ensures u in g <==> u in h || u == t {
      assert u in g <==> u in multiset(g);
      assert u in h <==> u in multiset(h);
    }
  }

  /** Timers in the heap, fired or removed are those that were in the heap or armed since. */
  ghost predicate Accounts(heap: seq<Timer>, fired: seq<Timer>, removed: seq<Timer>, was: seq<Timer>,
                           armed: seq<Timer>) {
    multiset(heap) + multiset(fired) + multiset(removed) == multiset(was) + multiset(armed)
  }

  lemma AccountBatch(before: seq<Timer>, batch: seq<Timer>, after: seq<Timer>, fired: seq<Timer>,
                     removed: seq<Timer>, was: seq<Timer>, armed: seq<Timer>)
    requires Accounts(before, fired, removed, was, armed) && multiset(after) + multiset(batch) == multiset(before)
    ensures Accounts(after, fired + batch, removed, was, armed)
  {
  }

  lemma AccountMore(mid: seq<Timer>, fired: seq<Timer>, removed: seq<Timer>, was: seq<Timer>, armed: seq<Timer>,
                    now: seq<Timer>, off: seq<Timer>, on: seq<Timer>)
    requires Accounts(mid, fired, removed, was, armed) && Accounts(now, [], off, mid, on)
    ensures Accounts(now, fired, removed + off, was, armed + on)
  {
    var m, f, r := multiset(mid), multiset(fired), multiset(removed);
    var w, a, n, d, u := multiset(was), multiset(armed), multiset(now), multiset(off), multiset(on);
    forall t ensures (n + f + (r + d))[t] == (w + (a + u))[t] {
      assert (m + f + r)[t] == (w + a)[t];
      assert (n + multiset([]) + d)[t] == (m + u)[t];
    }
    assert n + f + (r + d) == w + (a + u);
  }

  /** With nothing due left, every timer that was due has fired or was removed. */
  lemma DueTimersLeave(heap: seq<Timer>, fired: seq<Timer>, removed: seq<Timer>, was: seq<Timer>, armed: seq<Timer>,
                       now: int, t: Timer)
    requires Accounts(heap, fired, removed, was, armed) && NoneDue(heap, now) && t in was + armed && t.deadline <= now
    ensures t in fired || t in removed
  {
    assert t in multiset(was) + multiset(armed);
    assert t in multiset(heap) + multiset(fired) + multiset(removed);
  }

  ghost predicate DueAreGone(fired: seq<Timer>, removed: seq<Timer>, was: seq<Timer>, now: int) {
    forall t :: t in was && t.deadline <= now ==> t in fired || t in removed
  }

  /** The rounds of a run that began with the heap `was`. */
  ghost predicate Explains(rounds: seq<Round>, was: seq<Timer>, now: int) {
    rounds != [] && rounds[0].before == was && AllSplit(rounds, now)
  }

  /** Nobody armed or removed anything, and each round began where the one before it ended. */
  ghost predicate Quiet(rounds: seq<Round>, heap: seq<Timer>, removed: seq<Timer>, armed: seq<Timer>) {
    armed == [] && removed == [] && Chained(rounds) && rounds != [] && heap == rounds[|rounds| - 1].after
  }

  lemma QuietNext(rounds: seq<Round>, r: Round, heap: seq<Timer>, removed: seq<Timer>, armed: seq<Timer>,
                  off: seq<Timer>, on: seq<Timer>)
    requires Quiet(rounds, r.before, removed, armed) && heap == r.after && off == [] && on == []
    ensures Quiet(rounds + [r], heap, removed + off, armed + on)
  {
  }

  lemma FirstRound(r: Round, now: int, heap: seq<Timer>, removed: seq<Timer>, armed: seq<Timer>)
    requires |r.batch| <= BATCH && Splits(r.batch, r.after, r.before, now)
             && Accounts(heap, [], removed, r.after, armed)
    ensures Explains([r], r.before, now) && AllFired([r]) == r.batch && Chained([r])
    ensures Accounts(heap, r.batch, removed, r.before, armed)
    ensures NoneDue(r.after, now) ==> DueAreGone(r.batch, removed, r.before, now)
  {
    assert [r][..0] == [];
    AccountBatch(r.before, r.batch, r.after, [], [], r.before, []);
    assert [] + r.batch == r.batch && [] + removed == removed && [] + armed == armed;
    AccountMore(r.after, r.batch, [], r.before, [], heap, removed, armed);
    if NoneDue(r.after, now) {
      forall t | t in r.before && t.deadline <= now ensures t in r.batch || t in removed {
        DueTimersLeave(r.after, r.batch, [], r.before, [], now, t);
      }
    }
  }

  lemma NextRound(rounds: seq<Round>, r: Round, now: int, heap: seq<Timer>, removed: seq<Timer>, was: seq<Timer>,
                  armed: seq<Timer>, off: seq<Timer>, on: seq<Timer>)
    requires Explains(rounds, was, now) && |r.batch| <= BATCH && Splits(r.batch, r.after, r.before, now)
    requires Accounts(r.before, AllFired(rounds), removed, was, armed) && Accounts(heap, [], off, r.after, on)
    ensures Explains(rounds + [r], was, now) && AllFired(rounds + [r]) == AllFired(rounds) + r.batch
    ensures Accounts(heap, AllFired(rounds + [r]), removed + off, was, armed + on)
    ensures NoneDue(r.after, now) ==> DueAreGone(AllFired(rounds + [r]), removed + off, was, now)
  {
    var all := rounds + [r];
    assert all[..|rounds|] == rounds;
    AccountBatch(r.before, r.batch, r.after, AllFired(rounds), removed, was, armed);
    AccountMore(r.after, AllFired(all), removed, was, armed, heap, off, on);
    if NoneDue(r.after, now) {
      forall t | t in was && t.deadline <= now ensures t in AllFired(all) || t in removed + off {
        DueTimersLeave(r.after, AllFired(all), removed, was, armed, now, t);
      }
    }
  }

  // ------------------------------------------------------------ the shard

  class Shard {
    var heap: seq<Timer>
    var earliest: int

    /** Every member but the one at i knows its own position. */
    ghost predicate IndexedBut(i: int)
      reads this, heap
    {
      forall k :: 0 <= k < |heap| && k != i ==> heap[k].heapIndex == k
    }

    ghost predicate Indexed()
      reads this, heap
    {
      IndexedBut(-1)
    }

    /** Position i is free for the node; everyone else is in place and is not the node. */
    ghost predicate HoleAt(i: nat, node: Timer)
      reads this, heap
    {
      && i < |heap|
      && forall k :: 0 <= k < |heap| && k != i ==> heap[k].heapIndex == k && heap[k] != node
    }

    ghost predicate Valid()
      reads this, heap
    {
      && Ordered(heap) && Indexed() && IsEarliest(earliest, heap) && AllArmed()
    }

    constructor ()
      ensures Valid() && heap == []
    {
      heap, earliest := [], INT64_MAX;
    }

    /** The member at `from` moves into the hole. */
    method Move(from: nat, moved: Timer, hole: nat, ghost node: Timer)
      requires HoleAt(hole, node) && from < |heap| && from != hole && heap[from] == moved
      modifies `heap, moved`heapIndex
      ensures heap == old(heap)[hole := moved] && HoleAt(from, node)
    {
      heap := heap[hole := moved];
      moved.heapIndex := hole;
    }

    /** The node fills the hole. */
    method Fill(hole: nat, node: Timer)
      requires HoleAt(hole, node)
      modifies `heap, node`heapIndex
      ensures heap == old(heap)[hole := node] && Indexed()
    {
      heap := heap[hole := node];
      node.heapIndex := hole;
    }

    method SiftUp(start: nat)
      requires Indexed() && OrderedAround(heap, start, true)
      modifies `heap, heap`heapIndex
      ensures Ordered(heap) && Indexed() && multiset(heap) == multiset(old(heap))
      ensures heap[0] == old(heap[0]) || (heap[0] == old(heap[start]) && heap[0].deadline < old(heap[0]).deadline)
    {
      var node := heap[start];
      var i := start;
      assert heap[i := node] == heap;
      while i > 0
        invariant 0 <= i < |heap| && |heap| == |old(heap)|
        invariant OrderedAround(heap[i := node], i, true) && multiset(heap[i := node]) == multiset(old(heap))
        invariant HoleAt(i, node)
        invariant if i > 0 then heap[0] == old(heap[0])
                  else i == start || node.deadline < old(heap[0]).deadline
      {
        var p := Parent(i);
        ChildrenOf(p, i);
        if heap[p].deadline <= node.deadline { break; }
        HoleUp(heap, i, node);
        assert heap[p] in multiset(heap[i := node]);
        Move(p, heap[p], i, node);
        i := p;
      }
      assert node in multiset(heap[i := node]);
      Fill(i, node);
    }

    /** The earliest-due child of i, the first of them on a tie. */
    method LeastChild(i: nat) returns (best: nat)
      requires FirstChild(i) < |heap|
      ensures IsLeastChild(heap, i, best)
      ensures forall k :: FirstChild(i) <= k < best ==> heap[best].deadline < heap[k].deadline
    {
      var first := FirstChild(i);
      var last := if first + FAN_OUT < |heap| then first + FAN_OUT else |heap|;
      best := first;
      var c := first + 1;
      while c < last
        invariant first <= best < c <= last
        invariant forall k :: first <= k < c ==> heap[best].deadline <= heap[k].deadline
        invariant forall k :: first <= k < best ==> heap[best].deadline < heap[k].deadline
      {
        if heap[c].deadline < heap[best].deadline { best := c; }
        c := c + 1;
      }
      ChildrenOf(i, best);
      forall k | 0 < k < |heap| && Parent(k) == i ensures heap[best].deadline <= heap[k].deadline { ChildrenOf(i, k); }
    }

    method SiftDown(start: nat)
      requires Indexed() && OrderedAround(heap, start, false)
      modifies `heap, heap`heapIndex
      ensures Ordered(heap) && Indexed() && multiset(heap) == multiset(old(heap))
    {
      var node := heap[start];
      var i := start;
      assert heap[i := node] == heap;
      while FirstChild(i) < |heap|
        invariant 0 <= i < |heap| && |heap| == |old(heap)|
        invariant OrderedAround(heap[i := node], i, false) && multiset(heap[i := node]) == multiset(old(heap))
        invariant HoleAt(i, node)
        decreases |heap| - i
      {
        var best := LeastChild(i);
        ChildrenOf(i, best);
        if heap[best].deadline >= node.deadline { break; }
        HoleDown(heap, i, best, node);
        assert heap[best] in multiset(heap[i := node]);
        Move(best, heap[best], i, node);
        i := best;
      }
      forall k | 0 < k < |heap| && Parent(k) == i ensures node.deadline <= heap[k].deadline { ChildrenOf(i, k); }
      Settled(heap, i, node);
      assert node in multiset(heap[i := node]);
      Fill(i, node);
    }

    /** The last member takes the place of the one at i, which leaves. */
    method CloseGap(i: nat, replacement: Timer)
      requires Indexed() && i < |heap| - 1 && heap[|heap| - 1] == replacement
      modifies `heap, replacement`heapIndex
      ensures heap == Gap(old(heap), i) && Indexed() && old(heap[i]) !in heap
    {
      heap := heap[..|heap| - 1][i := replacement];
      replacement.heapIndex := i;
    }

    /** heap_remove(): the member at i leaves, everyone else stays. */
    method RemoveAt(i: nat)
      requires Ordered(heap) && Indexed() && i < |heap|
      modifies `heap, heap`heapIndex
      ensures Ordered(heap) && Indexed() && old(heap[i]) !in heap
      ensures multiset(heap) + multiset{old(heap[i])} == multiset(old(heap))
    {
      var last := |heap| - 1;
      if i == last {
        assert heap == heap[..last] + [heap[last]];
        heap := heap[..last];
      } else {
        GapMembers(heap, i);
        GapOrder(heap, i);
        CloseGap(i, heap[last]);
        Resift(i, old(heap[i]));
      }
    }

    /** The member put at i goes where it belongs; `gone` stays away. */
    method Resift(i: nat, ghost gone: Timer)
      requires Indexed() && i < |heap| && gone !in heap
      requires OrderedAround(heap, i, i > 0 && heap[i].deadline < heap[Parent(i)].deadline)
      modifies `heap, heap`heapIndex
      ensures Ordered(heap) && Indexed() && multiset(heap) == multiset(old(heap)) && gone !in heap
    {
      assert gone !in multiset(heap);
      if i > 0 && heap[i].deadline < heap[Parent(i)].deadline {
        SiftUp(i);
      } else {
        SiftDown(i);
      }
      assert gone !in multiset(heap);
    }

    method PopRoot()
      requires Ordered(heap) && Indexed() && heap != []
      modifies `heap, heap`heapIndex
      ensures Ordered(heap) && Indexed() && old(heap[0]) !in heap
      ensures multiset(heap) + multiset{old(heap[0])} == multiset(old(heap))
    {
      ghost var was := heap;
      var last := |heap| - 1;
      if last == 0 {
        heap := heap[..last];
        assert was == [was[0]];
      } else {
        GapMembers(heap, 0);
        GapOrder(heap, 0);
        CloseGap(0, heap[last]);
        assert was[0] !in multiset(heap);
        SiftDown(0);
        assert was[0] !in multiset(heap);
      }
    }

    method Republish()
      requires Ordered(heap)
      modifies `earliest
      ensures IsEarliest(earliest, heap)
    {
      RootIsPublished(heap);
      earliest := if heap == [] then INT64_MAX else heap[0].deadline;
    }

    method Link(t: Timer)
      requires Ordered(heap) && Indexed() && t !in heap
      modifies `heap, heap`heapIndex, t`heapIndex
      ensures Ordered(heap) && Indexed() && multiset(heap) == multiset(old(heap)) + multiset{t}
      ensures heap != [] && (heap[0] == t || (old(heap) != [] && heap[0] == old(heap[0])))
      ensures heap[0] == t && old(heap) != [] ==> t.deadline < old(heap[0]).deadline
    {
      PushedOrder(heap, t);
      heap := heap + [t];
      t.heapIndex := |heap| - 1;
      SiftUp(|heap| - 1);
    }

    /**
     arm(): the timer joins the heap, unless there is no memory for it. The poller
     is nudged exactly when the timer is due before every other one.
     */
    method Arm(t: Timer, noMemory: bool) returns (nudge: bool)
      requires Valid() && t.heapIndex == NOT_IN_HEAP
      modifies this, heap`heapIndex, t
      ensures Valid()
      ensures noMemory ==> !nudge && heap == old(heap) && t.state == Idle && t.heapIndex == NOT_IN_HEAP
      ensures !noMemory ==> multiset(heap) == multiset(old(heap)) + multiset{t}
      ensures !noMemory ==> (nudge <==> forall u :: u in old(heap) ==> t.deadline < u.deadline)
    {
      t.state := Armed;
      if noMemory {
        t.state := Idle;
        return false;
      }
      ghost var was := heap;
      Link(t);
      nudge := heap[0] == t;
      if nudge { earliest := t.deadline; }
      PushedEarliest(was, heap, t, old(earliest));
      PushedNudge(was, heap, t);
      PushedMembers(was, heap, t);
    }

    /** The lock-protected part of disarm_slow(): true when the timer was still linked. */
    method Remove(t: Timer) returns (removed: bool)
      requires Valid()
      requires t.heapIndex != NOT_IN_HEAP ==> 0 <= t.heapIndex < |heap| && heap[t.heapIndex] == t
      modifies this, heap`heapIndex, t
      ensures Valid() && t !in heap && t.heapIndex == NOT_IN_HEAP
      ensures removed <==> t in old(heap)
      ensures removed ==> t.state == Cancelled && multiset(heap) + multiset{t} == multiset(old(heap))
      ensures !removed ==> heap == old(heap) && t.state == old(t.state)
    {
      removed := t.heapIndex != NOT_IN_HEAP;
      if removed {
        ghost var was := heap;
        var root := t.heapIndex == 0;
        RemoveAt(t.heapIndex);
        t.heapIndex := NOT_IN_HEAP;
        assert forall u :: u in heap ==> u in multiset(was);
        if root { Republish(); } else { RemovedEarliest(was, heap, t, earliest); }
        t.state := Cancelled;
      }
    }

    method TakeRoot() returns (t: Timer)
      requires Ordered(heap) && Indexed() && heap != []
      modifies `heap, heap
      ensures Ordered(heap) && Indexed() && t !in heap && t == old(heap[0])
      ensures multiset(heap) + multiset{t} == multiset(old(heap))
      ensures t.heapIndex == NOT_IN_HEAP && t.state == (if t.callback then Firing else Fired)
      ensures forall u :: u in old(heap) && u != t ==> u.state == old(u.state)
    {
      t := heap[0];
      PopRoot();
      t.heapIndex := NOT_IN_HEAP;
      t.state := if t.callback then Firing else Fired;
    }

    ghost predicate AllArmed()
      reads this, heap
    {
      forall u :: u in heap ==> u.state == Armed
    }

    /** One round of the batch loop. */
    method TakeDue(fired: seq<Timer>, ghost all: seq<Timer>, now: int) returns (longer: seq<Timer>)
      requires Ordered(heap) && Indexed() && AllArmed() && heap != [] && heap[0].deadline <= now
      requires Splits(fired, heap, all, now) && Distinct(fired) && forall f :: f in fired ==> Unlinked(f)
      modifies `heap, heap
      ensures Ordered(heap) && Indexed() && AllArmed() && |heap| < |old(heap)|
      ensures Splits(longer, heap, all, now) && |longer| == |fired| + 1 && Distinct(longer)
      ensures forall f :: f in longer ==> Unlinked(f)
    {
      ghost var was := heap;
      assert forall f :: f in fired ==> f !in heap;
      var t := TakeRoot();
      assert was[0] == t;
      TakeNext(fired, was, heap, all, t, now);
      longer := fired + [t];
    }

    /** One lock-protected batch of run_expired_shard(). */
    method TakeBatch(now: int) returns (fired: seq<Timer>)
      requires Valid()
      modifies this, heap
      ensures Valid() && |fired| <= BATCH && Splits(fired, heap, old(heap), now) && Distinct(fired)
      ensures forall f :: f in fired ==> Unlinked(f)
      ensures |fired| < BATCH ==> NoneDue(heap, now)
    {
      fired := [];
      while |fired| < BATCH && heap != [] && heap[0].deadline <= now
        invariant |fired| <= BATCH && Ordered(heap) && Indexed() && AllArmed() && Splits(fired, heap, old(heap), now)
        invariant Distinct(fired) && forall f :: f in fired ==> Unlinked(f)
        decreases |heap|
      {
        SplitMembers(fired, heap, old(heap), now);
        fired := TakeDue(fired, old(heap), now);
      }
      Republish();
      RootIsPublished(heap);
    }

    // While the shard is unlocked. `nodes` are the timers that anyone may name.

    /** Timers of this shard are known, and one that is not linked knows it. */
    ghost predicate Knows(nodes: set<Timer>)
      reads this, nodes
    {
      && (forall t :: t in heap ==> t in nodes)
      && (forall t :: t in nodes && t !in heap ==> t.heapIndex == NOT_IN_HEAP)
    }

    method ServeArm(t: Timer, ghost nodes: set<Timer>)
      requires Valid() && Knows(nodes) && t in nodes && t.heapIndex == NOT_IN_HEAP && t.state != Firing
      modifies this, nodes
      ensures Valid() && Knows(nodes) && multiset(heap) == multiset(old(heap)) + multiset{t}
      ensures t.state == Armed && forall u :: u in nodes && u != t ==> u.state == old(u.state)
    {
      var nudge := Arm(t, false);
      SameMembers(old(heap), heap, t);
    }

    method ServeRemove(t: Timer, ghost nodes: set<Timer>) returns (removed: bool)
      requires Valid() && Knows(nodes) && t in nodes && t.state != Firing
      modifies this, nodes
      ensures Valid() && Knows(nodes) && t.state != Firing
      ensures if removed then multiset(heap) + multiset{t} == multiset(old(heap)) else heap == old(heap)
      ensures forall u :: u in nodes && u != t ==> u.state == old(u.state)
      ensures if removed then old(t.state) == Armed else t.state == old(t.state)
    {
      removed := Remove(t);
      if removed { SameMembers(heap, old(heap), t); }
    }

    /** One request of another thread. A node whose callback still runs is waited for, not touched. */
    method Serve(r: Request, ghost nodes: set<Timer>) returns (armed: seq<Timer>, removed: seq<Timer>)
      requires Valid() && Knows(nodes) && (r.Proceed? || r.t in nodes)
      modifies this, nodes
      ensures Valid() && Knows(nodes) && Accounts(heap, [], removed, old(heap), armed)
      ensures forall u :: u in nodes ==> (u.state == Firing <==> old(u.state) == Firing)
      ensures forall u :: u in nodes && old(u.state) == Fired ==> u.state == Fired || u in armed
    {
      armed, removed := [], [];
      if r.ArmRequest? && r.t.state != Firing && r.t.heapIndex == NOT_IN_HEAP {
        ServeArm(r.t, nodes);
        armed := [r.t];
      } else if r.RemoveRequest? && r.t.state != Firing {
        var done := ServeRemove(r.t, nodes);
        if done { removed := [r.t]; }
      }
    }

    /** What a stretch of other threads' requests leaves behind. */
    twostate predicate Disturbed(nodes: set<Timer>, new armed: seq<Timer>, new removed: seq<Timer>)
      reads this, nodes
    {
      && Accounts(heap, [], removed, old(heap), armed)
      && (forall u :: u in nodes ==> (u.state == Firing <==> old(u.state) == Firing))
      && (forall u :: u in nodes && old(u.state) == Fired ==> u.state == Fired || u in armed)
    }

    /** Other threads' requests up to the next Proceed. */
    method Yield(script: seq<Request>, ghost nodes: set<Timer>)
      returns (rest: seq<Request>, armed: seq<Timer>, removed: seq<Timer>)
      requires Valid() && Knows(nodes) && forall r :: r in script ==> r.Proceed? || r.t in nodes
      modifies this, nodes
      ensures Valid() && Knows(nodes) && Disturbed(nodes, armed, removed)
      ensures forall r :: r in rest ==> r in script
      ensures if script == [] then rest == [] && armed == [] && removed == [] && heap == old(heap)
              else |rest| < |script|
    {
      rest, armed, removed := script, [], [];
      while rest != [] && !rest[0].Proceed?
        invariant Valid() && Knows(nodes) && Disturbed(nodes, armed, removed)
        invariant forall r :: r in rest ==> r in script
        invariant |rest| <= |script| && (script == [] ==> armed == [] && removed == [] && heap == old(heap))
      {
        ghost var mid := heap;
        var on, off := Serve(rest[0], nodes);
        AccountMore(mid, [], removed, old(heap), armed, heap, off, on);
        armed, removed, rest := armed + on, removed + off, rest[1..];
      }
      if rest != [] { rest := rest[1..]; }
    }

    method TakeRound(now: int, ghost nodes: set<Timer>) returns (r: Round)
      requires Valid() && Knows(nodes)
      modifies this, nodes
      ensures Valid() && Knows(nodes) && r.before == old(heap) && r.after == heap
      ensures |r.batch| <= BATCH && Splits(r.batch, r.after, r.before, now)
      ensures |r.batch| < BATCH ==> NoneDue(heap, now)
      ensures Distinct(r.batch) && forall f :: f in r.batch ==> f in nodes && Unlinked(f)
      ensures forall u :: u in nodes && u !in r.batch ==> u.state == old(u.state)
    {
      var before := heap;
      var batch := TakeBatch(now);
      SplitMembers(batch, heap, before, now);
      SplitCovers(batch, heap, before, now);
      r := Round(before, batch, heap);
    }

    /** From index i on the batch still waits for its callbacks; before it every node is done or armed again. */
    ghost predicate FiredUpTo(batch: seq<Timer>, i: nat, armed: seq<Timer>)
      reads batch
    {
      && (forall k :: i <= k < |batch| && batch[k].callback ==> batch[k].state == Firing)
      && (forall k :: 0 <= k < |batch| && (k < i || !batch[k].callback)
                      ==> batch[k].state == Fired || (batch[k] in armed && batch[k].state != Firing))
    }

    /** Other threads' requests, then the callback of the next node of the batch. */
    method FireOne(batch: seq<Timer>, i: nat, script: seq<Request>, ghost nodes: set<Timer>, ghost before: seq<Timer>)
      returns (rest: seq<Request>, armed: seq<Timer>, removed: seq<Timer>)
      requires Valid() && Knows(nodes) && forall r :: r in script ==> r.Proceed? || r.t in nodes
      requires Distinct(batch) && (forall f :: f in batch ==> f in nodes) && i < |batch| && FiredUpTo(batch, i, before)
      modifies this, nodes
      ensures Valid() && Knows(nodes) && Accounts(heap, [], removed, old(heap), armed)
      ensures FiredUpTo(batch, i + 1, before + armed)
      ensures forall u :: u in nodes && u.state == Firing ==> old(u.state) == Firing
      ensures forall u :: u in nodes && old(u.state) == Fired ==> u.state == Fired || u in armed
      ensures forall r :: r in rest ==> r in script
      ensures if script == [] then rest == [] && armed == [] && removed == [] && heap == old(heap)
              else |rest| < |script|
    {
      rest, armed, removed := Yield(script, nodes);
      var f := batch[i];
      if f.callback { f.state := Fired; }
    }

    /** Runs the callbacks of a batch outside the lock, other threads' requests coming in between. */
    method FireAll(batch: seq<Timer>, script: seq<Request>, ghost nodes: set<Timer>)
      returns (rest: seq<Request>, armed: seq<Timer>, removed: seq<Timer>)
      requires Valid() && Knows(nodes) && forall r :: r in script ==> r.Proceed? || r.t in nodes
      requires Distinct(batch) && forall f :: f in batch ==> f in nodes && Unlinked(f)
      modifies this, nodes
      ensures Valid() && Knows(nodes) && Accounts(heap, [], removed, old(heap), armed)
      ensures FiredUpTo(batch, |batch|, armed)
      ensures forall u :: u in nodes && u.state == Firing ==> old(u.state) == Firing
      ensures forall u :: u in nodes && old(u.state) == Fired ==> u.state == Fired || u in armed
      ensures forall r :: r in rest ==> r in script
      ensures script == [] ==> rest == [] && armed == [] && removed == [] && heap == old(heap)
      ensures if batch == [] then rest == script && heap == old(heap) else script != [] ==> |rest| < |script|
    {
      rest, armed, removed := script, [], [];
      var i := 0;
      while i < |batch|
        invariant 0 <= i <= |batch|
        invariant Valid() && Knows(nodes) && Accounts(heap, [], removed, old(heap), armed)
        invariant FiredUpTo(batch, i, armed)
        invariant forall u :: u in nodes && u.state == Firing ==> old(u.state) == Firing
        invariant forall u :: u in nodes && old(u.state) == Fired ==> u.state == Fired || u in armed
        invariant forall r :: r in rest ==> r in script
        invariant script == [] ==> rest == [] && armed == [] && removed == [] && heap == old(heap)
        invariant if i == 0 then rest == script && heap == old(heap) else script != [] ==> |rest| < |script|
      {
        ghost var mid := heap;
        var later, on, off := FireOne(batch, i, rest, nodes, armed);
        AccountMore(mid, [], removed, old(heap), armed, heap, off, on);
        rest, armed, removed := later, armed + on, removed + off;
        i := i + 1;
      }
    }

    /** A locked section of run_expired_shard() and the callbacks of its batch. */
    method RunRound(now: int, script: seq<Request>, ghost nodes: set<Timer>)
      returns (r: Round, rest: seq<Request>, armed: seq<Timer>, removed: seq<Timer>)
      requires Valid() && Knows(nodes) && forall q :: q in script ==> q.Proceed? || q.t in nodes
      modifies this, nodes
      ensures Valid() && Knows(nodes) && r.before == old(heap) && |r.after| + |r.batch| == |r.before|
      ensures |r.batch| <= BATCH && Splits(r.batch, r.after, r.before, now)
      ensures |r.batch| < BATCH ==> NoneDue(r.after, now)
      ensures Accounts(heap, [], removed, r.after, armed)
      ensures forall f :: f in r.batch ==> f in nodes && (f.state == Fired || f in armed)
      ensures forall u :: u in nodes && u.state == Firing ==> old(u.state) == Firing
      ensures forall u :: u in nodes && old(u.state) == Fired ==> u.state == Fired || u in armed
      ensures forall q :: q in rest ==> q in script
      ensures script == [] ==> rest == [] && armed == [] && removed == [] && heap == r.after
      ensures if r.batch == [] then rest == script && heap == r.after else script != [] ==> |rest| < |script|
    {
      r := TakeRound(now, nodes);
      SplitMembers(r.batch, r.after, r.before, now);
      rest, armed, removed := FireAll(r.batch, script, nodes);
    }

    /** One more round, added to the account of those before it. */
    method RunNext(now: int, script: seq<Request>, ghost nodes: set<Timer>, rounds: seq<Round>, armed: seq<Timer>,
                   removed: seq<Timer>, ghost was: seq<Timer>)
      returns (all: seq<Round>, rest: seq<Request>, arms: seq<Timer>, removals: seq<Timer>)
      requires Valid() && Knows(nodes) && forall q :: q in script ==> q.Proceed? || q.t in nodes
      requires Explains(rounds, was, now) && Accounts(heap, AllFired(rounds), removed, was, armed)
      requires forall f :: f in AllFired(rounds) ==> f in nodes && (f.state == Fired || f in armed)
      modifies this, nodes
      ensures Valid() && Knows(nodes) && Explains(all, was, now) && |all| == |rounds| + 1
      ensures Accounts(heap, AllFired(all), removals, was, arms)
      ensures forall f :: f in AllFired(all) ==> f in nodes && (f.state == Fired || f in arms)
      ensures forall u :: u in nodes && u.state == Firing ==> old(u.state) == Firing
      ensures forall q :: q in rest ==> q in script
      ensures var r := all[|all| - 1];
              && |r.batch| <= BATCH
              && (|r.batch| < BATCH ==> NoneDue(r.after, now) && DueAreGone(AllFired(all), removals, was, now))
              && (if r.batch == [] then rest == script && |heap| == |old(heap)|
                  else |rest| < |script| || (rest == script && |heap| < |old(heap)|))
      ensures script == [] && Quiet(rounds, old(heap), removed, armed) ==>
                rest == [] && Quiet(all, heap, removals, arms)
    {
      var round, on, off;
      round, rest, on, off := RunRound(now, script, nodes);
      NextRound(rounds, round, now, heap, removed, was, armed, off, on);
      if script == [] && Quiet(rounds, old(heap), removed, armed) {
        QuietNext(rounds, round, heap, removed, armed, off, on);
      }
      all, arms, removals := rounds + [round], armed + on, removed + off;
    }

    /**
     run_expired_shard(), while others arm and remove between its locked sections. Each
     batch is due and in order; each firing and each removal answers one arming; every
     timer that was due has fired or was removed, and at the last release none is due.
     */
    method RunExpired(now: int, script: seq<Request>, ghost nodes: set<Timer>)
      returns (rounds: seq<Round>, armed: seq<Timer>, removed: seq<Timer>)
      requires Valid() && Knows(nodes) && forall r :: r in script ==> r.Proceed? || r.t in nodes
      modifies this, nodes
      ensures Valid() && Knows(nodes)
      ensures Explains(rounds, old(heap), now) && NoneDue(rounds[|rounds| - 1].after, now)
      ensures Accounts(heap, AllFired(rounds), removed, old(heap), armed)
      ensures DueAreGone(AllFired(rounds), removed, old(heap), now)
      ensures forall f :: f in AllFired(rounds) ==> f.state == Fired || f in armed
      ensures forall u :: u in nodes && u.state == Firing ==> old(u.state) == Firing
      ensures script == [] ==> Quiet(rounds, heap, removed, armed)
    {
      var round, rest, on, off := RunRound(now, script, nodes);
      rounds, armed, removed := [round], on, off;
      FirstRound(round, now, heap, off, on);
      assert rounds[|rounds| - 1] == round;
      while |round.batch| == BATCH
        invariant Valid() && Knows(nodes)
        invariant Explains(rounds, old(heap), now) && rounds[|rounds| - 1] == round
        invariant |round.batch| < BATCH ==>
                    NoneDue(round.after, now) && DueAreGone(AllFired(rounds), removed, old(heap), now)
        invariant Accounts(heap, AllFired(rounds), removed, old(heap), armed)
        invariant forall f :: f in AllFired(rounds) ==> f in nodes && (f.state == Fired || f in armed)
        invariant forall u :: u in nodes && u.state == Firing ==> old(u.state) == Firing
        invariant forall r :: r in rest ==> r in script
        invariant script == [] ==> rest == [] && Quiet(rounds, heap, removed, armed)
        decreases |rest|, |heap|, |round.batch|
      {
        rounds, rest, armed, removed := RunNext(now, rest, nodes, rounds, armed, removed, old(heap));
        round := rounds[|rounds| - 1];
      }
    }
  }
}
