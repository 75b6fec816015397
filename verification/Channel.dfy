/**
 A channel: a ring of buffered values and two queues of parked waiters, every
 operation one section under the channel lock. Waiter nodes are named by ids;
 `slot` and `success` are the fields a peer writes into a parked node, and
 `winner` the claim words of the selects whose cases are parked here. Another
 channel may win such a select at any time between operations.

 History: `sent` holds the values of completed sends and `delivered` the values
 received, each in order of completion; `parkedPlain` and `donePlain` list the
 non-select senders that parked and those of them that completed.
 */
module Channel {
  import opened Prelude

  type Id = nat
  type ClaimId = nat
  datatype Case = Case(claim: ClaimId, index: nat)
  datatype Waiter<P> = Waiter(id: Id, select: Option<Case>, payload: P)
  datatype Status = Done | Closed | Blocked

  // --------------------------------------------------------------- claims

  /** Acquiring this waiter would succeed: it is no select case, or its select has no winner yet. */
  predicate Live<P>(w: Waiter<P>, winner: map<ClaimId, nat>) {
    w.select.None? || w.select.value.claim !in winner
  }

  function Acquire<P>(w: Waiter<P>, winner: map<ClaimId, nat>): map<ClaimId, nat> {
    if w.select.None? then winner else winner[w.select.value.claim := w.select.value.index]
  }

  predicate AnyLive<P>(q: seq<Waiter<P>>, winner: map<ClaimId, nat>) {
    exists i :: 0 <= i < |q| && Live(q[i], winner)
  }

  /** The queue without its leading dead waiters. */
  function DropDead<P>(q: seq<Waiter<P>>, winner: map<ClaimId, nat>): seq<Waiter<P>> {
    if q == [] || Live(q[0], winner) then q else DropDead(q[1..], winner)
  }

  lemma {:induction false} DropDeadIs<P>(q: seq<Waiter<P>>, winner: map<ClaimId, nat>)
    ensures var r := DropDead(q, winner);
            && |r| <= |q| && r == q[|q| - |r|..]
            && (r != [] <==> AnyLive(q, winner))
            && (r != [] ==> Live(r[0], winner))
            && forall i :: 0 <= i < |q| - |r| ==> !Live(q[i], winner)
  {
    if q != [] && !Live(q[0], winner) {
      DropDeadIs(q[1..], winner);
      assert forall i :: 1 <= i < |q| ==> q[i] == q[1..][i - 1];
      assert AnyLive(q[1..], winner) ==> AnyLive(q, winner);
    }
  }

  /** Acquiring a waiter wakes no dead one up, here or in any other queue. */
  lemma LivenessFades<P>(q: seq<Waiter<P>>, k: nat, w: Waiter<P>, winner: map<ClaimId, nat>)
    requires k <= |q| && AnyLive(q[k..], Acquire(w, winner))
    ensures AnyLive(q, winner)
  {
    var i :| 0 <= i < |q[k..]| && Live(q[k..][i], Acquire(w, winner));
    assert Live(q[k + i], winner);
  }

  /** The ids of the non-select waiters of a queue, in order. */
  function Plain<P>(q: seq<Waiter<P>>): seq<Id> {
    if q == [] then []
    else if q[0].select.None? then [q[0].id] + Plain(q[1..])
    else Plain(q[1..])
  }

  lemma {:induction false} PlainOfAppend<P>(q: seq<Waiter<P>>, w: Waiter<P>)
    ensures Plain(q + [w]) == Plain(q) + Plain([w])
  {
    if q != [] {
      assert (q + [w])[1..] == q[1..] + [w];
      PlainOfAppend(q[1..], w);
    } else {
      assert q + [w] == [w];
    }
  }

  /** Dead waiters are select cases, so dropping them loses no plain waiter. */
  lemma {:induction false} DropDeadKeepsPlain<P>(q: seq<Waiter<P>>, winner: map<ClaimId, nat>)
    ensures Plain(DropDead(q, winner)) == Plain(q)
  {
    if q != [] && !Live(q[0], winner) {
      DropDeadKeepsPlain(q[1..], winner);
    }
  }

  // ------------------------------------------------------------- the ring

  /** n cells of the ring b from `start` on, wrapping at its end. */
  function Window<T>(b: seq<T>, start: nat, n: nat): (r: seq<T>)
    requires start < |b| && n <= |b|
    ensures |r| == n
  {
    if start + n <= |b| then b[start..start + n] else b[start..] + b[..start + n - |b|]
  }

  lemma WindowGrows<T>(b: seq<T>, start: nat, n: nat, v: T)
    requires start < |b| && n < |b|
    ensures var at := if start + n < |b| then start + n else start + n - |b|;
            Window(b[at := v], start, n + 1) == Window(b, start, n) + [v]
  {
  }

  lemma WindowShrinks<T>(b: seq<T>, start: nat, n: nat)
    requires start < |b| && 0 < n <= |b|
    ensures [b[start]] + Window(b, if start + 1 == |b| then 0 else start + 1, n - 1) == Window(b, start, n)
  {
  }

  function Empty<T>(capacity: nat): View<T> {
    View(capacity, [], [], [], false, map[], map[], map[], [], [], [], [])
  }

  // -------------------------------------------------------- specification

  /** What a channel is, the ring as the sequence of its buffered values, oldest first. */
  datatype View<T> = View(capacity: nat, ring: seq<T>, senders: seq<Waiter<T>>, receivers: seq<Waiter<()>>,
                          closed: bool,
                          winner: map<ClaimId, nat>, slot: map<Id, T>, success: map<Id, bool>,
                          sent: seq<T>, delivered: seq<T>, parkedPlain: seq<Id>, donePlain: seq<Id>)

  datatype Outcome<T> = Outcome(after: View<T>, status: Status, out: Option<T>, wake: Option<Id>)

  function SendSpec<T>(c: View<T>, v: T): Outcome<T> {
    var d := DropDead(c.receivers, c.winner);
    if c.closed then Outcome(c, Closed, None, None)
    else if d != [] then
      Outcome(c.(receivers := d[1..], winner := Acquire(d[0], c.winner), slot := c.slot[d[0].id := v],
                 success := c.success[d[0].id := true], sent := c.sent + [v], delivered := c.delivered + [v]),
              Done, None, Some(d[0].id))
    else if |c.ring| < c.capacity then
      Outcome(c.(receivers := [], ring := c.ring + [v], sent := c.sent + [v]), Done, None, None)
    else Outcome(c.(receivers := []), Blocked, None, None)
  }

  /** The first live sender, if any, puts its value behind the ring and completes. */
  function Admit<T>(c: View<T>): View<T> {
    var d := DropDead(c.senders, c.winner);
    if d == [] then c.(senders := [])
    else c.(senders := d[1..], winner := Acquire(d[0], c.winner), success := c.success[d[0].id := true],
            ring := c.ring + [d[0].payload], sent := c.sent + [d[0].payload],
            donePlain := c.donePlain + Plain([d[0]]))
  }

  /** Receiving admits a sender and then takes the oldest value. */
  function RecvSpec<T>(c: View<T>): Outcome<T> {
    var d := DropDead(c.senders, c.winner);
    var a := Admit(c);
    if a.ring != [] then
      Outcome(a.(ring := a.ring[1..], delivered := c.delivered + [a.ring[0]]), Done, Some(a.ring[0]),
              if d == [] then None else Some(d[0].id))
    else Outcome(a, if c.closed then Closed else Blocked, None, None)
  }

  /** The words close() changes while it empties a queue. */
  datatype Sweep<T> = Sweep(winner: map<ClaimId, nat>, slot: map<Id, T>, success: map<Id, bool>, woken: seq<Id>)

  /** One waiter is failed and pushed onto the wake list, unless its select was won elsewhere. */
  function SweepOne<T, P>(w: Waiter<P>, k: Sweep<T>): Sweep<T> {
    if Live(w, k.winner)
    then Sweep(Acquire(w, k.winner), k.slot - {w.id}, k.success[w.id := false], [w.id] + k.woken)
    else k
  }

  function SweepAll<T, P>(q: seq<Waiter<P>>, k: Sweep<T>): Sweep<T> {
    if q == [] then k else SweepAll(q[1..], SweepOne(q[0], k))
  }

  function CloseSweep<T>(c: View<T>): Sweep<T> {
    SweepAll(c.senders, SweepAll(c.receivers, Sweep(c.winner, c.slot, c.success, [])))
  }

  function CloseSpec<T>(c: View<T>): View<T> {
    var k := CloseSweep(c);
    if c.closed then c
    else c.(closed := true, senders := [], receivers := [], winner := k.winner, slot := k.slot, success := k.success)
  }

  function ParkSenderSpec<T>(c: View<T>, w: Waiter<T>): View<T> {
    c.(senders := c.senders + [w], success := c.success[w.id := false], parkedPlain := c.parkedPlain + Plain([w]))
  }

  function ParkReceiverSpec<T>(c: View<T>, w: Waiter<()>): View<T> {
    c.(receivers := c.receivers + [w], success := c.success[w.id := false])
  }

  /** A parked select takes its case back after losing here. */
  function Without<P>(q: seq<Waiter<P>>, id: Id): seq<Waiter<P>> {
    if q == [] then [] else if q[0].id == id then q[1..] else [q[0]] + Without(q[1..], id)
  }

  // ---------------------------------------------------------- the channel

  /** The buffered values: capacity, count and the two indices of the channel, with their storage. */
  class Ring<T(0)> {
    const capacity: nat
    const buffer: array<T>
    var count: nat
    var sendIndex: nat
    var recvIndex: nat

    ghost predicate Valid()
      reads this
    {
      && buffer.Length == capacity && count <= capacity
      && (capacity > 0 ==>
            && recvIndex < capacity
            && sendIndex == if recvIndex + count < capacity then recvIndex + count else recvIndex + count - capacity)
    }

    ghost function Contents(): (r: seq<T>)
      requires Valid()
      reads this, buffer
      ensures |r| == count
    {
      if capacity == 0 then [] else Window(buffer[..], recvIndex, count)
    }

    constructor (capacity: nat)
      ensures Valid() && this.capacity == capacity && Contents() == [] && fresh(buffer)
    {
      this.capacity := capacity;
      buffer := new T[capacity];
      count, sendIndex, recvIndex := 0, 0, 0;
    }

    method NextIndex(i: nat) returns (n: nat)
      requires i < capacity
      ensures n == if i + 1 < capacity then i + 1 else 0
    {
      n := i + 1;
      if n == capacity { n := 0; }
    }

    method Push(v: T)
      requires Valid() && count < capacity
      modifies this, buffer
      ensures Valid() && Contents() == old(Contents()) + [v]
    {
      WindowGrows(buffer[..], recvIndex, count, v);
      buffer[sendIndex] := v;
      sendIndex := NextIndex(sendIndex);
      count := count + 1;
    }

    method Pop() returns (v: T)
      requires Valid() && count > 0
      modifies this
      ensures Valid() && [v] + Contents() == old(Contents())
    {
      WindowShrinks(buffer[..], recvIndex, count);
      v := buffer[recvIndex];
      recvIndex := NextIndex(recvIndex);
      count := count - 1;
    }
  }

  class Chan<T(0)> {
    const ring: Ring<T>
    var closed: bool
    var senders: seq<Waiter<T>>
    var receivers: seq<Waiter<()>>
    var winner: map<ClaimId, nat>
    var slot: map<Id, T>
    var success: map<Id, bool>
    ghost var sent: seq<T>
    ghost var delivered: seq<T>
    ghost var parkedPlain: seq<Id>
    ghost var donePlain: seq<Id>

    ghost function Abs(): View<T>
      requires ring.Valid()
      reads this, ring, ring.buffer
    {
      View(ring.capacity, ring.Contents(), senders, receivers, closed, winner, slot, success,
           sent, delivered, parkedPlain, donePlain)
    }

    constructor (capacity: nat)
      ensures ring.Valid() && Abs() == Empty(capacity) && fresh(ring) && fresh(ring.buffer)
    {
      ring := new Ring<T>(capacity);
      closed, senders, receivers, winner, slot, success := false, [], [], map[], map[], map[];
      sent, delivered, parkedPlain, donePlain := [], [], [], [];
    }

    /** Pops waiters until one can be acquired; the dead ones before it are dropped. */
    method AcquireFirst<P>(q: seq<Waiter<P>>) returns (w: Option<Waiter<P>>, rest: seq<Waiter<P>>)
      modifies `winner
      ensures var d := DropDead(q, old(winner));
              if d == [] then w.None? && rest == [] && winner == old(winner)
              else w == Some(d[0]) && rest == d[1..] && winner == Acquire(d[0], old(winner))
    {
      rest := q;
      while rest != []
        invariant DropDead(rest, winner) == DropDead(q, winner) && winner == old(winner)
        decreases |rest|
      {
        var first := rest[0];
        rest := rest[1..];
        if Live(first, winner) {
          winner := Acquire(first, winner);
          return Some(first), rest;
        }
      }
      w := None;
    }

    /** try_send_locked() */
    method TrySend(v: T) returns (status: Status, wake: Option<Id>)
      requires ring.Valid()
      modifies this, ring, ring.buffer
      ensures ring.Valid() && Outcome(Abs(), status, None, wake) == SendSpec(old(Abs()), v)
    {
      if closed { return Closed, None; }
      status, wake := Done, None;
      var w;
      w, receivers := AcquireFirst(receivers);
      if w.Some? {
        slot, success := slot[w.value.id := v], success[w.value.id := true];
        sent, delivered := sent + [v], delivered + [v];
        wake := Some(w.value.id);
      } else if ring.count < ring.capacity {
        ring.Push(v);
        sent := sent + [v];
      } else {
        status := Blocked;
      }
    }

    /** The first live sender completes: its value is the caller's to place. */
    method TakeSender() returns (w: Option<Waiter<T>>)
      modifies `senders, `winner, `success, `sent, `donePlain
      ensures var d := DropDead(old(senders), old(winner));
              if d == [] then w.None? && senders == [] && unchanged(`winner, `success, `sent, `donePlain)
              else && w == Some(d[0]) && senders == d[1..] && winner == Acquire(d[0], old(winner))
                   && success == old(success)[d[0].id := true] && sent == old(sent) + [d[0].payload]
                   && donePlain == old(donePlain) + Plain([d[0]])
    {
      w, senders := AcquireFirst(senders);
      if w.Some? {
        success := success[w.value.id := true];
        sent, donePlain := sent + [w.value.payload], donePlain + Plain([w.value]);
      }
    }

    /** try_recv_locked() */
    method TryRecv() returns (status: Status, out: Option<T>, wake: Option<Id>)
      requires ring.Valid()
      modifies this, ring, ring.buffer
      ensures ring.Valid() && Outcome(Abs(), status, out, wake) == RecvSpec(old(Abs()))
    {
      wake := None;
      if ring.count > 0 {
        var v := ring.Pop();
        var w := TakeSender();
        if w.Some? {
          ring.Push(w.value.payload);
          wake := Some(w.value.id);
          assert old(ring.Contents()) + [w.value.payload] == [v] + ring.Contents();
        }
        delivered := delivered + [v];
        status, out := Done, Some(v);
      } else {
        var w := TakeSender();
        if w.Some? {
          delivered := delivered + [w.value.payload];
          status, out, wake := Done, Some(w.value.payload), Some(w.value.id);
        } else {
          status, out := if closed then Closed else Blocked, None;
        }
      }
    }

    /** try_recv_now_locked(): the shortcut taken when no sender is parked changes nothing else. */
    method TryRecvNow() returns (status: Status, out: Option<T>, wake: Option<Id>)
      requires ring.Valid()
      modifies this, ring, ring.buffer
      ensures ring.Valid() && Outcome(Abs(), status, out, wake) == RecvSpec(old(Abs()))
    {
      if ring.count == 0 || senders != [] {
        status, out, wake := TryRecv();
      } else {
        var v := ring.Pop();
        delivered := delivered + [v];
        assert old(ring.Contents())[0] == v && old(ring.Contents())[1..] == ring.Contents();
        status, out, wake := Done, Some(v), None;
      }
    }

    /** SendAwaiter::await_suspend(): true when the sender parked. */
    method Send(id: Id, v: T) returns (suspended: bool, wake: Option<Id>)
      requires ring.Valid()
      modifies this, ring, ring.buffer
      ensures ring.Valid()
      ensures var o := SendSpec(old(Abs()), v);
              && suspended == (o.status == Blocked) && wake == o.wake
              && Abs() == if suspended then ParkSenderSpec(o.after, Waiter(id, None, v))
                          else o.after.(success := o.after.success[id := o.status == Done])
    {
      var status;
      status, wake := TrySend(v);
      suspended := status == Blocked;
      if suspended {
        senders := senders + [Waiter(id, None, v)];
        parkedPlain := parkedPlain + Plain([Waiter(id, None, v)]);
        success := success[id := false];
      } else {
        success := success[id := status == Done];
      }
    }

    /** RecvAwaiter::await_suspend(): true when the receiver parked. */
    method Recv(id: Id) returns (suspended: bool, out: Option<T>, wake: Option<Id>)
      requires ring.Valid()
      modifies this, ring, ring.buffer
      ensures ring.Valid()
      ensures var o := RecvSpec(old(Abs()));
              && suspended == (o.status == Blocked) && wake == o.wake && out == o.out
              && Abs() == if suspended then ParkReceiverSpec(o.after, Waiter(id, None, ())) else o.after
    {
      var status;
      status, out, wake := TryRecv();
      suspended := status == Blocked;
      if suspended {
        receivers := receivers + [Waiter(id, None, ())];
        success := success[id := false];
      }
    }

    ghost function Words(woken: seq<Id>): Sweep<T>
      reads this
    {
      Sweep(winner, slot, success, woken)
    }

    method SweepQueue<P>(q: seq<Waiter<P>>, already: seq<Id>) returns (woken: seq<Id>)
      modifies `winner, `slot, `success
      ensures Words(woken) == SweepAll(q, old(Words(already)))
    {
      var rest := q;
      woken := already;
      while rest != []
        invariant SweepAll(rest, Words(woken)) == SweepAll(q, old(Words(already)))
        decreases |rest|
      {
        var w := rest[0];
        rest := rest[1..];
        if Live(w, winner) {
          winner, slot, success := Acquire(w, winner), slot - {w.id}, success[w.id := false];
          woken := [w.id] + woken;
        }
      }
    }

    /** close(): every waiter that can still be won is failed and returned for waking. */
    method Close() returns (woken: seq<Id>)
      requires ring.Valid()
      modifies this
      ensures ring.Valid() && Abs() == CloseSpec(old(Abs()))
      ensures woken == if old(closed) then [] else CloseSweep(old(Abs())).woken
    {
      if closed { return []; }
      closed := true;
      woken := SweepQueue(receivers, []);
      receivers := [];
      woken := SweepQueue(senders, woken);
      senders := [];
    }
  }
}
