/**
 What every run of a channel keeps. The operations are those of the Channel
 module together with what happens around it: a select parks a case after all its
 cases blocked, takes a case back, or is won through another channel.
 */
module ChannelHistory {
  import opened Prelude
  import opened Channel
  import Traces

  // ------------------------------------------------------------ invariant

  /** No two waiters of a queue share a node. */
  ghost predicate DistinctIds<P>(q: seq<Waiter<P>>) {
    forall i, j :: 0 <= i < j < |q| ==> q[i].id != q[j].id
  }

  /** Nodes parked here have not completed. */
  ghost predicate Unfinished<P>(q: seq<Waiter<P>>, success: map<Id, bool>) {
    forall i :: 0 <= i < |q| ==> q[i].id in success && !success[q[i].id]
  }

  ghost predicate Apart<P, Q>(q: seq<Waiter<P>>, p: seq<Waiter<Q>>) {
    forall i, j :: 0 <= i < |q| && 0 <= j < |p| ==> q[i].id != p[j].id
  }

  ghost predicate NodesOk<T>(c: View<T>) {
    && DistinctIds(c.senders) && DistinctIds(c.receivers) && Apart(c.senders, c.receivers)
    && Unfinished(c.senders, c.success) && Unfinished(c.receivers, c.success)
  }

  ghost predicate ValuesOk<T>(c: View<T>) {
    && |c.ring| <= c.capacity
    && c.sent == c.delivered + c.ring
    && c.donePlain <= c.parkedPlain
    && (!c.closed ==> c.parkedPlain == c.donePlain + Plain(c.senders))
  }

  ghost predicate WaitersOk<T>(c: View<T>) {
    && (AnyLive(c.receivers, c.winner) ==> c.ring == [])
    && (AnyLive(c.senders, c.winner) ==> |c.ring| == c.capacity)
    && (c.closed ==> c.senders == [] && c.receivers == [])
  }

  /** Both are cases of one select, which cannot serve itself. */
  predicate SameSelect<P, Q>(w: Waiter<P>, v: Waiter<Q>) {
    w.select.Some? && v.select.Some? && w.select.value.claim == v.select.value.claim
  }

  /** A live sender and a live receiver never wait for each other. */
  ghost predicate NoMatch<P, Q>(q: seq<Waiter<P>>, p: seq<Waiter<Q>>, winner: map<ClaimId, nat>) {
    forall w, v :: w in q && v in p && Live(w, winner) && Live(v, winner) ==> SameSelect(w, v)
  }

  ghost predicate Inv<T>(c: View<T>) {
    ValuesOk(c) && WaitersOk(c) && NodesOk(c) && NoMatch(c.senders, c.receivers, c.winner)
  }

  // ----------------------------------------------------------- operations

  datatype Op<T> =
    | TrySend(v: T) | TryRecv | Close
    | Send(id: Id, v: T) | Recv(id: Id)
    | ParkSend(sender: Waiter<T>) | ParkRecv(receiver: Waiter<()>)     // a select that found every case blocked
    | RetractSend(id: Id) | RetractRecv(id: Id)
    | WonElsewhere(claim: ClaimId, index: nat)

  /** A node not in use by either queue. */
  predicate Unqueued<T>(c: View<T>, id: Id) {
    && (forall i :: 0 <= i < |c.senders| ==> c.senders[i].id != id)
    && (forall i :: 0 <= i < |c.receivers| ==> c.receivers[i].id != id)
  }

  predicate IsSelectCase<P>(q: seq<Waiter<P>>, id: Id) {
    forall i :: 0 <= i < |q| && q[i].id == id ==> q[i].select.Some?
  }

  /** No waiter of the queue could serve w: those still live are cases of the same select. */
  ghost predicate Unserved<P, Q>(w: Waiter<P>, q: seq<Waiter<Q>>, winner: map<ClaimId, nat>) {
    forall v :: v in q && Live(v, winner) ==> SameSelect(w, v)
  }

  ghost predicate Enabled<T>(c: View<T>, op: Op<T>) {
    match op
    case Send(id, _) => Unqueued(c, id)
    case Recv(id) => Unqueued(c, id)
    case ParkSend(w) =>
      Unqueued(c, w.id) && w.select.Some? && !c.closed && |c.ring| == c.capacity && Unserved(w, c.receivers, c.winner)
    case ParkRecv(w) =>
      Unqueued(c, w.id) && w.select.Some? && !c.closed && c.ring == [] && Unserved(w, c.senders, c.winner)
    case RetractSend(id) => IsSelectCase(c.senders, id)
    case RetractRecv(id) => IsSelectCase(c.receivers, id)
    case WonElsewhere(claim, _) => claim !in c.winner
    case _ => true
  }

  function Apply<T>(c: View<T>, op: Op<T>): View<T> {
    match op
    case TrySend(v) => SendSpec(c, v).after
    case TryRecv => RecvSpec(c).after
    case Close => CloseSpec(c)
    case Send(id, v) =>
      var o := SendSpec(c, v);
      if o.status == Blocked then ParkSenderSpec(o.after, Waiter(id, None, v))
      else o.after.(success := o.after.success[id := o.status == Done])
    case Recv(id) =>
      var o := RecvSpec(c);
      if o.status == Blocked then ParkReceiverSpec(o.after, Waiter(id, None, ())) else o.after
    case ParkSend(w) => ParkSenderSpec(c, w)
    case ParkRecv(w) => ParkReceiverSpec(c, w)
    case RetractSend(id) => c.(senders := Without(c.senders, id))
    case RetractRecv(id) => c.(receivers := Without(c.receivers, id))
    case WonElsewhere(claim, index) => c.(winner := c.winner[claim := index])
  }

  ghost predicate Init<T>(c: View<T>) {
    c == Empty(c.capacity)
  }

  ghost predicate Next<T(!new)>(c: View<T>, d: View<T>) {
    exists op :: Enabled(c, op) && d == Apply(c, op)
  }

  // ---------------------------------------------------------------- proof

  lemma DeadStays<P>(q: seq<Waiter<P>>, winner: map<ClaimId, nat>, more: map<ClaimId, nat>)
    requires winner.Keys <= more.Keys && AnyLive(q, more)
    ensures AnyLive(q, winner)
  {
    var i :| 0 <= i < |q| && Live(q[i], more);
    assert Live(q[i], winner);
  }

  /** Waiters that leave and claims that are won make no new match. */
  lemma NoMatchShrinks<P, Q>(q: seq<Waiter<P>>, p: seq<Waiter<Q>>, winner: map<ClaimId, nat>,
                             fewer: seq<Waiter<P>>, less: seq<Waiter<Q>>, more: map<ClaimId, nat>)
    requires NoMatch(q, p, winner) && winner.Keys <= more.Keys
    requires (forall w :: w in fewer ==> w in q) && forall v :: v in less ==> v in p
    ensures NoMatch(fewer, less, more)
  {
  }

  lemma SendKeepsNoMatch<T>(c: View<T>, v: T)
    requires NoMatch(c.senders, c.receivers, c.winner)
    ensures var d := SendSpec(c, v).after; NoMatch(d.senders, d.receivers, d.winner)
    ensures var o := SendSpec(c, v); o.status == Blocked ==> o.after.receivers == []
  {
    var d := SendSpec(c, v).after;
    DropDeadIs(c.receivers, c.winner);
    NoMatchShrinks(c.senders, c.receivers, c.winner, d.senders, d.receivers, d.winner);
  }

  lemma RecvKeepsNoMatch<T>(c: View<T>)
    requires NoMatch(c.senders, c.receivers, c.winner)
    ensures var d := RecvSpec(c).after; NoMatch(d.senders, d.receivers, d.winner)
    ensures var o := RecvSpec(c); o.status == Blocked ==> o.after.senders == []
  {
    var d := RecvSpec(c).after;
    DropDeadIs(c.senders, c.winner);
    NoMatchShrinks(c.senders, c.receivers, c.winner, d.senders, d.receivers, d.winner);
  }

  lemma SendKeepsValues<T>(c: View<T>, v: T)
    requires ValuesOk(c) && WaitersOk(c)
    ensures ValuesOk(SendSpec(c, v).after)
  {
    DropDeadIs(c.receivers, c.winner);
  }

  lemma SendKeepsWaiters<T>(c: View<T>, v: T)
    requires ValuesOk(c) && WaitersOk(c)
    ensures WaitersOk(SendSpec(c, v).after)
  {
    var d := DropDead(c.receivers, c.winner);
    DropDeadIs(c.receivers, c.winner);
    if !c.closed && d != [] {
      var k := |c.receivers| - |d| + 1;
      assert d[1..] == c.receivers[k..];
      if AnyLive(d[1..], Acquire(d[0], c.winner)) { LivenessFades(c.receivers, k, d[0], c.winner); }
      if AnyLive(c.senders, Acquire(d[0], c.winner)) { DeadStays(c.senders, c.winner, Acquire(d[0], c.winner)); }
    }
  }

  /** Completing the waiter at n and dropping those before it leaves both queues in order. */
  lemma PopKeepsNodes<P, Q>(q: seq<Waiter<P>>, n: nat, p: seq<Waiter<Q>>, success: map<Id, bool>)
    requires n < |q| && DistinctIds(q) && Apart(q, p) && Unfinished(q, success) && Unfinished(p, success)
    ensures var s' := success[q[n].id := true];
            DistinctIds(q[n + 1..]) && Apart(q[n + 1..], p) && Unfinished(q[n + 1..], s') && Unfinished(p, s')
  {
    var r := q[n + 1..];
    forall i | 0 <= i < |r| ensures r[i] == q[n + 1 + i] && r[i].id != q[n].id {}
  }

  lemma SendKeepsNodes<T>(c: View<T>, v: T)
    requires NodesOk(c)
    ensures NodesOk(SendSpec(c, v).after)
  {
    var d := DropDead(c.receivers, c.winner);
    DropDeadIs(c.receivers, c.winner);
    if d != [] {
      var n := |c.receivers| - |d|;
      PopKeepsNodes(c.receivers, n, c.senders, c.success);
      assert d[0] == c.receivers[n] && d[1..] == c.receivers[n + 1..];
    }
  }

  /** Admitting a sender overfills the ring by at most the value about to leave it. */
  lemma AdmitKeepsValues<T>(c: View<T>)
    requires ValuesOk(c) && (c.closed ==> c.senders == [])
    ensures var a := Admit(c);
            && a.sent == a.delivered + a.ring && a.donePlain <= a.parkedPlain && |a.ring| <= c.capacity + 1
            && (!a.closed ==> a.parkedPlain == a.donePlain + Plain(a.senders))
            && a.delivered == c.delivered && a.closed == c.closed && a.capacity == c.capacity
  {
    var d := DropDead(c.senders, c.winner);
    DropDeadKeepsPlain(c.senders, c.winner);
    if d != [] && !c.closed {
      assert Plain(d) == Plain([d[0]]) + Plain(d[1..]);
      assert c.parkedPlain == (c.donePlain + Plain([d[0]])) + Plain(d[1..]);
    }
  }

  lemma RecvKeepsValues<T>(c: View<T>)
    requires ValuesOk(c) && WaitersOk(c)
    ensures ValuesOk(RecvSpec(c).after)
  {
    AdmitKeepsValues(c);
  }

  lemma AdmitKeepsWaiters<T>(c: View<T>)
    requires WaitersOk(c) && |c.ring| <= c.capacity
    ensures var a := Admit(c);
            && (AnyLive(a.receivers, a.winner) ==> c.ring == [])
            && (AnyLive(a.senders, a.winner) ==> |a.ring| == c.capacity + 1)
            && (a.closed ==> a.senders == [] && a.receivers == [])
            && (a.ring != c.ring ==> |c.ring| == c.capacity)
  {
    var d := DropDead(c.senders, c.winner);
    DropDeadIs(c.senders, c.winner);
    if d != [] {
      var k := |c.senders| - |d| + 1;
      assert d[1..] == c.senders[k..];
      if AnyLive(d[1..], Acquire(d[0], c.winner)) { LivenessFades(c.senders, k, d[0], c.winner); }
      if AnyLive(c.receivers, Acquire(d[0], c.winner)) { DeadStays(c.receivers, c.winner, Acquire(d[0], c.winner)); }
    }
  }

  lemma RecvKeepsWaiters<T>(c: View<T>)
    requires ValuesOk(c) && WaitersOk(c)
    ensures WaitersOk(RecvSpec(c).after)
  {
    AdmitKeepsWaiters(c);
  }

  lemma AdmitKeepsNodes<T>(c: View<T>)
    requires NodesOk(c)
    ensures NodesOk(Admit(c))
  {
    var d := DropDead(c.senders, c.winner);
    DropDeadIs(c.senders, c.winner);
    if d != [] {
      var n := |c.senders| - |d|;
      PopKeepsNodes(c.senders, n, c.receivers, c.success);
      assert d[0] == c.senders[n] && d[1..] == c.senders[n + 1..];
    }
  }

  lemma RecvKeepsNodes<T>(c: View<T>)
    requires NodesOk(c)
    ensures NodesOk(RecvSpec(c).after)
  {
    AdmitKeepsNodes(c);
  }

  lemma {:induction false} WithoutIs<P>(q: seq<Waiter<P>>, id: Id)
    ensures forall w :: w in Without(q, id) ==> w in q
    ensures DistinctIds(q) ==> DistinctIds(Without(q, id))
    ensures IsSelectCase(q, id) ==> Plain(Without(q, id)) == Plain(q)
  {
    if q != [] {
      WithoutIs(q[1..], id);
      if q[0].id != id {
        var r, t := Without(q, id), Without(q[1..], id);
        assert r[1..] == t;
        if DistinctIds(q) {
          forall i | 0 <= i < |t| ensures q[0].id != t[i].id { assert t[i] in q[1..]; }
        }
        if IsSelectCase(q, id) { assert IsSelectCase(q[1..], id); }
      }
    }
  }

  lemma ParkSendKeeps<T>(c: View<T>, w: Waiter<T>)
    requires Inv(c) && Unqueued(c, w.id) && !c.closed && |c.ring| == c.capacity && Unserved(w, c.receivers, c.winner)
    ensures Inv(ParkSenderSpec(c, w))
  {
    PlainOfAppend(c.senders, w);
  }

  lemma ParkRecvKeeps<T>(c: View<T>, w: Waiter<()>)
    requires Inv(c) && Unqueued(c, w.id) && !c.closed && c.ring == [] && Unserved(w, c.senders, c.winner)
    ensures Inv(ParkReceiverSpec(c, w))
  {
  }

  lemma WithoutKeepsNodes<P, Q>(q: seq<Waiter<P>>, id: Id, p: seq<Waiter<Q>>, success: map<Id, bool>)
    requires Apart(q, p) && Unfinished(q, success)
    ensures Apart(Without(q, id), p) && Unfinished(Without(q, id), success)
  {
    WithoutIs(q, id);
    var r := Without(q, id);
    forall i | 0 <= i < |r| ensures exists j :: 0 <= j < |q| && q[j] == r[i] { assert r[i] in q; }
  }

  lemma RetractSendKeeps<T>(c: View<T>, id: Id)
    requires Inv(c) && IsSelectCase(c.senders, id)
    ensures Inv(Apply(c, RetractSend(id)))
  {
    WithoutIs(c.senders, id);
    NoMatchShrinks(c.senders, c.receivers, c.winner, Without(c.senders, id), c.receivers, c.winner);
    WithoutKeepsNodes(c.senders, id, c.receivers, c.success);
    if AnyLive(Without(c.senders, id), c.winner) { WithoutKeepsDead(c.senders, id, c.winner); }
  }

  lemma RetractRecvKeeps<T>(c: View<T>, id: Id)
    requires Inv(c)
    ensures Inv(Apply(c, RetractRecv(id)))
  {
    WithoutIs(c.receivers, id);
    NoMatchShrinks(c.senders, c.receivers, c.winner, c.senders, Without(c.receivers, id), c.winner);
    WithoutKeepsNodes(c.receivers, id, c.senders, c.success);
    if AnyLive(Without(c.receivers, id), c.winner) { WithoutKeepsDead(c.receivers, id, c.winner); }
  }

  lemma WithoutKeepsDead<P>(q: seq<Waiter<P>>, id: Id, winner: map<ClaimId, nat>)
    requires AnyLive(Without(q, id), winner)
    ensures AnyLive(q, winner)
  {
    WithoutIs(q, id);
    var r := Without(q, id);
    var i :| 0 <= i < |r| && Live(r[i], winner);
    assert r[i] in q;
  }

  lemma WonElsewhereKeeps<T>(c: View<T>, claim: ClaimId, index: nat)
    requires Inv(c)
    ensures Inv(Apply(c, WonElsewhere(claim, index)))
  {
    var more := c.winner[claim := index];
    NoMatchShrinks(c.senders, c.receivers, c.winner, c.senders, c.receivers, more);
    if AnyLive(c.senders, more) { DeadStays(c.senders, c.winner, more); }
    if AnyLive(c.receivers, more) { DeadStays(c.receivers, c.winner, more); }
  }

  lemma TrySendKeeps<T>(c: View<T>, v: T)
    requires Inv(c)
    ensures Inv(SendSpec(c, v).after)
  {
    SendKeepsValues(c, v);
    SendKeepsWaiters(c, v);
    SendKeepsNodes(c, v);
    SendKeepsNoMatch(c, v);
  }

  lemma TryRecvKeeps<T>(c: View<T>)
    requires Inv(c)
    ensures Inv(RecvSpec(c).after)
  {
    RecvKeepsValues(c);
    RecvKeepsWaiters(c);
    RecvKeepsNodes(c);
    RecvKeepsNoMatch(c);
  }

  lemma SendLeavesUnqueued<T>(c: View<T>, id: Id, v: T)
    requires Unqueued(c, id)
    ensures Unqueued(SendSpec(c, v).after, id)
  {
    DropDeadIs(c.receivers, c.winner);
  }

  lemma MarkKeeps<T>(c: View<T>, id: Id, b: bool)
    requires Inv(c) && Unqueued(c, id)
    ensures Inv(c.(success := c.success[id := b]))
  {
  }

  lemma SendKeeps<T>(c: View<T>, id: Id, v: T)
    requires Inv(c) && Unqueued(c, id)
    ensures Inv(Apply(c, Send(id, v)))
  {
    TrySendKeeps(c, v);
    SendLeavesUnqueued(c, id, v);
    SendKeepsNoMatch(c, v);
    var o := SendSpec(c, v);
    if o.status == Blocked { ParkSendKeeps(o.after, Waiter(id, None, v)); }
    else { MarkKeeps(o.after, id, o.status == Done); }
  }

  lemma AdmitLeavesUnqueued<T>(c: View<T>, id: Id)
    requires Unqueued(c, id)
    ensures Unqueued(Admit(c), id)
  {
    DropDeadIs(c.senders, c.winner);
  }

  lemma RecvLeavesUnqueued<T>(c: View<T>, id: Id)
    requires Unqueued(c, id)
    ensures Unqueued(RecvSpec(c).after, id)
  {
    AdmitLeavesUnqueued(c, id);
  }

  lemma RecvKeeps<T>(c: View<T>, id: Id)
    requires Inv(c) && Unqueued(c, id)
    ensures Inv(Apply(c, Recv(id)))
  {
    TryRecvKeeps(c);
    RecvKeepsNoMatch(c);
    var o := RecvSpec(c);
    RecvLeavesUnqueued(c, id);
    if o.status == Blocked { ParkRecvKeeps(o.after, Waiter(id, None, ())); }
  }

  lemma StepKeeps<T>(c: View<T>, op: Op<T>)
    requires Inv(c) && Enabled(c, op)
    ensures Inv(Apply(c, op))
  {
    match op
    case TrySend(v) => TrySendKeeps(c, v);
    case TryRecv => TryRecvKeeps(c);
    case Close =>
    case Send(id, v) => SendKeeps(c, id, v);
    case Recv(id) => RecvKeeps(c, id);
    case ParkSend(w) => ParkSendKeeps(c, w);
    case ParkRecv(w) => ParkRecvKeeps(c, w);
    case RetractSend(id) => RetractSendKeeps(c, id);
    case RetractRecv(id) => RetractRecvKeeps(c, id);
    case WonElsewhere(claim, index) => WonElsewhereKeeps(c, claim, index);
  }

  // -------------------------------------------------------------- results

  lemma RunKeeps<T(!new)>(run: seq<View<T>>, k: nat)
    requires Traces.IsRun(Init, Next, run) && k < |run|
    ensures Inv(run[k])
  {
    forall c, d: View<T> | Inv(c) && Next(c, d) ensures Inv(d) {
      var op :| Enabled(c, op) && d == Apply(c, op);
      StepKeeps(c, op);
    }
    Traces.InductiveHolds(Init, Next, Inv, run, k);
  }

  /** Histories only grow, and a closed channel takes nothing more. */
  ghost predicate Extends<T>(c: View<T>, d: View<T>) {
    && c.sent <= d.sent && c.delivered <= d.delivered && c.donePlain <= d.donePlain
    && (c.closed ==> d.closed && d.sent == c.sent)
  }

  lemma RecvExtends<T>(c: View<T>)
    requires c.closed ==> c.senders == []
    ensures Extends(c, RecvSpec(c).after)
  {
    DropDeadIs(c.senders, c.winner);
  }

  lemma SendExtends<T>(c: View<T>, v: T)
    ensures Extends(c, SendSpec(c, v).after)
  {
  }

  lemma StepExtends<T>(c: View<T>, op: Op<T>)
    requires WaitersOk(c) && Enabled(c, op)
    ensures Extends(c, Apply(c, op))
  {
    match op
    case TrySend(v) => SendExtends(c, v);
    case Send(id, v) => SendExtends(c, v);
    case TryRecv => RecvExtends(c);
    case Recv(id) => RecvExtends(c);
    case _ =>
  }

  lemma {:induction false} RunExtends<T(!new)>(run: seq<View<T>>, i: nat, j: nat)
    requires Traces.IsRun(Init, Next, run) && i <= j < |run|
    ensures Extends(run[i], run[j])
    decreases j
  {
    if i < j {
      var k := j - 1;
      RunExtends(run, i, k);
      RunKeeps(run, k);
      assert Next(run[k], run[j]);
      var op :| Enabled(run[k], op) && run[j] == Apply(run[k], op);
      StepExtends(run[k], op);
    }
  }

  /**
   Values come out in the order their sends completed, none lost, none twice:
   what was delivered followed by the ring is exactly what was sent, and a parked
   plain sender completes only after those parked before it.
   */
  lemma DeliversInOrder<T(!new)>(run: seq<View<T>>, k: nat)
    requires Traces.IsRun(Init, Next, run) && k < |run|
    ensures run[k].sent == run[k].delivered + run[k].ring && |run[k].ring| <= run[k].capacity
    ensures run[k].donePlain <= run[k].parkedPlain
    ensures !run[k].closed ==> run[k].parkedPlain == run[k].donePlain + Plain(run[k].senders)
  {
    RunKeeps(run, k);
  }

  /**
   A waiter that could be served is parked only while it cannot be: a receiver while
   nothing is buffered, a sender while the ring is full, and the two together, on any
   channel, only as cases of one select.
   */
  lemma WaitsOnlyWhenBlocked<T(!new)>(run: seq<View<T>>, k: nat)
    requires Traces.IsRun(Init, Next, run) && k < |run|
    ensures AnyLive(run[k].receivers, run[k].winner) ==> run[k].ring == []
    ensures AnyLive(run[k].senders, run[k].winner) ==> |run[k].ring| == run[k].capacity
    ensures NoMatch(run[k].senders, run[k].receivers, run[k].winner)
    ensures run[k].closed ==> run[k].senders == [] && run[k].receivers == []
  {
    RunKeeps(run, k);
  }

  /** After close() nothing is sent any more and the buffered values drain in order. */
  lemma ClosedDrains<T(!new)>(run: seq<View<T>>, i: nat, j: nat)
    requires Traces.IsRun(Init, Next, run) && i <= j < |run| && run[i].closed
    ensures run[j].closed && run[j].senders == [] && run[j].receivers == []
    ensures |run[j].ring| <= |run[i].ring|
    ensures run[j].ring == run[i].ring[|run[i].ring| - |run[j].ring|..]
    ensures run[j].delivered == run[i].delivered + run[i].ring[..|run[i].ring| - |run[j].ring|]
  {
    RunExtends(run, i, j);
    RunKeeps(run, i);
    RunKeeps(run, j);
    DrainArithmetic(run[i].delivered, run[i].ring, run[j].delivered, run[j].ring);
  }

  lemma DrainArithmetic<T>(d: seq<T>, r: seq<T>, d': seq<T>, r': seq<T>)
    requires d + r == d' + r' && d <= d'
    ensures |r'| <= |r| && r' == r[|r| - |r'|..] && d' == d + r[..|r| - |r'|]
  {
    var n := |d'| - |d|;
    assert d' == (d + r)[..|d'|] == d + r[..n];
    assert r' == (d + r)[|d'|..] == r[n..];
  }

  /** A plain waiter is on the wake list; a select case has lost to some winner, or is on it. */
  ghost predicate Served<T, P>(w: Waiter<P>, k: Sweep<T>) {
    if w.select.None? then w.id in k.woken else w.select.value.claim in k.winner
  }

  /** The wake list holds no node twice, and every node on it has been failed. */
  ghost predicate WakeListOk<T>(k: Sweep<T>) {
    && (forall i, j :: 0 <= i < j < |k.woken| ==> k.woken[i] != k.woken[j])
    && (forall id :: id in k.woken ==> id in k.success && !k.success[id] && id !in k.slot)
  }

  lemma {:induction false} SweepOnlyAdds<T, P>(q: seq<Waiter<P>>, k: Sweep<T>)
    ensures var r := SweepAll(q, k);
            && (forall id :: id in k.woken ==> id in r.woken)
            && (forall id :: id in r.woken ==> id in k.woken || exists i :: 0 <= i < |q| && q[i].id == id)
            && (forall cl :: cl in k.winner ==> cl in r.winner && r.winner[cl] == k.winner[cl])
  {
    if q != [] {
      var m := SweepOne(q[0], k);
      SweepOnlyAdds(q[1..], m);
      forall id | id in SweepAll(q, k).woken ensures id in k.woken || exists i :: 0 <= i < |q| && q[i].id == id {
        if id !in m.woken {
          var i :| 0 <= i < |q[1..]| && q[1..][i].id == id;
          assert q[i + 1].id == id;
        } else if id !in k.woken {
          assert q[0].id == id;
        }
      }
    }
  }

  lemma {:induction false} SweepServes<T, P>(q: seq<Waiter<P>>, k: Sweep<T>, i: nat)
    requires i < |q|
    ensures Served(q[i], SweepAll(q, k))
  {
    var m := SweepOne(q[0], k);
    SweepOnlyAdds(q[1..], m);
    if i == 0 {
      assert Served(q[0], m) by { assert Live(q[0], k.winner) ==> m.woken[0] == q[0].id; }
    } else {
      SweepServes(q[1..], m, i - 1);
    }
  }

  lemma {:induction false} SweepKeepsList<T, P>(q: seq<Waiter<P>>, k: Sweep<T>)
    requires WakeListOk(k) && DistinctIds(q) && forall i :: 0 <= i < |q| ==> q[i].id !in k.woken
    ensures WakeListOk(SweepAll(q, k))
  {
    if q != [] {
      SweepKeepsList(q[1..], SweepOne(q[0], k));
    }
  }

  /**
   close() leaves nobody behind: every plain waiter is woken, every select parked
   here has a winner, and every waiter woken is failed and woken once.
   */
  lemma CloseWakesAll<T(!new)>(run: seq<View<T>>, k: nat)
    requires Traces.IsRun(Init, Next, run) && k < |run|
    ensures var c := run[k]; var w := CloseSweep(c);
            && (forall i :: 0 <= i < |c.senders| ==> Served(c.senders[i], w))
            && (forall i :: 0 <= i < |c.receivers| ==> Served(c.receivers[i], w))
            && WakeListOk(w)
            && (forall cl :: cl in c.winner ==> cl in w.winner && w.winner[cl] == c.winner[cl])
  {
    RunKeeps(run, k);
    var c := run[k];
    var start := Sweep(c.winner, c.slot, c.success, []);
    var mid := SweepAll(c.receivers, start);
    SweepOnlyAdds(c.receivers, start);
    SweepOnlyAdds(c.senders, mid);
    SweepKeepsList(c.receivers, start);
    SweepKeepsList(c.senders, mid);
    forall i | 0 <= i < |c.senders| ensures Served(c.senders[i], CloseSweep(c)) { SweepServes(c.senders, mid, i); }
    forall i | 0 <= i < |c.receivers| ensures Served(c.receivers[i], CloseSweep(c)) {
      SweepServes(c.receivers, start, i);
    }
  }
}
