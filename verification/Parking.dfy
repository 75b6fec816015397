/**
 Parking and waking. Workers publish an idle bit, re-check every source of work
 and block in the reactor's poll; producers publish a frame in an inbox or in the
 global queue and then look for an idle bit to claim. A claim is delivered as a
 token in the worker's eventfd, and wake() coalesces tokens with a flag. Each
 atomic access, each system call and each section under the global queue's mutex
 is one step. Any number of producers (foreign threads, workers, the timer
 service) and, per worker, one foreign poller interleave freely.

 A worker's own runnable frames (runnext and ring) are counted in `local`. The
 inbox keeps its positions: `slots[pos]` records who reserved pos and whether the
 frame is published. `lost` says that the kernel refused the latest wake token
 written for this worker since it last published its idle bit.

 History: `claimer` cleared the worker's idle bit last, `writer` holds its wake
 flag and has not written the token yet, `lastSized` added to the global size
 last.
 */
module Parking {
  import opened Prelude
  import Traces

  type Pid = nat
  type Wid = nat

  datatype Phase =
    | Running
    | Polling                 // zero-timeout poll between tasks: polling claimed
    | IdleSet                 // idle bit published
    | SawLocal                // runnext and ring seen empty
    | SawInbox                // ... and inbox
    | SawGlobal               // ... and global size
    | Blocked                 // polling claimed, in epoll_wait
    | Returned(token: bool)   // epoll_wait returned, with or without the wake token
    | Dispatching(token: bool) // idle cleared by poller_returned()
    | Draining                // eventfd read, wake flag still set
    | Finishing               // wake flag cleared
    | Leaving                 // out of poll; leave_park() still to clear idle

  datatype Poller = Free | Own | Foreign
  datatype Reservation = Reservation(who: Pid, published: bool)

  datatype Worker = Worker(phase: Phase, idle: bool, flag: bool, token: nat, poller: Poller,
                           local: nat, cons: nat, prod: nat, slots: map<nat, Reservation>,
                           lost: bool, claimer: Pid, writer: Option<Pid>)

  datatype Producer =
    | Out
    | Reserved(w: Wid, pos: nat)    // inbox position reserved
    | Published(w: Wid, pos: nat)   // frame published, wake_worker() not yet run
    | Queued                        // in the global queue, size not yet added
    | Scanning(cur: Wid, left: nat) // claim_from(): bits cur, cur+1, ... still to visit
    | Waking(w: Wid)                // about to exchange the wake flag
    | Writing(w: Wid)               // flag taken, token not yet written

  datatype State = State(ws: seq<Worker>, producers: map<Pid, Producer>,
                         queue: nat, size: int, owed: multiset<Pid>, lastSized: Pid)

  datatype Action =
    | ParkBegin(w: Wid) | CheckLocal(w: Wid) | CheckInbox(w: Wid) | CheckGlobal(w: Wid)
    | GiveUp(w: Wid)                   // stopping, a due timer, a published victim
    | ClaimPoll(w: Wid) | Return(w: Wid, sawToken: bool) | PollerReturned(w: Wid)
    | PollBegin(w: Wid) | PollReturn(w: Wid, sawToken: bool)   // the owner's poll(0) outside park
    | Drain(w: Wid) | ClearFlag(w: Wid) | EndPoll(w: Wid) | Leave(w: Wid)
    | LocalPush(w: Wid) | LocalTake(w: Wid) | PopInbox(w: Wid) | PopGlobal(w: Wid)
    | ForeignBegin(w: Wid) | ForeignEnd(w: Wid)
    | InboxReserve(p: Pid, w: Wid) | InboxPublish(p: Pid) | WakeWorker(p: Pid)
    | GlobalPush(p: Pid, n: nat) | GlobalSize(p: Pid, start: Wid) | ScanStep(p: Pid)
    | ClaimDirect(p: Pid, w: Wid)      // wake_one_searcher(), nudge_poller(), notify()
    | NudgeDirect(p: Pid, w: Wid)      // Reactor::nudge(), shutdown
    | WakeExchange(p: Pid) | WakeWrite(p: Pid) | WriteFails(p: Pid)

  type Producers = map<Pid, Producer>

  function At(m: Producers, p: Pid): Producer {
    if p in m then m[p] else Out
  }

  /** The inbox item pop() would return: the next position is reserved and published. */
  predicate Consumable(x: Worker) {
    x.cons in x.slots && x.slots[x.cons].published
  }

  predicate Checking(p: Phase) {
    p.IdleSet? || p.SawLocal? || p.SawInbox? || p.SawGlobal?
  }

  ghost predicate Init(s: State) {
    && |s.ws| > 0
    && (forall w :: 0 <= w < |s.ws| ==>
          s.ws[w] == Worker(Running, false, false, 0, Free, 0, 0, 0, map[], false, 0, None))
    && s.producers == map[] && s.queue == 0 && s.size == 0 && s.owed == multiset{}
  }

  predicate WorkerEnabled(x: Worker, a: Action) {
    match a
    case ParkBegin(_) => x.phase.Running?
    case CheckLocal(_) => x.phase.IdleSet?
    case CheckInbox(_) => x.phase.SawLocal?
    case CheckGlobal(_) => x.phase.SawInbox?
    case GiveUp(_) => Checking(x.phase)
    case ClaimPoll(_) => x.phase.SawGlobal?
    case Return(_, saw) => x.phase.Blocked? && (saw ==> x.token > 0)
    case PollerReturned(_) => x.phase.Returned?
    case PollBegin(_) => x.phase.Running?
    case PollReturn(_, saw) => x.phase.Polling? && (saw ==> x.token > 0)
    case Drain(_) => x.phase == Dispatching(true)
    case ClearFlag(_) => x.phase.Draining?
    case EndPoll(_) => x.phase == Dispatching(false) || x.phase.Finishing?
    case Leave(_) => x.phase.Leaving?
    case LocalPush(_) => x.phase.Running? || x.phase.Dispatching? || x.phase.Finishing?
    case LocalTake(_) => x.local > 0
    case PopInbox(_) => x.phase.Running? && Consumable(x)
    case PopGlobal(_) => x.phase.Running?
    case ForeignBegin(_) => x.poller.Free?
    case ForeignEnd(_) => x.poller.Foreign?
    case _ => false
  }

  predicate IsWorkerAction(a: Action) {
    a.ParkBegin? || a.CheckLocal? || a.CheckInbox? || a.CheckGlobal? || a.GiveUp? || a.ClaimPoll? || a.Return?
    || a.PollerReturned? || a.PollBegin? || a.PollReturn? || a.Drain? || a.ClearFlag? || a.EndPoll? || a.Leave?
    || a.LocalPush? || a.LocalTake?
    || a.PopInbox? || a.PopGlobal? || a.ForeignBegin? || a.ForeignEnd?
  }

  predicate Enabled(s: State, a: Action) {
    if IsWorkerAction(a) then
      a.w < |s.ws| && WorkerEnabled(s.ws[a.w], a) && (a.PopGlobal? ==> s.queue > 0)
    else
      var p := At(s.producers, a.p);
      match a
      case InboxReserve(_, w) => p.Out? && w < |s.ws|
      case InboxPublish(_) => p.Reserved? && p.w < |s.ws|
      case WakeWorker(_) => p.Published? && p.w < |s.ws|
      case GlobalPush(_, n) => p.Out? && n > 0
      case GlobalSize(_, start) => p.Queued? && start < |s.ws|
      case ScanStep(_) => p.Scanning? && p.cur < |s.ws|
      case ClaimDirect(_, w) => p.Out? && w < |s.ws|
      case NudgeDirect(_, w) => p.Out? && w < |s.ws|
      case WakeExchange(_) => p.Waking? && p.w < |s.ws|
      case WakeWrite(_) => p.Writing? && p.w < |s.ws|
      case WriteFails(_) => p.Writing? && p.w < |s.ws|
      case _ => false
  }

  /** One step of worker a.w, or of a foreign poller of its shard. */
  function WorkerStep(x: Worker, size: int, a: Action): Worker
    requires WorkerEnabled(x, a)
  {
    match a
    case ParkBegin(_) => x.(phase := IdleSet, idle := true, lost := false)
    case CheckLocal(_) => x.(phase := if x.local == 0 then SawLocal else Leaving)
    case CheckInbox(_) => x.(phase := if Consumable(x) then Leaving else SawInbox)
    case CheckGlobal(_) => x.(phase := if size == 0 then SawGlobal else Leaving)
    case GiveUp(_) => x.(phase := Leaving)
    case ClaimPoll(_) => if x.poller.Free? then x.(phase := Blocked, poller := Own) else x.(phase := Leaving)
    case Return(_, saw) => x.(phase := Returned(saw))
    case PollerReturned(_) => x.(phase := Dispatching(x.phase.token), idle := false)
    case PollBegin(_) => if x.poller.Free? then x.(phase := Polling, poller := Own) else x
    case PollReturn(_, saw) => x.(phase := Dispatching(saw), idle := false)
    case Drain(_) => x.(phase := Draining, token := 0)
    case ClearFlag(_) => x.(phase := Finishing, flag := false)
    case EndPoll(_) => x.(phase := Leaving, poller := Free)
    case Leave(_) => x.(phase := Running, idle := false)
    case LocalPush(_) => x.(local := x.local + 1)
    case LocalTake(_) => x.(local := x.local - 1)
    case PopInbox(_) => x.(cons := x.cons + 1)
    case PopGlobal(_) => x
    case ForeignBegin(_) => x.(poller := Foreign)
    case ForeignEnd(_) => x.(poller := Free)
  }

  function SetWorker(s: State, w: Wid, x: Worker): State
    requires w < |s.ws|
  {
    s.(ws := s.ws[w := x])
  }

  function SetProducer(s: State, p: Pid, x: Producer): State {
    s.(producers := s.producers[p := x])
  }

  /** Clears w's idle bit on behalf of p; only the clear that found it set goes on to wake w. */
  function Claim(s: State, p: Pid, w: Wid, otherwise: Producer): State
    requires w < |s.ws|
  {
    if s.ws[w].idle then SetProducer(SetWorker(s, w, s.ws[w].(idle := false, claimer := p)), p, Waking(w))
    else SetProducer(s, p, otherwise)
  }

  function ProducerStep(s: State, a: Action): State
    requires Enabled(s, a) && !IsWorkerAction(a)
  {
    var x := At(s.producers, a.p);
    match a
    case InboxReserve(p, w) =>
      var v := s.ws[w];
      SetProducer(SetWorker(s, w, v.(prod := v.prod + 1, slots := v.slots[v.prod := Reservation(p, false)])),
                  p, Reserved(w, v.prod))
    case InboxPublish(p) =>
      var v := s.ws[x.w];
      SetProducer(SetWorker(s, x.w, v.(slots := v.slots[x.pos := Reservation(p, true)])), p, Published(x.w, x.pos))
    case WakeWorker(p) => Claim(s, p, x.w, Out)
    case GlobalPush(p, n) => SetProducer(s.(queue := s.queue + n, owed := s.owed[p := n]), p, Queued)
    case GlobalSize(p, start) =>
      SetProducer(s.(size := s.size + s.owed[p], owed := s.owed[p := 0], lastSized := p), p, Scanning(start, |s.ws|))
    case ScanStep(p) =>
      if x.left == 0 then SetProducer(s, p, Out)
      else Claim(s, p, x.cur, Scanning(if x.cur + 1 == |s.ws| then 0 else x.cur + 1, x.left - 1))
    case ClaimDirect(p, w) => Claim(s, p, w, Out)
    case NudgeDirect(p, w) => SetProducer(s, p, Waking(w))
    case WakeExchange(p) =>
      if s.ws[x.w].flag then SetProducer(s, p, Out)
      else SetProducer(SetWorker(s, x.w, s.ws[x.w].(flag := true, writer := Some(p))), p, Writing(x.w))
    case WakeWrite(p) =>
      var v := s.ws[x.w];
      SetProducer(SetWorker(s, x.w, v.(token := v.token + 1, writer := None, lost := false)), p, Out)
    case WriteFails(p) =>
      SetProducer(SetWorker(s, x.w, s.ws[x.w].(flag := false, writer := None, lost := true)), p, Out)
  }

  function Apply(s: State, a: Action): State
    requires Enabled(s, a)
  {
    if IsWorkerAction(a) then
      var s' := SetWorker(s, a.w, WorkerStep(s.ws[a.w], s.size, a));
      if a.PopGlobal? then s'.(queue := s.queue - 1, size := s.size - 1) else s'
    else
      ProducerStep(s, a)
  }

  ghost predicate Next(s: State, t: State) {
    exists a :: Enabled(s, a) && t == Apply(s, a)
  }

  // ------------------------------------------------------------ invariant

  /** Phases in which a claimed idle bit is not the worker's own doing. */
  predicate Parked(p: Phase) {
    Checking(p) || p.Blocked? || p.Returned?
  }

  /** The wake flag is backed by a token, by a writer about to write one, or by the owner draining one. */
  ghost predicate FlagOk(x: Worker) {
    && (x.flag ==> x.token > 0 || x.writer.Some? || x.phase.Draining?)
    && (x.token > 0 ==> x.flag && x.writer.None? && !x.phase.Draining?)
    && (x.writer.Some? ==> x.flag && !x.phase.Draining?)
    && (x.phase.Draining? ==> x.flag)
    && (x.lost ==> x.token == 0)
    && (x.phase == Returned(true) || x.phase == Dispatching(true) ==> x.token > 0)
  }

  /** A claim on a parked worker has produced a token or is on its way to one. */
  ghost predicate ClaimOk(m: Producers, x: Worker, w: Wid) {
    Parked(x.phase) && !x.idle && !x.lost ==>
      x.token > 0 || x.writer.Some? || At(m, x.claimer) == Waking(w)
  }

  predicate PastInbox(p: Phase) {
    p.SawInbox? || p.SawGlobal? || p.Blocked?
  }

  /** A consumable item past the inbox check: its producer has yet to look at the idle bit, or the bit is claimed. */
  ghost predicate InboxOk(m: Producers, x: Worker, w: Wid) {
    && x.cons <= x.prod
    && (forall pos: nat :: x.cons <= pos < x.prod ==> pos in x.slots)
    && (forall pos: nat :: pos in x.slots ==>
          pos < x.prod
          && (pos >= x.cons && !x.slots[pos].published ==> At(m, x.slots[pos].who) == Reserved(w, pos)))
    && (PastInbox(x.phase) && Consumable(x) ==>
          !x.idle || At(m, x.slots[x.cons].who) == Published(w, x.cons))
  }

  predicate PastLocal(p: Phase) {
    p.SawLocal? || PastInbox(p)
  }

  ghost predicate WorkerOk(m: Producers, x: Worker, w: Wid) {
    && FlagOk(x) && ClaimOk(m, x, w) && InboxOk(m, x, w)
    && (PastLocal(x.phase) ==> x.local == 0)
    && (x.writer.Some? ==> At(m, x.writer.value) == Writing(w))
  }

  ghost predicate ProducerOk(ws: seq<Worker>, owed: multiset<Pid>, p: Pid, y: Producer) {
    && (p in owed ==> y.Queued?)
    && match y
       case Reserved(w, pos) =>
         && w < |ws| && ws[w].cons <= pos < ws[w].prod
         && pos in ws[w].slots && ws[w].slots[pos] == Reservation(p, false)
       case Published(w, _) => w < |ws|
       case Scanning(cur, left) => cur < |ws| && left <= |ws|
       case Waking(w) => w < |ws|
       case Writing(w) => w < |ws| && ws[w].writer == Some(p)
       case _ => true
  }

  predicate PastGlobal(p: Phase) {
    p.SawGlobal? || p.Blocked?
  }

  ghost predicate AllIdlePastGlobal(s: State) {
    forall w :: 0 <= w < |s.ws| ==> PastGlobal(s.ws[w].phase) && s.ws[w].idle
  }

  /**
   If every worker is past its global check with its idle bit set, the last producer to raise the size
   has its whole scan ahead of it.
   */
  ghost predicate GlobalOk(s: State) {
    && s.size + |s.owed| == s.queue
    && (AllIdlePastGlobal(s) && s.size != 0 ==>
          exists start :: 0 <= start < |s.ws| && At(s.producers, s.lastSized) == Scanning(start, |s.ws|))
  }

  ghost predicate Inv(s: State) {
    && |s.ws| > 0
    && (forall w :: 0 <= w < |s.ws| ==> WorkerOk(s.producers, s.ws[w], w))
    && (forall p: Pid :: ProducerOk(s.ws, s.owed, p, At(s.producers, p)))
    && GlobalOk(s)
  }

  // ---------------------------------------------------------------- proof

  /** A worker's step touches neither producers nor other workers, and takes off the size what it takes. */
  lemma WorkerStepIsOwn(s: State, a: Action)
    requires Enabled(s, a) && IsWorkerAction(a)
    ensures var t := Apply(s, a);
            && t.producers == s.producers && t.lastSized == s.lastSized && t.owed == s.owed
            && |t.ws| == |s.ws| && t.ws == s.ws[a.w := t.ws[a.w]]
            && t.size - t.queue == s.size - s.queue
  {
  }

  /** Getting past the global check takes a size of zero. */
  lemma PastMeansPast(s: State, a: Action)
    requires Enabled(s, a) && IsWorkerAction(a)
    requires var t := Apply(s, a); t.size != 0 && PastGlobal(t.ws[a.w].phase) && t.ws[a.w].idle
    ensures PastGlobal(s.ws[a.w].phase) && s.ws[a.w].idle && Apply(s, a).size == s.size
  {
  }

  lemma WorkerStepKeepsGlobal(s: State, a: Action)
    requires GlobalOk(s) && Enabled(s, a) && IsWorkerAction(a)
    ensures GlobalOk(Apply(s, a))
  {
    var t := Apply(s, a);
    WorkerStepIsOwn(s, a);
    if AllIdlePastGlobal(t) && t.size != 0 {
      assert PastGlobal(t.ws[a.w].phase) && t.ws[a.w].idle;
      PastMeansPast(s, a);
      forall w | 0 <= w < |s.ws| ensures PastGlobal(s.ws[w].phase) && s.ws[w].idle {
        assert PastGlobal(t.ws[w].phase) && t.ws[w].idle;
      }
      assert AllIdlePastGlobal(s);
    }
  }

  lemma OwnStepKeeps(m: Producers, x: Worker, w: Wid, size: int, a: Action)
    requires WorkerOk(m, x, w) && WorkerEnabled(x, a)
    ensures WorkerOk(m, WorkerStep(x, size, a), w)
  {
    OwnStepLeavesInbox(x, size, a);
    OwnStepKeepsInbox(m, x, w, size, a);
    OwnStepKeepsFlag(m, x, w, size, a);
  }

  lemma OwnStepKeepsInbox(m: Producers, x: Worker, w: Wid, size: int, a: Action)
    requires InboxOk(m, x, w) && WorkerEnabled(x, a)
    ensures InboxOk(m, WorkerStep(x, size, a), w)
  {
    OwnStepLeavesInbox(x, size, a);
    var y := WorkerStep(x, size, a);
    assert PastInbox(y.phase) ==> y.cons == x.cons && y.idle == x.idle && (PastInbox(x.phase) || !Consumable(x));
  }

  lemma OwnStepKeepsFlag(m: Producers, x: Worker, w: Wid, size: int, a: Action)
    requires WorkerOk(m, x, w) && WorkerEnabled(x, a)
    ensures var y := WorkerStep(x, size, a);
            FlagOk(y) && ClaimOk(m, y, w) && (PastLocal(y.phase) ==> y.local == 0)
  {
  }

  lemma WorkerStepKeeps(s: State, a: Action)
    requires Inv(s) && Enabled(s, a) && IsWorkerAction(a)
    ensures Inv(Apply(s, a))
  {
    var t := Apply(s, a);
    OwnStepKeeps(s.producers, s.ws[a.w], a.w, s.size, a);
    forall w | 0 <= w < |t.ws| ensures WorkerOk(t.producers, t.ws[w], w) {
      assert WorkerOk(s.producers, s.ws[w], w);
    }
    forall p: Pid ensures ProducerOk(t.ws, t.owed, p, At(t.producers, p)) {
      assert ProducerOk(s.ws, s.owed, p, At(s.producers, p));
      ProducerIgnoresWorkerStep(s.ws, a.w, s.size, a, s.owed, p, At(s.producers, p));
    }
    WorkerStepKeepsGlobal(s, a);
  }

  lemma ProducerIgnoresWorkerStep(ws: seq<Worker>, w: Wid, size: int, a: Action, owed: multiset<Pid>, p: Pid,
                                  y: Producer)
    requires w < |ws| && WorkerEnabled(ws[w], a) && ProducerOk(ws, owed, p, y)
    ensures ProducerOk(ws[w := WorkerStep(ws[w], size, a)], owed, p, y)
  {
    OwnStepLeavesInbox(ws[w], size, a);
  }

  lemma OwnStepLeavesInbox(x: Worker, size: int, a: Action)
    requires WorkerEnabled(x, a)
    ensures var y := WorkerStep(x, size, a);
            && y.prod == x.prod && y.slots == x.slots && y.writer == x.writer
            && (if a.PopInbox? then y.cons == x.cons + 1 && Consumable(x) else y.cons == x.cons)
  {
  }

  predicate Targets(y: Producer, w: Wid) {
    match y
    case Reserved(v, _) => v == w
    case Published(v, _) => v == w
    case Waking(v) => v == w
    case Writing(v) => v == w
    case _ => false
  }

  /** A worker does not notice a change of a producer that was not dealing with it. */
  lemma OtherWorkerKeeps(m: Producers, x: Worker, w: Wid, p: Pid, y: Producer)
    requires WorkerOk(m, x, w) && !Targets(At(m, p), w)
    ensures WorkerOk(m[p := y], x, w)
  {
  }

  /** What producer p may change in a worker without disturbing other producers. */
  ghost predicate Compatible(x: Worker, x': Worker, p: Pid) {
    && x'.cons == x.cons && x'.prod >= x.prod
    && (forall pos: nat :: pos in x.slots && x.slots[pos].who != p ==> pos in x'.slots && x'.slots[pos] == x.slots[pos])
    && (x.writer.Some? && x.writer.value != p ==> x'.writer == x.writer)
  }

  /** A producer step touches producer p and worker w only. */
  lemma ProducerStepFrame(s: State, t: State, p: Pid, w: Wid)
    requires Inv(s) && w < |s.ws| && |t.ws| == |s.ws|
    requires t.ws == s.ws[w := t.ws[w]] && Compatible(s.ws[w], t.ws[w], p)
    requires t.producers == s.producers[p := At(t.producers, p)]
    requires forall v: Wid :: Targets(At(s.producers, p), v) ==> v == w
    requires forall q: Pid :: q != p ==> t.owed[q] == s.owed[q]
    requires WorkerOk(t.producers, t.ws[w], w)
    requires ProducerOk(t.ws, t.owed, p, At(t.producers, p))
    ensures forall v :: 0 <= v < |t.ws| ==> WorkerOk(t.producers, t.ws[v], v)
    ensures forall q: Pid :: ProducerOk(t.ws, t.owed, q, At(t.producers, q))
  {
    forall v | 0 <= v < |t.ws| ensures WorkerOk(t.producers, t.ws[v], v) {
      if v != w {
        assert WorkerOk(s.producers, s.ws[v], v);
        OtherWorkerKeeps(s.producers, s.ws[v], v, p, At(t.producers, p));
      }
    }
    forall q: Pid ensures ProducerOk(t.ws, t.owed, q, At(t.producers, q)) {
      assert ProducerOk(s.ws, s.owed, q, At(s.producers, q));
    }
  }

  lemma ClaimKeeps(s: State, p: Pid, w: Wid, otherwise: Producer)
    requires Inv(s) && w < |s.ws| && p !in s.owed
    requires var y := At(s.producers, p); y.Out? || y.Scanning? || (y.Published? && y.w == w)
    requires otherwise.Out? || (otherwise.Scanning? && otherwise.cur < |s.ws| && otherwise.left < |s.ws|)
    ensures Inv(Claim(s, p, w, otherwise))
  {
    var t := Claim(s, p, w, otherwise);
    assert WorkerOk(s.producers, s.ws[w], w);
    assert ProducerOk(s.ws, s.owed, p, At(s.producers, p));
    assert WorkerOk(t.producers, t.ws[w], w);
    ProducerStepFrame(s, t, p, w);
    assert !t.ws[w].idle;
  }

  lemma SameAwakeness(s: State, t: State)
    requires |s.ws| == |t.ws|
    requires forall v :: 0 <= v < |s.ws| ==> t.ws[v].phase == s.ws[v].phase && t.ws[v].idle == s.ws[v].idle
    ensures AllIdlePastGlobal(s) <==> AllIdlePastGlobal(t)
  {
    if AllIdlePastGlobal(t) {
      forall v | 0 <= v < |s.ws| ensures PastGlobal(s.ws[v].phase) && s.ws[v].idle {
        assert PastGlobal(t.ws[v].phase) && t.ws[v].idle;
      }
    }
  }

  lemma InboxReserveKeepsOne(s: State, p: Pid, w: Wid)
    requires Enabled(s, InboxReserve(p, w)) && WorkerOk(s.producers, s.ws[w], w)
    requires ProducerOk(s.ws, s.owed, p, At(s.producers, p))
    ensures var t := Apply(s, InboxReserve(p, w));
            && WorkerOk(t.producers, t.ws[w], w) && ProducerOk(t.ws, t.owed, p, At(t.producers, p))
            && Compatible(s.ws[w], t.ws[w], p)
  {
  }

  lemma InboxReserveKeeps(s: State, p: Pid, w: Wid)
    requires Inv(s) && Enabled(s, InboxReserve(p, w))
    ensures Inv(Apply(s, InboxReserve(p, w)))
  {
    var t := Apply(s, InboxReserve(p, w));
    assert WorkerOk(s.producers, s.ws[w], w);
    assert ProducerOk(s.ws, s.owed, p, At(s.producers, p));
    InboxReserveKeepsOne(s, p, w);
    ProducerStepFrame(s, t, p, w);
    SameAwakeness(s, t);
  }

  lemma InboxPublishKeepsOne(s: State, p: Pid)
    requires Enabled(s, InboxPublish(p)) && WorkerOk(s.producers, s.ws[At(s.producers, p).w], At(s.producers, p).w)
    requires ProducerOk(s.ws, s.owed, p, At(s.producers, p))
    ensures var t := Apply(s, InboxPublish(p));
            && WorkerOk(t.producers, t.ws[At(s.producers, p).w], At(s.producers, p).w)
            && ProducerOk(t.ws, t.owed, p, At(t.producers, p))
            && Compatible(s.ws[At(s.producers, p).w], t.ws[At(s.producers, p).w], p)
  {
  }

  lemma InboxPublishKeeps(s: State, p: Pid)
    requires Inv(s) && Enabled(s, InboxPublish(p))
    ensures Inv(Apply(s, InboxPublish(p)))
  {
    var t := Apply(s, InboxPublish(p));
    assert WorkerOk(s.producers, s.ws[At(s.producers, p).w], At(s.producers, p).w);
    assert ProducerOk(s.ws, s.owed, p, At(s.producers, p));
    InboxPublishKeepsOne(s, p);
    ProducerStepFrame(s, t, p, At(s.producers, p).w);
    SameAwakeness(s, t);
  }

  lemma WakeExchangeKeepsOne(s: State, p: Pid)
    requires Enabled(s, WakeExchange(p)) && WorkerOk(s.producers, s.ws[At(s.producers, p).w], At(s.producers, p).w)
    requires ProducerOk(s.ws, s.owed, p, At(s.producers, p))
    ensures var t := Apply(s, WakeExchange(p));
            && WorkerOk(t.producers, t.ws[At(s.producers, p).w], At(s.producers, p).w)
            && ProducerOk(t.ws, t.owed, p, At(t.producers, p))
            && Compatible(s.ws[At(s.producers, p).w], t.ws[At(s.producers, p).w], p)
  {
  }

  lemma WakeExchangeKeeps(s: State, p: Pid)
    requires Inv(s) && Enabled(s, WakeExchange(p))
    ensures Inv(Apply(s, WakeExchange(p)))
  {
    var t := Apply(s, WakeExchange(p));
    assert WorkerOk(s.producers, s.ws[At(s.producers, p).w], At(s.producers, p).w);
    assert ProducerOk(s.ws, s.owed, p, At(s.producers, p));
    WakeExchangeKeepsOne(s, p);
    ProducerStepFrame(s, t, p, At(s.producers, p).w);
    SameAwakeness(s, t);
  }

  lemma WakeWriteKeepsOne(s: State, p: Pid)
    requires Enabled(s, WakeWrite(p)) && WorkerOk(s.producers, s.ws[At(s.producers, p).w], At(s.producers, p).w)
    requires ProducerOk(s.ws, s.owed, p, At(s.producers, p))
    ensures var t := Apply(s, WakeWrite(p));
            && WorkerOk(t.producers, t.ws[At(s.producers, p).w], At(s.producers, p).w)
            && ProducerOk(t.ws, t.owed, p, At(t.producers, p))
            && Compatible(s.ws[At(s.producers, p).w], t.ws[At(s.producers, p).w], p)
  {
  }

  lemma WakeWriteKeeps(s: State, p: Pid)
    requires Inv(s) && Enabled(s, WakeWrite(p))
    ensures Inv(Apply(s, WakeWrite(p)))
  {
    var t := Apply(s, WakeWrite(p));
    assert WorkerOk(s.producers, s.ws[At(s.producers, p).w], At(s.producers, p).w);
    assert ProducerOk(s.ws, s.owed, p, At(s.producers, p));
    WakeWriteKeepsOne(s, p);
    ProducerStepFrame(s, t, p, At(s.producers, p).w);
    SameAwakeness(s, t);
  }

  lemma WriteFailsKeepsOne(s: State, p: Pid)
    requires Enabled(s, WriteFails(p)) && WorkerOk(s.producers, s.ws[At(s.producers, p).w], At(s.producers, p).w)
    requires ProducerOk(s.ws, s.owed, p, At(s.producers, p))
    ensures var t := Apply(s, WriteFails(p));
            && WorkerOk(t.producers, t.ws[At(s.producers, p).w], At(s.producers, p).w)
            && ProducerOk(t.ws, t.owed, p, At(t.producers, p))
            && Compatible(s.ws[At(s.producers, p).w], t.ws[At(s.producers, p).w], p)
  {
  }

  lemma WriteFailsKeeps(s: State, p: Pid)
    requires Inv(s) && Enabled(s, WriteFails(p))
    ensures Inv(Apply(s, WriteFails(p)))
  {
    var t := Apply(s, WriteFails(p));
    assert WorkerOk(s.producers, s.ws[At(s.producers, p).w], At(s.producers, p).w);
    assert ProducerOk(s.ws, s.owed, p, At(s.producers, p));
    WriteFailsKeepsOne(s, p);
    ProducerStepFrame(s, t, p, At(s.producers, p).w);
    SameAwakeness(s, t);
  }

  lemma NudgeKeeps(s: State, p: Pid, w: Wid)
    requires Inv(s) && Enabled(s, NudgeDirect(p, w))
    ensures Inv(Apply(s, NudgeDirect(p, w)))
  {
    var t := Apply(s, NudgeDirect(p, w));
    assert WorkerOk(s.producers, s.ws[w], w);
    assert ProducerOk(s.ws, s.owed, p, At(s.producers, p));
    OtherWorkerKeeps(s.producers, s.ws[w], w, p, Waking(w));
    ProducerStepFrame(s, t, p, w);
    SameAwakeness(s, t);
  }

  lemma GlobalStepKeeps(s: State, a: Action)
    requires Inv(s) && Enabled(s, a) && (a.GlobalPush? || a.GlobalSize?)
    ensures Inv(Apply(s, a))
  {
    var t := Apply(s, a);
    assert WorkerOk(s.producers, s.ws[0], 0);
    assert ProducerOk(s.ws, s.owed, a.p, At(s.producers, a.p));
    OtherWorkerKeeps(s.producers, s.ws[0], 0, a.p, At(t.producers, a.p));
    ProducerStepFrame(s, t, a.p, 0);
    SameAwakeness(s, t);
  }

  lemma ScanStepKeeps(s: State, p: Pid)
    requires Inv(s) && Enabled(s, ScanStep(p))
    ensures Inv(Apply(s, ScanStep(p)))
  {
    assert ProducerOk(s.ws, s.owed, p, At(s.producers, p));
    var x := At(s.producers, p);
    if x.left == 0 {
      var t := Apply(s, ScanStep(p));
      assert WorkerOk(s.producers, s.ws[0], 0);
      OtherWorkerKeeps(s.producers, s.ws[0], 0, p, Out);
      ProducerStepFrame(s, t, p, 0);
      SameAwakeness(s, t);
    } else {
      ClaimKeeps(s, p, x.cur, Scanning(if x.cur + 1 == |s.ws| then 0 else x.cur + 1, x.left - 1));
    }
  }

  lemma StepKeeps(s: State, a: Action)
    requires Inv(s) && Enabled(s, a)
    ensures Inv(Apply(s, a))
  {
    if IsWorkerAction(a) {
      WorkerStepKeeps(s, a);
    } else {
      assert ProducerOk(s.ws, s.owed, a.p, At(s.producers, a.p));
      if a.InboxReserve? { InboxReserveKeeps(s, a.p, a.w); }
      else if a.InboxPublish? { InboxPublishKeeps(s, a.p); }
      else if a.WakeWorker? { ClaimKeeps(s, a.p, At(s.producers, a.p).w, Out); }
      else if a.ClaimDirect? { ClaimKeeps(s, a.p, a.w, Out); }
      else if a.ScanStep? { ScanStepKeeps(s, a.p); }
      else if a.GlobalPush? || a.GlobalSize? { GlobalStepKeeps(s, a); }
      else if a.WakeExchange? { WakeExchangeKeeps(s, a.p); }
      else if a.NudgeDirect? { NudgeKeeps(s, a.p, a.w); }
      else if a.WakeWrite? { WakeWriteKeeps(s, a.p); }
      else { WriteFailsKeeps(s, a.p); }
    }
  }

  lemma RunKeeps(run: seq<State>, k: nat)
    requires Traces.IsRun(Init, Next, run) && k < |run|
    ensures Inv(run[k])
  {
    forall s, t | Inv(s) && Next(s, t) ensures Inv(t) {
      var a :| Enabled(s, a) && t == Apply(s, a);
      StepKeeps(s, a);
    }
    Traces.InductiveHolds(Init, Next, Inv, run, k);
  }

  // -------------------------------------------------------------- results

  /** A thread that will still deliver a token to w, or is still looking at w's idle bit. */
  ghost predicate WakeInFlight(s: State, w: Wid) {
    exists p: Pid :: At(s.producers, p) == Waking(w) || At(s.producers, p) == Writing(w)
  }

  /**
   When a claim strands a worker. In every run, a worker that is blocked in poll
   with its idle bit claimed, and with no waker under way, sleeps without a token if
   and only if the kernel refused the latest token written for it.
   */
  lemma ClaimStrandsExactlyWhenRefused(run: seq<State>, k: nat, w: Wid)
    requires Traces.IsRun(Init, Next, run) && k < |run| && w < |run[k].ws|
    requires run[k].ws[w].phase.Blocked? && !run[k].ws[w].idle && !WakeInFlight(run[k], w)
    ensures run[k].ws[w].token == 0 <==> run[k].ws[w].lost
  {
    RunKeeps(run, k);
    var s := run[k];
    assert WorkerOk(s.producers, s.ws[w], w);
  }

  /**
   No lost wake through the inbox. In every run, if a worker is blocked in poll with
   a consumable inbox item, the item's producer past its wake and no waker between
   claiming and writing, then its token is pending, unless the kernel refused it:
   exactly then the worker sleeps on.
   */
  lemma InboxWakeNotLost(run: seq<State>, k: nat, w: Wid)
    requires Traces.IsRun(Init, Next, run) && k < |run|
    requires w < |run[k].ws| && run[k].ws[w].phase.Blocked? && Consumable(run[k].ws[w]) && !WakeInFlight(run[k], w)
    requires forall p: Pid :: At(run[k].producers, p) != Published(w, run[k].ws[w].cons)
    ensures run[k].ws[w].token == 0 <==> run[k].ws[w].lost
  {
    RunKeeps(run, k);
    assert WorkerOk(run[k].producers, run[k].ws[w], w);
    ClaimStrandsExactlyWhenRefused(run, k, w);
  }

  /**
   No lost wake through the global queue. In every run, if all workers are blocked
   while the global size is nonzero and neither a wake nor a scan is under way,
   then some claimed worker has its token pending or was refused it.
   */
  lemma GlobalWakeNotLost(run: seq<State>, k: nat) returns (w: Wid)
    requires Traces.IsRun(Init, Next, run) && k < |run|
    requires run[k].size != 0
    requires forall v :: 0 <= v < |run[k].ws| ==> run[k].ws[v].phase.Blocked? && !WakeInFlight(run[k], v)
    requires forall p: Pid :: !At(run[k].producers, p).Scanning?
    ensures w < |run[k].ws| && !run[k].ws[w].idle
    ensures run[k].ws[w].token > 0 <==> !run[k].ws[w].lost
  {
    RunKeeps(run, k);
    assert !AllIdlePastGlobal(run[k]);
    w :| 0 <= w < |run[k].ws| && !run[k].ws[w].idle;
    ClaimStrandsExactlyWhenRefused(run, k, w);
  }

  /**
   Sleep means no work. In every run, if every worker is blocked without a token
   and no producer is under way, then no worker holds a runnable frame; one with a
   frame in its inbox was refused its token, and so was some worker if the global
   queue holds a frame.
   */
  lemma SleepMeansNoWork(run: seq<State>, k: nat)
    requires Traces.IsRun(Init, Next, run) && k < |run|
    requires forall w :: 0 <= w < |run[k].ws| ==> run[k].ws[w].phase.Blocked? && run[k].ws[w].token == 0
    requires forall p: Pid :: At(run[k].producers, p).Out?
    ensures forall w :: 0 <= w < |run[k].ws| ==> run[k].ws[w].local == 0
    ensures forall w :: 0 <= w < |run[k].ws| && run[k].ws[w].cons != run[k].ws[w].prod ==> run[k].ws[w].lost
    ensures run[k].queue != 0 ==> exists w :: 0 <= w < |run[k].ws| && run[k].ws[w].lost
  {
    RunKeeps(run, k);
    var s := run[k];
    forall w | 0 <= w < |s.ws|
      ensures s.ws[w].local == 0 && (s.ws[w].idle || s.ws[w].lost)
      ensures s.ws[w].cons != s.ws[w].prod ==> s.ws[w].lost
    {
      assert WorkerOk(s.producers, s.ws[w], w);
    }
    forall p: Pid ensures p !in s.owed { assert ProducerOk(s.ws, s.owed, p, At(s.producers, p)); }
    assert |s.owed| == 0;
    assert (forall w :: 0 <= w < |s.ws| ==> !s.ws[w].lost) ==> AllIdlePastGlobal(s);
  }

  /** The coalescing flag is never left set with nothing behind it, not even after a refused write. */
  lemma FlagNeverStuck(run: seq<State>, k: nat, w: Wid)
    requires Traces.IsRun(Init, Next, run) && k < |run| && w < |run[k].ws|
    requires run[k].ws[w].flag && !run[k].ws[w].phase.Draining?
    ensures run[k].ws[w].token > 0 || exists p: Pid :: At(run[k].producers, p) == Writing(w)
  {
    RunKeeps(run, k);
    assert WorkerOk(run[k].producers, run[k].ws[w], w);
  }

  // ------------------------------------------- why `lost` cannot be dropped

  lemma Extend(run: seq<State>, a: Action) returns (longer: seq<State>)
    requires Traces.IsRun(Init, Next, run) && Enabled(run[|run| - 1], a)
    ensures Traces.IsRun(Init, Next, longer) && longer[|longer| - 1] == Apply(run[|run| - 1], a)
  {
    longer := Traces.Extend(Init, Next, run, Apply(run[|run| - 1], a));
  }

  /** One worker alone parks. */
  lemma ParkAlone() returns (run: seq<State>)
    ensures Traces.IsRun(Init, Next, run)
    ensures run[|run| - 1] == State([Worker(Blocked, true, false, 0, Own, 0, 0, 0, map[], false, 0, None)],
                                    map[], 0, 0, multiset{}, 0)
  {
    var worker := Worker(Running, false, false, 0, Free, 0, 0, 0, map[], false, 0, None);
    run := [State([worker], map[], 0, 0, multiset{}, 0)];
    run := Extend(run, ParkBegin(0));
    run := Extend(run, CheckLocal(0));
    run := Extend(run, CheckInbox(0));
    run := Extend(run, CheckGlobal(0));
    run := Extend(run, ClaimPoll(0));
  }

  /**
   A token the kernel refuses strands a worker: it blocks on a consumable inbox item
   with no token pending and nobody left to write one.
   */
  lemma RefusedTokenStrandsWorker() returns (run: seq<State>)
    ensures Traces.IsRun(Init, Next, run)
    ensures var s := run[|run| - 1];
            && |s.ws| == 1 && s.ws[0].phase.Blocked? && Consumable(s.ws[0]) && s.ws[0].token == 0
            && (forall p: Pid :: At(s.producers, p).Out?)
  {
    run := ParkAlone();
    run := Extend(run, InboxReserve(7, 0));
    run := Extend(run, InboxPublish(7));
    run := Extend(run, WakeWorker(7));
    run := Extend(run, WakeExchange(7));
    run := Extend(run, WriteFails(7));
  }
}
