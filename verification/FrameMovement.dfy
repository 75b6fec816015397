/**
 Where task frames are while any number of threads move them. Workers own a ring,
 a runnext slot and an inbox; the global queue is shared; a thread in the middle of
 an operation holds frames in its hand. Each step is one container operation of one
 thread, and steps of different threads interleave freely; that the containers'
 operations are atomic is what the LocalRunQueue and RemoteInbox modules
 establish. Threads 0 to |ws| - 1 are the workers, later ones are foreign.

 History: `submitted` and `resumed` collect the frames that entered and left the
 scheduler.
 */
module FrameMovement {
  import opened Prelude
  import Traces

  type Frame = nat
  type Tid = nat

  const CAPACITY := 256
  const DRAIN_BATCH := 32
  const INBOX_CAPACITY := 256

  datatype Worker = Worker(ring: seq<Frame>, runnext: Option<Frame>, inbox: seq<Frame>)

  /** How far a thread is in its operation, and where the frames in its `rest` go. */
  datatype Mode =
    | Free                           // between operations
    | ToNext                         // push_next(), stage_fairness_item(): runnext first
    | ToHere                         // schedule_batch_to() on the target: runnext if free
    | Putting(drained: nat)          // pushing `rest`; drained > 0 inside drain_inbox()
    | Full(drained: nat, base: seq<Frame>)                // the ring, holding `base`, refused rest[0]
    | Halving(drained: nat, base: seq<Frame>, seen: nat)  // pop_half() found `seen` frames
    | Spilling(drained: nat, base: seq<Frame>)            // pop_half() done, its frames in `spill`
    | Sending(v: Tid)                // enqueue_remote() to worker v
    | Refused                        // its inbox was full
    | Batching                       // frames for the global queue
    | Holding                        // selected `keep`, about to resume it

  datatype Thread = Thread(mode: Mode, keep: Option<Frame>, rest: seq<Frame>, spill: seq<Frame>)

  datatype State = State(ws: seq<Worker>, threads: seq<Thread>, global: seq<Frame>,
                         resumed: multiset<Frame>, submitted: multiset<Frame>)

  datatype Action =
    | Submit(t: Tid, frames: seq<Frame>, mode: Mode)
    | StoreNext(t: Tid) | FillNext(t: Tid)
    | PushOne(t: Tid) | CountHalf(t: Tid) | PopHalf(t: Tid) | SpillOut(t: Tid) | Settle(t: Tid)
    | DrainBegin(t: Tid) | DrainNext(t: Tid)
    | TakeNext(t: Tid) | TakeRing(t: Tid)
    | FairGlobal(t: Tid) | FairRing(t: Tid) | Stage(t: Tid)
    | TakeBatch(t: Tid) | Grab(t: Tid, v: Tid)
    | Send(t: Tid) | GlobalOut(t: Tid)
    | Resume(t: Tid)

  const FREE := Thread(Free, None, [], [])

  /** pop_batch's count: a worker's share of what is there, plus one, within both bounds. */
  function BatchSize(available: nat, max: nat, share: nat): (n: nat)
    ensures n <= available && n <= max && (available > 0 && max > 0 ==> n > 0)
  {
    var n := available / (if share == 0 then 1 else share) + 1;
    if n > available then (if available > max then max else available) else if n > max then max else n
  }

  /** grab(): half of the ring, rounded up. */
  function GrabSize(n: nat): (half: nat)
    ensures half <= n && (n > 0 ==> half > 0)
  {
    n - n / 2
  }

  ghost predicate Init(s: State) {
    && 0 < |s.ws| <= |s.threads|
    && (forall w :: 0 <= w < |s.ws| ==> s.ws[w] == Worker([], None, []))
    && (forall t :: 0 <= t < |s.threads| ==> s.threads[t] == FREE)
    && s.global == [] && s.resumed == multiset{} && s.submitted == multiset{}
  }

  predicate IsRoute(s: State, t: Tid, frames: seq<Frame>, mode: Mode) {
    match mode
    case ToNext => t < |s.ws| && |frames| == 1
    case ToHere => t < |s.ws|
    case Putting(d) => t < |s.ws| && d == 0
    case Sending(v) => v < |s.ws| && |frames| == 1
    case Batching => true
    case _ => false
  }

  predicate Enabled(s: State, a: Action) {
    && a.t < |s.threads|
    && (a.Submit? || a.Send? || a.GlobalOut? || a.t < |s.ws|)
    && var h := s.threads[a.t];
       match a
       case Submit(t, frames, mode) => h.mode.Free? && frames != [] && IsRoute(s, t, frames, mode)
       case StoreNext(_) => h.mode.ToNext? && |h.rest| == 1
       case FillNext(_) => h.mode.ToHere? && h.rest != []
       case PushOne(_) => h.mode.Putting? && h.rest != []
       case CountHalf(_) => h.mode.Full? && h.rest != []
       case PopHalf(_) => h.mode.Halving? && h.rest != []
       case SpillOut(_) => h.mode.Spilling? && h.rest != []
       case Settle(_) => h.mode.Putting? && h.rest == []
       case DrainBegin(t) => h.mode.Free? && s.ws[t].inbox != []
       case DrainNext(t) => h.mode.Putting? && h.rest == [] && 0 < h.mode.drained < DRAIN_BATCH && s.ws[t].inbox != []
       case TakeNext(t) => h.mode.Free? && s.ws[t].runnext.Some?
       case TakeRing(t) => h.mode.Free? && s.ws[t].runnext.None? && s.ws[t].ring != []
       case FairGlobal(_) => h.mode.Free? && s.global != []
       case FairRing(t) => h.mode.Free? && s.ws[t].ring != []
       case Stage(_) => h.mode.Holding? && h.keep.Some?
       case TakeBatch(_) => h.mode.Free? && s.global != []
       case Grab(t, v) => h.mode.Free? && v < |s.ws| && v != t && s.ws[v].ring != []
       case Send(_) => h.mode.Sending? && h.mode.v < |s.ws| && |h.rest| == 1
       case GlobalOut(_) => h.mode.Refused? || h.mode.Batching?
       case Resume(_) => h.mode.Holding? && h.keep.Some?
  }

  /** Thread t now is h, worker v now is x. */
  function Move(s: State, t: Tid, h: Thread, v: Tid, x: Worker): State
    requires t < |s.threads| && v < |s.ws|
  {
    s.(threads := s.threads[t := h], ws := s.ws[v := x])
  }

  /** Thread t now is h, no worker changed. */
  function Step(s: State, t: Tid, h: Thread): State
    requires t < |s.threads|
  {
    s.(threads := s.threads[t := h])
  }

  /** The ring takes rest[0], or is found full. */
  function PushStep(s: State, t: Tid): State
    requires Enabled(s, PushOne(t))
  {
    var h, x := s.threads[t], s.ws[t];
    if |x.ring| < CAPACITY then Move(s, t, h.(rest := h.rest[1..]), t, x.(ring := x.ring + [h.rest[0]]))
    else Step(s, t, h.(mode := Full(h.mode.drained, x.ring)))
  }

  /** The older half leaves the ring, unless a thief moved its head since the frames were counted. */
  function PopHalfStep(s: State, t: Tid): State
    requires Enabled(s, PopHalf(t))
  {
    var h, x := s.threads[t], s.ws[t];
    var n := if |x.ring| == h.mode.seen then |x.ring| / 2 else 0;
    Move(s, t, h.(mode := Spilling(h.mode.drained, h.mode.base), spill := x.ring[..n]), t, x.(ring := x.ring[n..]))
  }

  /** The first frame of a batch is selected, the others go to the ring. */
  function Selected(batch: seq<Frame>): Thread
    requires batch != []
  {
    Thread(Putting(0), Some(batch[0]), batch[1..], [])
  }

  function Apply(s: State, a: Action): State
    requires Enabled(s, a)
  {
    var h := s.threads[a.t];
    match a
    case Submit(t, frames, mode) =>
      Step(s, t, Thread(mode, None, frames, [])).(submitted := s.submitted + multiset(frames))
    case StoreNext(t) =>
      var x := s.ws[t];
      Move(s, t, h.(mode := Putting(0), rest := AsSeq(x.runnext)), t, x.(runnext := Some(h.rest[0])))
    case FillNext(t) =>
      var x := s.ws[t];
      if x.runnext.None? then Move(s, t, h.(mode := Putting(0), rest := h.rest[1..]), t, x.(runnext := Some(h.rest[0])))
      else Step(s, t, h.(mode := Putting(0)))
    case PushOne(t) => PushStep(s, t)
    case CountHalf(t) => Step(s, t, h.(mode := Halving(h.mode.drained, h.mode.base, |s.ws[t].ring|)))
    case PopHalf(t) => PopHalfStep(s, t)
    case SpillOut(t) =>
      Step(s, t, h.(mode := Putting(h.mode.drained), rest := h.rest[1..], spill := []))
      .(global := s.global + h.spill + [h.rest[0]])
    case Settle(t) => Step(s, t, h.(mode := if h.keep.Some? then Holding else Free))
    case DrainBegin(t) =>
      var x := s.ws[t];
      Move(s, t, Thread(Putting(1), Some(x.inbox[0]), [], []), t, x.(inbox := x.inbox[1..]))
    case DrainNext(t) =>
      var x := s.ws[t];
      Move(s, t, h.(mode := Putting(h.mode.drained + 1), rest := [x.inbox[0]]), t, x.(inbox := x.inbox[1..]))
    case TakeNext(t) => Move(s, t, Thread(Holding, s.ws[t].runnext, [], []), t, s.ws[t].(runnext := None))
    case TakeRing(t) =>
      Move(s, t, Thread(Holding, Some(s.ws[t].ring[0]), [], []), t, s.ws[t].(ring := s.ws[t].ring[1..]))
    case FairGlobal(t) => Step(s, t, Thread(ToNext, None, [s.global[0]], [])).(global := s.global[1..])
    case FairRing(t) =>
      Move(s, t, Thread(ToNext, None, [s.ws[t].ring[0]], []), t, s.ws[t].(ring := s.ws[t].ring[1..]))
    case Stage(t) => Step(s, t, Thread(ToNext, None, [h.keep.value], h.spill))
    case TakeBatch(t) =>
      var n := BatchSize(|s.global|, CAPACITY / 2, |s.ws|);
      Step(s, t, Selected(s.global[..n])).(global := s.global[n..])
    case Grab(t, v) =>
      var r := s.ws[v].ring;
      var n := GrabSize(|r|);
      Move(s, t, Selected(r[..n]), v, s.ws[v].(ring := r[n..]))
    case Send(t) =>
      var x := s.ws[h.mode.v];
      if |x.inbox| < INBOX_CAPACITY
      then Move(s, t, h.(mode := Free, rest := []), h.mode.v, x.(inbox := x.inbox + h.rest))
      else Step(s, t, h.(mode := Refused))
    case GlobalOut(t) => Step(s, t, h.(mode := Free, rest := [])).(global := s.global + h.rest)
    case Resume(t) =>
      Step(s, t, h.(mode := Free, keep := None)).(resumed := s.resumed + multiset{h.keep.value})
  }

  ghost predicate Next(s: State, t: State) {
    exists a :: Enabled(s, a) && t == Apply(s, a)
  }

  function AsSeq(o: Option<Frame>): seq<Frame> {
    if o.None? then [] else [o.value]
  }

  // ------------------------------------------------------------ invariant

  function Count(q: seq<Frame>, f: Frame): nat {
    multiset(q)[f]
  }

  function Has(x: Worker, f: Frame): nat {
    Count(x.ring, f) + Count(AsSeq(x.runnext), f) + Count(x.inbox, f)
  }

  function Held(h: Thread, f: Frame): nat {
    Count(AsSeq(h.keep), f) + Count(h.rest, f) + Count(h.spill, f)
  }

  function Total(parts: seq<nat>): nat {
    if parts == [] then 0 else parts[0] + Total(parts[1..])
  }

  function WorkerParts(ws: seq<Worker>, f: Frame): seq<nat> {
    seq(|ws|, i requires 0 <= i < |ws| => Has(ws[i], f))
  }

  function ThreadParts(hs: seq<Thread>, f: Frame): seq<nat> {
    seq(|hs|, i requires 0 <= i < |hs| => Held(hs[i], f))
  }

  /** How often a frame is in the containers of all workers, in all hands or in the global queue. */
  function Outstanding(s: State, f: Frame): nat {
    Total(WorkerParts(s.ws, f)) + Total(ThreadParts(s.threads, f)) + Count(s.global, f)
  }

  /** Every frame is outstanding exactly as often as it was submitted and not yet resumed. */
  ghost predicate Balanced(s: State) {
    forall f :: Outstanding(s, f) + s.resumed[f] == s.submitted[f]
  }

  /** A thread holds what its mode says, and nothing between operations. */
  ghost predicate ThreadOk(h: Thread) {
    match h.mode
    case Free => h == FREE
    case ToNext => h.keep.None? && |h.rest| == 1 && h.spill == []
    case ToHere => h.keep.None? && h.rest != [] && h.spill == []
    case Putting(d) => d <= DRAIN_BATCH && (d > 0 ==> h.keep.Some?) && h.spill == []
    case Full(d, _) => d <= DRAIN_BATCH && (d > 0 ==> h.keep.Some?) && h.rest != [] && h.spill == []
    case Halving(d, _, _) => d <= DRAIN_BATCH && (d > 0 ==> h.keep.Some?) && h.rest != [] && h.spill == []
    case Spilling(d, _) => d <= DRAIN_BATCH && (d > 0 ==> h.keep.Some?) && h.rest != []
    case Sending(_) => h.keep.None? && |h.rest| == 1 && h.spill == []
    case Refused => h.keep.None? && |h.rest| == 1 && h.spill == []
    case Batching => h.keep.None? && h.rest != [] && h.spill == []
    case Holding => h.keep.Some? && h.rest == [] && h.spill == []
  }

  ghost predicate WorkerOk(x: Worker) {
    |x.ring| <= CAPACITY && |x.inbox| <= INBOX_CAPACITY
  }

  ghost predicate IsSuffix(q: seq<Frame>, base: seq<Frame>) {
    |q| <= |base| && q == base[|base| - |q|..]
  }

  /** What left is the older half of a suffix of `base` that begins at `from`. */
  predicate IsOlderHalf(spill: seq<Frame>, base: seq<Frame>, from: nat) {
    from <= |base| && spill == base[from..][..(|base| - from) / 2]
  }

  /** During an overflow the ring only shrinks, and what pop_half() took is the older half of what it found. */
  ghost predicate OverflowOk(h: Thread, ring: seq<Frame>) {
    match h.mode
    case Full(_, base) => |base| == CAPACITY && IsSuffix(ring, base)
    case Halving(_, base, seen) => |base| == CAPACITY && IsSuffix(ring, base) && |ring| <= seen <= CAPACITY
    case Spilling(_, base) =>
      && |base| == CAPACITY && IsSuffix(ring, base) && |ring| < CAPACITY
      && (h.spill == [] || exists from :: IsOlderHalf(h.spill, base, from) && |ring| <= |base| - from - |h.spill|)
    case _ => true
  }

  ghost predicate Inv(s: State) {
    && 0 < |s.ws| <= |s.threads|
    && (forall w :: 0 <= w < |s.ws| ==> WorkerOk(s.ws[w]))
    && (forall t :: 0 <= t < |s.threads| ==> ThreadOk(s.threads[t]))
    && (forall w :: 0 <= w < |s.ws| ==> OverflowOk(s.threads[w], s.ws[w].ring))
    && Balanced(s)
  }

  // ------------------------------------------------------------ sums over workers and threads

  lemma {:induction false} TotalUpdate(parts: seq<nat>, i: nat, x: nat)
    requires i < |parts|
    ensures Total(parts[i := x]) + parts[i] == Total(parts) + x
  {
    var n := parts[i := x];
    if i == 0 {
      assert n[1..] == parts[1..];
    } else {
      TotalUpdate(parts[1..], i - 1, x);
      assert n[1..] == parts[1..][i - 1 := x];
    }
  }

  lemma {:induction false} TotalTwo(parts: seq<nat>, i: nat, j: nat)
    requires i < |parts| && j < |parts|
    ensures parts[i] <= Total(parts)
    ensures i != j ==> parts[i] + parts[j] <= Total(parts)
  {
    if i > 0 && j > 0 {
      TotalTwo(parts[1..], i - 1, j - 1);
    } else if i > 0 || j > 0 {
      var k := if i > 0 then i - 1 else j - 1;
      TotalTwo(parts[1..], k, k);
    }
  }

  lemma {:induction false} TotalSome(parts: seq<nat>) returns (i: nat)
    requires Total(parts) > 0
    ensures i < |parts| && parts[i] > 0
  {
    if parts[0] > 0 {
      return 0;
    }
    i := TotalSome(parts[1..]);
    i := i + 1;
  }

  lemma {:induction false} TotalOfEmpty(parts: seq<nat>)
    requires forall i :: 0 <= i < |parts| ==> parts[i] == 0
    ensures Total(parts) == 0
  {
    if parts != [] { TotalOfEmpty(parts[1..]); }
  }

  /** The same count on both sides of a step, one frame at a time. */
  ghost predicate Settled(s: State, n: State, t: Tid, v: Tid, f: Frame) {
    && t < |s.threads| && t < |n.threads| && v < |s.ws| && v < |n.ws|
    && Has(s.ws[v], f) + Held(s.threads[t], f) + Count(s.global, f) + s.resumed[f] + n.submitted[f]
       == Has(n.ws[v], f) + Held(n.threads[t], f) + Count(n.global, f) + n.resumed[f] + s.submitted[f]
  }

  lemma WorkerUpdate(ws: seq<Worker>, v: nat, x: Worker, f: Frame)
    requires v < |ws|
    ensures Total(WorkerParts(ws[v := x], f)) + Has(ws[v], f) == Total(WorkerParts(ws, f)) + Has(x, f)
  {
    assert WorkerParts(ws[v := x], f) == WorkerParts(ws, f)[v := Has(x, f)];
    TotalUpdate(WorkerParts(ws, f), v, Has(x, f));
  }

  lemma ThreadUpdate(hs: seq<Thread>, t: nat, h: Thread, f: Frame)
    requires t < |hs|
    ensures Total(ThreadParts(hs[t := h], f)) + Held(hs[t], f) == Total(ThreadParts(hs, f)) + Held(h, f)
  {
    assert ThreadParts(hs[t := h], f) == ThreadParts(hs, f)[t := Held(h, f)];
    TotalUpdate(ThreadParts(hs, f), t, Held(h, f));
  }

  /** A step that settles its own places settles the whole account. */
  lemma BalanceKept(s: State, n: State, t: Tid, v: Tid, f: Frame)
    requires t < |s.threads| && v < |s.ws| && |n.threads| == |s.threads| && |n.ws| == |s.ws|
    requires n.threads == s.threads[t := n.threads[t]] && n.ws == s.ws[v := n.ws[v]]
    requires Settled(s, n, t, v, f) && Outstanding(s, f) + s.resumed[f] == s.submitted[f]
    ensures Outstanding(n, f) + n.resumed[f] == n.submitted[f]
  {
    WorkerUpdate(s.ws, v, n.ws[v], f);
    ThreadUpdate(s.threads, t, n.threads[t], f);
  }

  lemma SplitCount(q: seq<Frame>, n: nat, f: Frame)
    requires n <= |q|
    ensures Count(q, f) == Count(q[..n], f) + Count(q[n..], f)
  {
    assert q == q[..n] + q[n..];
  }

  lemma FirstCount(q: seq<Frame>, f: Frame)
    requires q != []
    ensures Count(q, f) == Count([q[0]], f) + Count(q[1..], f)
  {
    assert q == [q[0]] + q[1..];
  }

  lemma JoinCount(p: seq<Frame>, q: seq<Frame>, f: Frame)
    ensures Count(p + q, f) == Count(p, f) + Count(q, f)
  {
  }

  // ------------------------------------------------------------ every step keeps the invariant

  /** What a step of thread t on worker v must leave for the invariant to hold again. */
  ghost predicate Fits(s: State, n: State, t: Tid, v: Tid) {
    && t < |s.threads| && v < |s.ws| && |n.threads| == |s.threads| && |n.ws| == |s.ws|
    && n.threads == s.threads[t := n.threads[t]] && n.ws == s.ws[v := n.ws[v]]
    && ThreadOk(n.threads[t]) && WorkerOk(n.ws[v])
    && (t < |s.ws| ==> OverflowOk(n.threads[t], n.ws[t].ring))
    && (v != t ==> IsSuffix(n.ws[v].ring, s.ws[v].ring))
  }

  lemma ShrinkKeepsOverflow(h: Thread, was: seq<Frame>, now: seq<Frame>)
    requires OverflowOk(h, was) && IsSuffix(now, was)
    ensures OverflowOk(h, now)
  {
    if h.mode.Full? || h.mode.Halving? || h.mode.Spilling? {
      assert now == h.mode.base[|h.mode.base| - |now|..];
    }
  }

  lemma FitKeeps(s: State, n: State, t: Tid, v: Tid)
    requires Inv(s) && Fits(s, n, t, v)
    requires forall f :: Settled(s, n, t, v, f)
    ensures Inv(n)
  {
    forall f ensures Outstanding(n, f) + n.resumed[f] == n.submitted[f] {
      assert Settled(s, n, t, v, f);
      BalanceKept(s, n, t, v, f);
    }
    forall w | 0 <= w < |n.ws|
      ensures OverflowOk(n.threads[w], n.ws[w].ring)
    {
      if w != t && w == v {
        ShrinkKeepsOverflow(s.threads[w], s.ws[w].ring, n.ws[w].ring);
      }
    }
  }

  /** The worker whose places a step touches besides the thread's hand. */
  function Touched(s: State, a: Action): Tid
    requires Enabled(s, a)
  {
    match a
    case Grab(_, v) => v
    case Send(t) => s.threads[t].mode.v
    case _ => if a.t < |s.ws| then a.t else 0
  }

  lemma NextSettles(s: State, a: Action, f: Frame)
    requires Enabled(s, a) && (a.StoreNext? || a.FillNext?)
    ensures Settled(s, Apply(s, a), a.t, a.t, f)
  {
    FirstCount(s.threads[a.t].rest, f);
    assert a.StoreNext? ==> s.threads[a.t].rest[1..] == [];
  }

  lemma TakeNextSettles(s: State, t: Tid, f: Frame)
    requires Enabled(s, TakeNext(t)) && s.threads[t] == FREE
    ensures Settled(s, Apply(s, TakeNext(t)), t, t, f)
  {
  }

  lemma PushSettles(s: State, t: Tid, f: Frame)
    requires Enabled(s, PushOne(t))
    ensures Settled(s, Apply(s, PushOne(t)), t, t, f)
  {
    var h, x := s.threads[t], s.ws[t];
    FirstCount(h.rest, f);
    JoinCount(x.ring, [h.rest[0]], f);
  }

  lemma PopHalfSettles(s: State, t: Tid, f: Frame)
    requires Enabled(s, PopHalf(t)) && s.threads[t].spill == []
    ensures Settled(s, Apply(s, PopHalf(t)), t, t, f)
  {
    var h, x := s.threads[t], s.ws[t];
    var n := if |x.ring| == h.mode.seen then |x.ring| / 2 else 0;
    SplitCount(x.ring, n, f);
  }

  lemma SpillSettles(s: State, t: Tid, f: Frame)
    requires Enabled(s, SpillOut(t))
    ensures Settled(s, Apply(s, SpillOut(t)), t, t, f)
  {
    var h := s.threads[t];
    FirstCount(h.rest, f);
    JoinCount(s.global, h.spill, f);
    JoinCount(s.global + h.spill, [h.rest[0]], f);
  }

  lemma DrainSettles(s: State, a: Action, f: Frame)
    requires Enabled(s, a) && (a.DrainBegin? || a.DrainNext?) && (a.DrainBegin? ==> s.threads[a.t] == FREE)
    ensures Settled(s, Apply(s, a), a.t, a.t, f)
  {
    FirstCount(s.ws[a.t].inbox, f);
  }

  lemma OneRingSettles(s: State, a: Action, f: Frame)
    requires Enabled(s, a) && (a.TakeRing? || a.FairRing?) && s.threads[a.t] == FREE
    ensures Settled(s, Apply(s, a), a.t, a.t, f)
  {
    FirstCount(s.ws[a.t].ring, f);
  }

  lemma SelectedCount(batch: seq<Frame>, f: Frame)
    requires batch != []
    ensures Held(Selected(batch), f) == Count(batch, f)
  {
    FirstCount(batch, f);
  }

  lemma GlobalTakeSettles(s: State, a: Action, f: Frame)
    requires Enabled(s, a) && (a.TakeBatch? || a.FairGlobal?) && s.threads[a.t] == FREE
    ensures Settled(s, Apply(s, a), a.t, a.t, f)
  {
    if a.FairGlobal? {
      FirstCount(s.global, f);
    } else {
      var n := BatchSize(|s.global|, CAPACITY / 2, |s.ws|);
      SplitCount(s.global, n, f);
      SelectedCount(s.global[..n], f);
    }
  }

  lemma GrabSettles(s: State, t: Tid, v: Tid, f: Frame)
    requires Enabled(s, Grab(t, v)) && s.threads[t] == FREE
    ensures Settled(s, Apply(s, Grab(t, v)), t, v, f)
  {
    var r := s.ws[v].ring;
    SplitCount(r, GrabSize(|r|), f);
    SelectedCount(r[..GrabSize(|r|)], f);
  }

  lemma OutSettles(s: State, a: Action, f: Frame)
    requires Enabled(s, a) && (a.Send? || a.GlobalOut?) && |s.ws| > 0
    ensures Settled(s, Apply(s, a), a.t, Touched(s, a), f)
  {
    var h := s.threads[a.t];
    if a.Send? {
      JoinCount(s.ws[h.mode.v].inbox, h.rest, f);
    } else {
      JoinCount(s.global, h.rest, f);
    }
  }

  lemma SubmitSettles(s: State, a: Action, f: Frame)
    requires Enabled(s, a) && |s.ws| > 0 && a.Submit? && s.threads[a.t] == FREE
    ensures Settled(s, Apply(s, a), a.t, Touched(s, a), f)
  {
  }

  lemma ResumeSettles(s: State, t: Tid, f: Frame)
    requires Enabled(s, Resume(t)) && ThreadOk(s.threads[t])
    ensures Settled(s, Apply(s, Resume(t)), t, t, f)
  {
  }

  /** A thread that only goes on to its next step holds what it held. */
  lemma HandSettles(s: State, a: Action, f: Frame)
    requires Enabled(s, a) && ThreadOk(s.threads[a.t]) && (a.CountHalf? || a.Settle? || a.Stage?)
    ensures Settled(s, Apply(s, a), a.t, a.t, f)
  {
    assert Held(Apply(s, a).threads[a.t], f) == Held(s.threads[a.t], f);
  }

  lemma StepSettles(s: State, a: Action, f: Frame)
    requires Enabled(s, a) && |s.ws| > 0 && ThreadOk(s.threads[a.t])
    ensures Settled(s, Apply(s, a), a.t, Touched(s, a), f)
  {
    if a.Submit? {
      SubmitSettles(s, a, f);
    } else if a.Resume? {
      ResumeSettles(s, a.t, f);
    } else if a.CountHalf? || a.Settle? || a.Stage? {
      HandSettles(s, a, f);
    } else if a.StoreNext? || a.FillNext? {
      NextSettles(s, a, f);
    } else if a.TakeNext? {
      TakeNextSettles(s, a.t, f);
    } else if a.PushOne? {
      PushSettles(s, a.t, f);
    } else if a.PopHalf? {
      PopHalfSettles(s, a.t, f);
    } else if a.SpillOut? {
      SpillSettles(s, a.t, f);
    } else if a.DrainBegin? || a.DrainNext? {
      DrainSettles(s, a, f);
    } else if a.TakeRing? || a.FairRing? {
      OneRingSettles(s, a, f);
    } else if a.FairGlobal? || a.TakeBatch? {
      GlobalTakeSettles(s, a, f);
    } else if a.Grab? {
      GrabSettles(s, a.t, a.v, f);
    } else {
      OutSettles(s, a, f);
    }
  }

  /** pop_half() on a suffix of `base`. */
  lemma HalfLeaves(base: seq<Frame>, ring: seq<Frame>, n: nat)
    requires IsSuffix(ring, base) && n == |ring| / 2
    ensures IsSuffix(ring[n..], base) && IsOlderHalf(ring[..n], base, |base| - |ring|)
  {
  }

  lemma PopHalfFits(s: State, t: Tid)
    requires Inv(s) && Enabled(s, PopHalf(t))
    ensures Fits(s, Apply(s, PopHalf(t)), t, t)
  {
    var h, ring := s.threads[t], s.ws[t].ring;
    assert OverflowOk(h, ring) && ThreadOk(h) && WorkerOk(s.ws[t]);
    if |ring| == h.mode.seen {
      HalfLeaves(h.mode.base, ring, |ring| / 2);
    } else {
      assert ring[0..] == ring && ring[..0] == [];
    }
  }

  lemma DropIsSuffix(q: seq<Frame>, n: nat)
    requires n <= |q|
    ensures IsSuffix(q[n..], q)
  {
  }

  lemma GrabFits(s: State, t: Tid, v: Tid)
    requires Inv(s) && Enabled(s, Grab(t, v))
    ensures Fits(s, Apply(s, Grab(t, v)), t, v)
  {
    var r, n := s.ws[v].ring, Apply(s, Grab(t, v));
    var k := GrabSize(|r|);
    DropIsSuffix(r, k);
    assert WorkerOk(s.ws[v]);
    assert n.ws[v] == s.ws[v].(ring := r[k..]) && n.threads[t] == Selected(r[..k]);
  }

  /** A step that leaves every ring and inbox alone. */
  lemma HandFits(s: State, n: State, t: Tid, v: Tid)
    requires Inv(s) && t < |s.threads| && v < |s.ws| && |n.threads| == |s.threads|
    requires n.threads == s.threads[t := n.threads[t]] && n.ws == s.ws
    requires ThreadOk(n.threads[t]) && (t < |s.ws| ==> OverflowOk(n.threads[t], s.ws[t].ring))
    ensures Fits(s, n, t, v)
  {
    assert s.ws[v].ring == s.ws[v].ring[0..];
  }

  lemma HandOk(s: State, a: Action)
    requires Enabled(s, a) && |s.ws| > 0 && ThreadOk(s.threads[a.t])
    requires a.Submit? || a.SpillOut? || a.Settle? || a.FairGlobal? || a.Stage? || a.TakeBatch? || a.GlobalOut?
             || a.Resume?
    ensures var n := Apply(s, a);
            && |n.threads| == |s.threads| && n.threads == s.threads[a.t := n.threads[a.t]] && n.ws == s.ws
            && ThreadOk(n.threads[a.t])
            && !n.threads[a.t].mode.Full? && !n.threads[a.t].mode.Halving? && !n.threads[a.t].mode.Spilling?
  {
  }

  lemma CountHalfFits(s: State, t: Tid)
    requires Inv(s) && Enabled(s, CountHalf(t))
    ensures Fits(s, Apply(s, CountHalf(t)), t, t)
  {
    assert ThreadOk(s.threads[t]) && WorkerOk(s.ws[t]) && OverflowOk(s.threads[t], s.ws[t].ring);
    HandFits(s, Apply(s, CountHalf(t)), t, t);
  }

  /** A step of a worker on its own ring, runnext or inbox. */
  lemma OwnFits(s: State, a: Action)
    requires Inv(s) && Enabled(s, a)
    requires a.StoreNext? || a.FillNext? || a.PushOne? || a.DrainBegin? || a.DrainNext? || a.TakeNext? || a.TakeRing?
             || a.FairRing?
    ensures Fits(s, Apply(s, a), a.t, a.t)
  {
    assert ThreadOk(s.threads[a.t]) && WorkerOk(s.ws[a.t]);
    assert s.ws[a.t].ring == s.ws[a.t].ring[0..];
  }

  lemma SendFits(s: State, t: Tid)
    requires Inv(s) && Enabled(s, Send(t))
    ensures Fits(s, Apply(s, Send(t)), t, s.threads[t].mode.v)
  {
    var v := s.threads[t].mode.v;
    assert ThreadOk(s.threads[t]) && WorkerOk(s.ws[v]);
    assert s.ws[v].ring == s.ws[v].ring[0..];
  }

  lemma StepFits(s: State, a: Action)
    requires Inv(s) && Enabled(s, a)
    ensures Fits(s, Apply(s, a), a.t, Touched(s, a))
  {
    if a.PopHalf? {
      PopHalfFits(s, a.t);
    } else if a.Grab? {
      GrabFits(s, a.t, a.v);
    } else if a.Send? {
      SendFits(s, a.t);
    } else if a.StoreNext? || a.FillNext? || a.PushOne? || a.DrainBegin? || a.DrainNext? || a.TakeNext? || a.TakeRing?
              || a.FairRing? {
      OwnFits(s, a);
    } else if a.CountHalf? {
      CountHalfFits(s, a.t);
    } else {
      HandOk(s, a);
      HandFits(s, Apply(s, a), a.t, Touched(s, a));
    }
  }

  lemma StepKeeps(s: State, t: State)
    requires Inv(s) && Next(s, t)
    ensures Inv(t)
  {
    var a :| Enabled(s, a) && t == Apply(s, a);
    StepFits(s, a);
    forall f ensures Settled(s, t, a.t, Touched(s, a), f) {
      StepSettles(s, a, f);
    }
    FitKeeps(s, t, a.t, Touched(s, a));
  }

  lemma InitHolds(s: State)
    requires Init(s)
    ensures Inv(s)
  {
    forall f ensures Outstanding(s, f) == 0 {
      TotalOfEmpty(WorkerParts(s.ws, f));
      TotalOfEmpty(ThreadParts(s.threads, f));
    }
  }

  lemma RunKeeps(run: seq<State>, k: nat)
    requires Traces.IsRun(Init, Next, run) && k < |run|
    ensures Inv(run[k])
  {
    forall s | Init(s) ensures Inv(s) { InitHolds(s); }
    forall s, t | Inv(s) && Next(s, t) ensures Inv(t) { StepKeeps(s, t); }
    Traces.InductiveHolds(Init, Next, Inv, run, k);
  }

  // ------------------------------------------------------------ results

  /** The places a frame can be in before it is resumed. */
  datatype Place = InRing(w: nat) | InRunnext(w: nat) | InInbox(w: nat) | InGlobal | InHand(t: nat)

  predicate IsPlace(s: State, p: Place) {
    if p.InHand? then p.t < |s.threads| else p.InGlobal? || p.w < |s.ws|
  }

  /** How often a frame is in a place. */
  function At(s: State, p: Place, f: Frame): nat
    requires IsPlace(s, p)
  {
    match p
    case InRing(w) => Count(s.ws[w].ring, f)
    case InRunnext(w) => Count(AsSeq(s.ws[w].runnext), f)
    case InInbox(w) => Count(s.ws[w].inbox, f)
    case InGlobal => Count(s.global, f)
    case InHand(t) => Held(s.threads[t], f)
  }

  lemma WorkerShare(ws: seq<Worker>, v: nat, w: nat, f: Frame)
    requires v < |ws| && w < |ws|
    ensures Has(ws[v], f) <= Total(WorkerParts(ws, f))
    ensures v != w ==> Has(ws[v], f) + Has(ws[w], f) <= Total(WorkerParts(ws, f))
  {
    TotalTwo(WorkerParts(ws, f), v, w);
  }

  lemma HandShare(hs: seq<Thread>, t: nat, u: nat, f: Frame)
    requires t < |hs| && u < |hs|
    ensures Held(hs[t], f) <= Total(ThreadParts(hs, f))
    ensures t != u ==> Held(hs[t], f) + Held(hs[u], f) <= Total(ThreadParts(hs, f))
  {
    TotalTwo(ThreadParts(hs, f), t, u);
  }

  /** Two places share what is outstanding of a frame. */
  lemma TwoPlaces(s: State, p: Place, q: Place, f: Frame)
    requires IsPlace(s, p) && IsPlace(s, q) && p != q
    ensures At(s, p, f) + At(s, q, f) <= Outstanding(s, f)
  {
    if p.InHand? {
      HandShare(s.threads, p.t, if q.InHand? then q.t else p.t, f);
      if !q.InHand? && !q.InGlobal? { WorkerShare(s.ws, q.w, q.w, f); }
    } else if q.InHand? {
      HandShare(s.threads, q.t, q.t, f);
      if !p.InGlobal? { WorkerShare(s.ws, p.w, p.w, f); }
    } else if p.InGlobal? {
      WorkerShare(s.ws, q.w, q.w, f);
    } else {
      WorkerShare(s.ws, p.w, if q.InGlobal? then p.w else q.w, f);
    }
  }

  lemma SomeOfHands(s: State, f: Frame) returns (p: Place)
    requires Total(ThreadParts(s.threads, f)) > 0
    ensures IsPlace(s, p) && At(s, p, f) > 0
  {
    var t := TotalSome(ThreadParts(s.threads, f));
    p := InHand(t);
  }

  lemma SomeOfWorker(s: State, w: nat, f: Frame) returns (p: Place)
    requires w < |s.ws| && Has(s.ws[w], f) > 0
    ensures IsPlace(s, p) && At(s, p, f) > 0
  {
    if Count(s.ws[w].ring, f) > 0 {
      p := InRing(w);
    } else if Count(s.ws[w].inbox, f) > 0 {
      p := InInbox(w);
    } else {
      p := InRunnext(w);
    }
  }

  lemma SomeOfWorkers(s: State, f: Frame) returns (p: Place)
    requires Total(WorkerParts(s.ws, f)) > 0
    ensures IsPlace(s, p) && At(s, p, f) > 0
  {
    var w := TotalSome(WorkerParts(s.ws, f));
    p := SomeOfWorker(s, w, f);
  }

  /** What is outstanding is somewhere. */
  lemma SomePlace(s: State, f: Frame) returns (p: Place)
    requires Outstanding(s, f) > 0
    ensures IsPlace(s, p) && At(s, p, f) > 0
  {
    if Total(ThreadParts(s.threads, f)) > 0 {
      p := SomeOfHands(s, f);
    } else if Total(WorkerParts(s.ws, f)) > 0 {
      p := SomeOfWorkers(s, f);
    } else {
      p := InGlobal;
    }
  }

  /**
   In every state of every run each frame is in the places of all threads together
   exactly as often as it was submitted and not resumed: none is lost or doubled.
   */
  lemma Conservation(run: seq<State>, k: nat, f: Frame)
    requires Traces.IsRun(Init, Next, run) && k < |run|
    ensures Outstanding(run[k], f) + run[k].resumed[f] == run[k].submitted[f]
  {
    RunKeeps(run, k);
  }

  /** A frame submitted once more than it was resumed is in one place, once, and in no other. */
  lemma EachFrameInOnePlace(run: seq<State>, k: nat, f: Frame) returns (p: Place)
    requires Traces.IsRun(Init, Next, run) && k < |run| && run[k].submitted[f] == run[k].resumed[f] + 1
    ensures IsPlace(run[k], p) && At(run[k], p, f) == 1
    ensures forall q :: IsPlace(run[k], q) && q != p ==> At(run[k], q, f) == 0
  {
    var s := run[k];
    RunKeeps(run, k);
    p := SomePlace(s, f);
    TwoPlaces(s, p, if p.InGlobal? then InRing(0) else InGlobal, f);
    forall q | IsPlace(s, q) && q != p ensures At(s, q, f) == 0 {
      TwoPlaces(s, p, q, f);
    }
  }

  /** A frame resumed as often as it was submitted is nowhere. */
  lemma ResumedFrameIsNowhere(run: seq<State>, k: nat, f: Frame, p: Place)
    requires Traces.IsRun(Init, Next, run) && k < |run| && run[k].submitted[f] == run[k].resumed[f]
    requires IsPlace(run[k], p)
    ensures At(run[k], p, f) == 0
  {
    RunKeeps(run, k);
    TwoPlaces(run[k], p, if p.InGlobal? then InRing(0) else InGlobal, f);
  }

  /** Between operations threads hold no frame: with every container empty too, all frames were resumed. */
  lemma NothingLeftBehind(run: seq<State>, k: nat)
    requires Traces.IsRun(Init, Next, run) && k < |run|
    requires forall t :: 0 <= t < |run[k].threads| ==> run[k].threads[t].mode.Free?
    requires forall w :: 0 <= w < |run[k].ws| ==> run[k].ws[w] == Worker([], None, [])
    requires run[k].global == []
    ensures run[k].resumed == run[k].submitted
  {
    var s := run[k];
    RunKeeps(run, k);
    assert forall t :: 0 <= t < |s.threads| ==> ThreadOk(s.threads[t]);
    forall f ensures s.resumed[f] == s.submitted[f] {
      TotalOfEmpty(WorkerParts(s.ws, f));
      TotalOfEmpty(ThreadParts(s.threads, f));
      assert Outstanding(s, f) == 0;
    }
  }

  /** Whatever thieves do meanwhile, an overflow takes the older half of what is left of the full ring, in order. */
  lemma OverflowSpillsOlderHalf(run: seq<State>, k: nat, t: Tid)
    requires Traces.IsRun(Init, Next, run) && k < |run|
    requires t < |run[k].ws| <= |run[k].threads| && run[k].threads[t].mode.Spilling?
    ensures var h := run[k].threads[t];
            && |h.mode.base| == CAPACITY && |run[k].ws[t].ring| < CAPACITY && IsSuffix(run[k].ws[t].ring, h.mode.base)
            && (h.spill != [] ==> exists from :: IsOlderHalf(h.spill, h.mode.base, from)
                                                 && |run[k].ws[t].ring| <= CAPACITY - from - |h.spill|)
  {
    RunKeeps(run, k);
    assert OverflowOk(run[k].threads[t], run[k].ws[t].ring);
  }

  /**
   Every thread's hand is what its mode says, nothing at all between operations and one
   frame when about to resume; a drain takes at most 32, ring and inbox hold at most 256.
   */
  lemma HandsAndBounds(run: seq<State>, k: nat, t: Tid)
    requires Traces.IsRun(Init, Next, run) && k < |run| && t < |run[k].threads|
    ensures ThreadOk(run[k].threads[t]) && (t < |run[k].ws| ==> WorkerOk(run[k].ws[t]))
  {
    RunKeeps(run, k);
  }

  ghost predicate StepOfOther(s: State, n: State, w: Tid) {
    exists a :: Enabled(s, a) && a.t != w && n == Apply(s, a)
  }

  /** Worker w's own view: others take from the front of its ring and append to its inbox, no more. */
  ghost predicate Undisturbed(s: State, n: State, w: Tid) {
    && w < |s.ws| == |n.ws| && w < |s.threads| == |n.threads|
    && n.threads[w] == s.threads[w]
    && n.ws[w].runnext == s.ws[w].runnext
    && IsSuffix(n.ws[w].ring, s.ws[w].ring)
    && s.ws[w].inbox <= n.ws[w].inbox
  }

  lemma OtherStepUndisturbed(s: State, a: Action, w: Tid)
    requires Inv(s) && Enabled(s, a) && a.t != w && w < |s.ws|
    ensures Undisturbed(s, Apply(s, a), w)
  {
    StepFits(s, a);
    assert s.ws[w].ring[0..] == s.ws[w].ring;
  }

  /** While only others step, a worker keeps its hand and runnext, a suffix of its ring and a prefix of its inbox. */
  lemma {:induction false} OnlyOwnerAddsToRing(run: seq<State>, i: nat, j: nat, w: Tid)
    requires Traces.IsRun(Init, Next, run) && i <= j < |run| && w < |run[i].ws|
    requires forall k, l :: i <= k && l == k + 1 <= j ==> StepOfOther(run[k], run[l], w)
    ensures Undisturbed(run[i], run[j], w)
    decreases j
  {
    RunKeeps(run, i);
    if i == j {
      assert run[i].ws[w].ring[0..] == run[i].ws[w].ring;
    } else {
      var k, l := j - 1, j;
      OnlyOwnerAddsToRing(run, i, k, w);
      RunKeeps(run, k);
      assert StepOfOther(run[k], run[l], w);
      var a :| Enabled(run[k], a) && a.t != w && run[l] == Apply(run[k], a);
      OtherStepUndisturbed(run[k], a, w);
      SuffixOfSuffix(run[l].ws[w].ring, run[k].ws[w].ring, run[i].ws[w].ring);
    }
  }

  lemma SuffixOfSuffix(a: seq<Frame>, b: seq<Frame>, c: seq<Frame>)
    requires IsSuffix(a, b) && IsSuffix(b, c)
    ensures IsSuffix(a, c)
  {
  }

  /** Thread t has f to put away next. */
  ghost predicate Carries(s: State, t: Tid, f: Frame) {
    t < |s.threads| && s.threads[t].rest != [] && s.threads[t].rest[0] == f
  }

  /** A step that put f where the thread's operation sends it: at the back of a queue, or into runnext. */
  ghost predicate Delivers(s: State, n: State, t: Tid, f: Frame) {
    && |n.ws| == |s.ws| && t < |s.threads|
    && match s.threads[t].mode
       case ToNext => t < |s.ws| && n.ws[t].runnext == Some(f)
       case ToHere => t < |s.ws| && s.ws[t].runnext.None? && n.ws[t].runnext == Some(f)
       case Putting(_) => t < |s.ws| && |s.ws[t].ring| < CAPACITY && n.ws[t].ring == s.ws[t].ring + [f]
       case Sending(v) => v < |s.ws| && |s.ws[v].inbox| < INBOX_CAPACITY && n.ws[v].inbox == s.ws[v].inbox + [f]
       case Spilling(_, _) => n.global == s.global + s.threads[t].spill + [f]
       case Refused => n.global == s.global + [f]
       case Batching => n.global == s.global + s.threads[t].rest
       case _ => false
  }

  lemma OtherKeepsHand(s: State, a: Action, t: Tid)
    requires Enabled(s, a) && a.t != t && t < |s.threads|
    ensures |Apply(s, a).threads| == |s.threads| && Apply(s, a).threads[t] == s.threads[t]
  {
  }

  lemma OwnDelivers(s: State, a: Action, f: Frame)
    requires Enabled(s, a) && ThreadOk(s.threads[a.t]) && Carries(s, a.t, f)
    ensures Carries(Apply(s, a), a.t, f) || Delivers(s, Apply(s, a), a.t, f)
  {
    var n := Apply(s, a);
    if a.CountHalf? || a.PopHalf? || (a.PushOne? && |s.ws[a.t].ring| == CAPACITY) {
      assert Carries(n, a.t, f);
    } else if !Carries(n, a.t, f) {
      assert s.threads[a.t].mode.Refused? ==> s.threads[a.t].rest == [f];
    }
  }

  lemma StepDelivers(s: State, n: State, t: Tid, f: Frame)
    requires Inv(s) && Next(s, n) && Carries(s, t, f)
    ensures Carries(n, t, f) || Delivers(s, n, t, f)
  {
    var a :| Enabled(s, a) && n == Apply(s, a);
    if a.t == t {
      OwnDelivers(s, a, f);
    } else {
      OtherKeepsHand(s, a, t);
    }
  }

  /** A frame in a thread's hand to be put away stays there until a step delivers it, whatever others do. */
  lemma FrameIsDelivered(run: seq<State>, i: nat, j: nat, t: Tid, f: Frame)
    requires Traces.IsRun(Init, Next, run) && i <= j < |run| && Carries(run[i], t, f)
    ensures Traces.KeptUntil(s => Carries(s, t, f), (s, n) => Delivers(s, n, t, f), run, i, j)
  {
    forall s | Init(s) ensures Inv(s) { InitHolds(s); }
    forall s, n | Inv(s) && Next(s, n) ensures Inv(n) { StepKeeps(s, n); }
    forall s, n | Inv(s) && Next(s, n) && Carries(s, t, f)
      ensures Carries(n, t, f) || Delivers(s, n, t, f)
    {
      StepDelivers(s, n, t, f);
    }
    Traces.HoldsUntil(Init, Next, Inv, s => Carries(s, t, f), (s, n) => Delivers(s, n, t, f), run, i, j);
  }

  ghost predicate Chose(s: State, t: Tid, f: Frame) {
    t < |s.threads| && s.threads[t].keep == Some(f)
  }

  /** A step in which t resumed f, or staged it to go through runnext. */
  ghost predicate RunsOrStages(s: State, n: State, t: Tid, f: Frame) {
    t < |n.threads| && (n.resumed == s.resumed + multiset{f} || n.threads[t] == Thread(ToNext, None, [f], []))
  }

  lemma OwnRuns(s: State, a: Action, f: Frame)
    requires Enabled(s, a) && ThreadOk(s.threads[a.t]) && Chose(s, a.t, f)
    ensures Chose(Apply(s, a), a.t, f) || RunsOrStages(s, Apply(s, a), a.t, f)
  {
    if a.Resume? || a.Stage? {
      assert RunsOrStages(s, Apply(s, a), a.t, f);
    } else {
      assert Chose(Apply(s, a), a.t, f);
    }
  }

  lemma StepRuns(s: State, n: State, t: Tid, f: Frame)
    requires Inv(s) && Next(s, n) && Chose(s, t, f)
    ensures Chose(n, t, f) || RunsOrStages(s, n, t, f)
  {
    var a :| Enabled(s, a) && n == Apply(s, a);
    if a.t == t {
      OwnRuns(s, a, f);
    } else {
      OtherKeepsHand(s, a, t);
    }
  }

  /** The frame a worker selected is the one it resumes: draining, spilling and others' steps do not change it. */
  lemma SelectedFrameIsResumed(run: seq<State>, i: nat, j: nat, t: Tid, f: Frame)
    requires Traces.IsRun(Init, Next, run) && i <= j < |run| && Chose(run[i], t, f)
    ensures Traces.KeptUntil(s => Chose(s, t, f), (s, n) => RunsOrStages(s, n, t, f), run, i, j)
  {
    forall s | Init(s) ensures Inv(s) { InitHolds(s); }
    forall s, n | Inv(s) && Next(s, n) ensures Inv(n) { StepKeeps(s, n); }
    forall s, n | Inv(s) && Next(s, n) && Chose(s, t, f)
      ensures Chose(n, t, f) || RunsOrStages(s, n, t, f)
    {
      StepRuns(s, n, t, f);
    }
    Traces.HoldsUntil(Init, Next, Inv, s => Chose(s, t, f), (s, n) => RunsOrStages(s, n, t, f), run, i, j);
  }

  /** f was first in q, and q lost it. */
  ghost predicate TookFront(q: seq<Frame>, now: seq<Frame>, f: Frame) {
    q != [] && q[0] == f && |now| < |q| && IsSuffix(now, q)
  }

  /** Where a newly selected frame came from: always the front, and the ring's front only when runnext was empty. */
  ghost predicate SelectedFrom(s: State, n: State, t: Tid, f: Frame) {
    && t < |s.ws| == |n.ws|
    && (|| (s.ws[t].runnext == Some(f) && n.ws[t].runnext == None)
        || (s.ws[t].runnext.None? && TookFront(s.ws[t].ring, n.ws[t].ring, f))
        || TookFront(s.ws[t].inbox, n.ws[t].inbox, f)
        || TookFront(s.global, n.global, f)
        || exists v :: 0 <= v < |s.ws| && v != t && TookFront(s.ws[v].ring, n.ws[v].ring, f))
  }

  lemma DropTakesFront(q: seq<Frame>, n: nat)
    requires 0 < n <= |q|
    ensures TookFront(q, q[n..], q[0])
  {
    DropIsSuffix(q, n);
  }

  lemma GrabTakesFront(s: State, t: Tid, v: Tid)
    requires Enabled(s, Grab(t, v))
    ensures TookFront(s.ws[v].ring, Apply(s, Grab(t, v)).ws[v].ring, s.ws[v].ring[0])
  {
    var r := s.ws[v].ring;
    DropTakesFront(r, GrabSize(|r|));
  }

  lemma BatchTakesFront(s: State, t: Tid)
    requires Enabled(s, TakeBatch(t))
    ensures TookFront(s.global, Apply(s, TakeBatch(t)).global, s.global[0])
  {
    DropTakesFront(s.global, BatchSize(|s.global|, CAPACITY / 2, |s.ws|));
  }

  lemma OwnSelects(s: State, a: Action, f: Frame)
    requires Enabled(s, a) && s.threads[a.t].keep.None? && Chose(Apply(s, a), a.t, f)
    ensures SelectedFrom(s, Apply(s, a), a.t, f)
  {
    var t := a.t;
    if a.Grab? {
      GrabTakesFront(s, t, a.v);
    } else if a.TakeBatch? {
      BatchTakesFront(s, t);
    } else if a.DrainBegin? {
      DropTakesFront(s.ws[t].inbox, 1);
    } else if a.TakeRing? {
      DropTakesFront(s.ws[t].ring, 1);
    } else if !a.TakeNext? {
      assert false;
    }
  }

  /** In every run a worker selects the front frame of the place it takes from. */
  lemma SelectionTakesFront(run: seq<State>, k: nat, t: Tid, f: Frame)
    requires Traces.IsRun(Init, Next, run) && k + 1 < |run| && t < |run[k].threads|
    requires run[k].threads[t].keep.None? && Chose(run[k + 1], t, f)
    ensures SelectedFrom(run[k], run[k + 1], t, f)
  {
    var i, j := k, k + 1;
    assert Next(run[i], run[j]);
    var a :| Enabled(run[i], a) && run[j] == Apply(run[i], a);
    if a.t == t {
      OwnSelects(run[i], a, f);
    } else {
      OtherKeepsHand(run[i], a, t);
      assert false;
    }
  }
}
