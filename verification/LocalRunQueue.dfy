/**
 The per-worker run queue: a ring of 256 slots with one producer (the owning
 worker) and any number of thieves. Every atomic load, store and
 compare-exchange is one step; `head` and `tail` are unbounded counters
 (`WrapIsHarmless` relates them to the source's 32-bit ones).

 `log` and `takes` are history: `log[p]` is the frame pushed at position p, and
 `takes` lists the batches that left the ring, in the order of their successful
 head exchanges.
 */
module LocalRunQueue {
  import Traces

  const CAPACITY: nat := 256
  type Frame = int
  type Tid = nat

  /** Slots [h, h + n) are being copied out ahead of an exchange of head from h to h + n. */
  datatype Copy = Copy(h: int, n: int, out: seq<Frame>)

  datatype Owner =
    | Resting
    | Pushing(item: Frame)          // capacity checked, slot not yet written
    | Stored(item: Frame)           // slot written, tail not yet published
    | Popping                       // in the loop of pop()
    | Taking(half: bool, copy: Copy) // in pop_half() if half, else in pop()

  datatype Thief =
    | Out
    | Searching(max: nat)
    | SawHead(max: nat, h: int)
    | Stealing(max: nat, copy: Copy)

  type Ring = b: seq<Frame> | |b| == CAPACITY witness seq(CAPACITY, _ => 0)

  datatype State = State(head: int, tail: int, buf: Ring, owner: Owner, thieves: map<Tid, Thief>,
                         log: seq<Frame>, takes: seq<seq<Frame>>)

  datatype Action =
    | PushLoad(item: Frame) | PushSlot | PushTail
    | PopBegin | PopLoad | HalfLoad | OwnerCopy | OwnerExchange
    | GrabBegin(tid: Tid, limit: nat) | GrabHead(tid: Tid) | GrabTail(tid: Tid)
    | GrabCopy(tid: Tid) | GrabExchange(tid: Tid)

  function Slot(p: int): (i: nat)
    ensures i < CAPACITY
  {
    p % CAPACITY
  }

  function ThiefAt(s: State, tid: Tid): Thief {
    if tid in s.thieves then s.thieves[tid] else Out
  }

  ghost predicate Init(s: State) {
    s.head == 0 && s.tail == 0 && s.owner == Resting
    && s.thieves == map[] && s.log == [] && s.takes == []
  }

  predicate Enabled(s: State, a: Action) {
    match a
    case PushLoad(_) => s.owner.Resting?
    case PushSlot => s.owner.Pushing?
    case PushTail => s.owner.Stored?
    case PopBegin => s.owner.Resting?
    case PopLoad => s.owner.Popping?
    case HalfLoad => s.owner.Resting?
    case OwnerCopy => s.owner.Taking? && |s.owner.copy.out| < s.owner.copy.n
    case OwnerExchange => s.owner.Taking? && |s.owner.copy.out| == s.owner.copy.n
    case GrabBegin(tid, _) => ThiefAt(s, tid).Out?
    case GrabHead(tid) => ThiefAt(s, tid).Searching?
    case GrabTail(tid) => ThiefAt(s, tid).SawHead?
    case GrabCopy(tid) => ThiefAt(s, tid).Stealing? && |ThiefAt(s, tid).copy.out| < ThiefAt(s, tid).copy.n
    case GrabExchange(tid) => ThiefAt(s, tid).Stealing? && |ThiefAt(s, tid).copy.out| == ThiefAt(s, tid).copy.n
  }

  /** Loads one more slot into the private batch. */
  function CopyOne(s: State, c: Copy): Copy {
    c.(out := c.out + [s.buf[Slot(c.h + |c.out|)]])
  }

  /** The exchange of head from c.h to c.h + c.n; it fails, changing nothing, when head has moved. */
  function Exchange(s: State, c: Copy): State {
    if s.head == c.h then s.(head := c.h + c.n, takes := s.takes + [c.out]) else s
  }

  /** What grab() does once it has loaded tail. */
  function AfterTail(s: State, max: nat, h: int): Thief {
    var avail := s.tail - h;
    var n := avail - avail / 2;
    if n == 0 then Out
    else if n > CAPACITY / 2 then Searching(max)
    else Stealing(max, Copy(h, if n > max then max else n, []))
  }

  function Apply(s: State, a: Action): State
    requires Enabled(s, a)
  {
    match a
    case PushLoad(x) =>
      if s.tail - s.head >= CAPACITY then s else s.(owner := Pushing(x))
    case PushSlot => s.(buf := s.buf[Slot(s.tail) := s.owner.item], owner := Stored(s.owner.item))
    case PushTail => s.(tail := s.tail + 1, owner := Resting, log := s.log + [s.owner.item])
    case PopBegin => s.(owner := Popping)
    case PopLoad =>
      if s.tail == s.head then s.(owner := Resting)
      else s.(owner := Taking(false, Copy(s.head, 1, [])))
    case HalfLoad =>
      var n := (s.tail - s.head) / 2;
      if n == 0 then s else s.(owner := Taking(true, Copy(s.head, n, [])))
    case OwnerCopy => s.(owner := Taking(s.owner.half, CopyOne(s, s.owner.copy)))
    case OwnerExchange =>
      var failed := s.head != s.owner.copy.h;
      Exchange(s, s.owner.copy).(owner := if failed && !s.owner.half then Popping else Resting)
    case GrabBegin(tid, max) => s.(thieves := s.thieves[tid := Searching(max)])
    case GrabHead(tid) => s.(thieves := s.thieves[tid := SawHead(ThiefAt(s, tid).max, s.head)])
    case GrabTail(tid) =>
      var t := ThiefAt(s, tid);
      s.(thieves := s.thieves[tid := AfterTail(s, t.max, t.h)])
    case GrabCopy(tid) =>
      var t := ThiefAt(s, tid);
      s.(thieves := s.thieves[tid := Stealing(t.max, CopyOne(s, t.copy))])
    case GrabExchange(tid) =>
      var t := ThiefAt(s, tid);
      var s' := Exchange(s, t.copy);
      s'.(thieves := s.thieves[tid := if s.head == t.copy.h then Out else Searching(t.max)])
  }

  ghost predicate Next(s: State, t: State) {
    exists a :: Enabled(s, a) && t == Apply(s, a)
  }

  /** A batch in flight lies inside the ring and, until head moves, holds exactly what was pushed there. */
  ghost predicate CopyOk(s: State, c: Copy) {
    && 0 <= c.h <= s.head
    && c.h + c.n <= s.tail
    && |c.out| <= c.n <= CAPACITY / 2
    && |s.log| == s.tail
    && (s.head == c.h ==> c.out == s.log[c.h..c.h + |c.out|])
  }

  ghost predicate OwnerOk(s: State) {
    match s.owner
    case Pushing(_) => s.tail - s.head < CAPACITY
    case Stored(x) => s.tail - s.head < CAPACITY && s.buf[Slot(s.tail)] == x
    case Taking(_, c) => CopyOk(s, c)
    case _ => true
  }

  ghost predicate ThiefOk(s: State, t: Thief) {
    match t
    case SawHead(_, h) => 0 <= h <= s.head
    case Stealing(_, c) => CopyOk(s, c)
    case _ => true
  }

  function Flatten(batches: seq<seq<Frame>>): seq<Frame> {
    if batches == [] then [] else Flatten(batches[..|batches| - 1]) + batches[|batches| - 1]
  }

  ghost predicate Inv(s: State) {
    && 0 <= s.head <= s.tail <= s.head + CAPACITY
    && |s.log| == s.tail
    && (forall p :: s.head <= p < s.tail ==> s.buf[Slot(p)] == s.log[p])
    && OwnerOk(s)
    && (forall tid :: tid in s.thieves ==> ThiefOk(s, s.thieves[tid]))
    && Flatten(s.takes) == s.log[..s.head]
  }

  lemma OwnerLoadKeeps(s: State, a: Action)
    requires Inv(s) && Enabled(s, a)
    requires a.PushLoad? || a.PopBegin? || a.PopLoad? || a.HalfLoad? || a.OwnerCopy?
    ensures Inv(Apply(s, a))
  {
    var t := Apply(s, a);
    assert OwnerOk(t) by {
      if a.OwnerCopy? && s.head == s.owner.copy.h {
        var p := s.owner.copy.h + |s.owner.copy.out|;
        assert s.buf[Slot(p)] == s.log[p];
      }
    }
    forall tid | tid in t.thieves ensures ThiefOk(t, t.thieves[tid]) {
      assert ThiefOk(s, s.thieves[tid]);
    }
  }

  /** The slot written is not one of the occupied ones. */
  lemma PushSlotKeeps(s: State)
    requires Inv(s) && s.owner.Pushing?
    ensures Inv(Apply(s, PushSlot))
  {
    var t := Apply(s, PushSlot);
    forall p | t.head <= p < t.tail ensures t.buf[Slot(p)] == t.log[p] {
      assert s.buf[Slot(p)] == s.log[p];
    }
    forall tid | tid in t.thieves ensures ThiefOk(t, t.thieves[tid]) {
      assert ThiefOk(s, s.thieves[tid]);
    }
  }

  lemma PushTailKeeps(s: State)
    requires Inv(s) && s.owner.Stored?
    ensures Inv(Apply(s, PushTail))
  {
    var t := Apply(s, PushTail);
    assert t.log[..t.head] == s.log[..s.head];
    forall tid | tid in t.thieves ensures ThiefOk(t, t.thieves[tid]) {
      assert ThiefOk(s, s.thieves[tid]);
    }
  }

  lemma ThiefLoadKeeps(s: State, a: Action)
    requires Inv(s) && Enabled(s, a)
    requires a.GrabBegin? || a.GrabHead? || a.GrabTail? || a.GrabCopy?
    ensures Inv(Apply(s, a))
  {
    var t := Apply(s, a);
    assert a.tid in s.thieves ==> ThiefOk(s, s.thieves[a.tid]);
    forall tid | tid in t.thieves ensures ThiefOk(t, t.thieves[tid]) {
      if tid != a.tid { assert ThiefOk(s, s.thieves[tid]); }
    }
  }

  /** A successful exchange hands over exactly the frames pushed at those positions. */
  lemma ExchangeKeeps(s: State, c: Copy)
    requires Inv(s) && CopyOk(s, c) && |c.out| == c.n
    ensures s.head == c.h ==> c.out == s.log[c.h..c.h + c.n]
    ensures var t := Exchange(s, c).(owner := Resting);
            && Inv(t)
            && s.head <= t.head
  {
    var t := Exchange(s, c).(owner := Resting);
    if s.head == c.h {
      assert t.takes[..|t.takes| - 1] == s.takes;
      assert t.log[..t.head] == s.log[..s.head] + s.log[s.head..t.head];
    }
    forall tid | tid in t.thieves ensures ThiefOk(t, t.thieves[tid]) {
      assert ThiefOk(s, s.thieves[tid]);
    }
  }

  lemma GrabExchangeKeeps(s: State, tid: Tid)
    requires Inv(s) && Enabled(s, GrabExchange(tid))
    ensures Inv(Apply(s, GrabExchange(tid)))
  {
    assert ThiefOk(s, s.thieves[tid]);
    ExchangeKeeps(s, s.thieves[tid].copy);
    var m := Exchange(s, s.thieves[tid].copy).(owner := Resting);
    var t := Apply(s, GrabExchange(tid));
    assert OwnerOk(t);
    forall id | id in t.thieves ensures ThiefOk(t, t.thieves[id]) {
      if id != tid { assert ThiefOk(m, m.thieves[id]); }
    }
  }

  lemma StepKeeps(s: State, a: Action)
    requires Inv(s) && Enabled(s, a)
    ensures Inv(Apply(s, a))
  {
    if a.PushTail? {
      PushTailKeeps(s);
    } else if a.OwnerExchange? {
      ExchangeKeeps(s, s.owner.copy);
      var m := Exchange(s, s.owner.copy).(owner := Resting);
      var t := Apply(s, a);
      assert t == m.(owner := t.owner);
      forall id | id in t.thieves ensures ThiefOk(t, t.thieves[id]) {
        assert ThiefOk(m, m.thieves[id]);
      }
    } else if a.GrabExchange? {
      GrabExchangeKeeps(s, a.tid);
    } else if a.GrabBegin? || a.GrabHead? || a.GrabTail? || a.GrabCopy? {
      ThiefLoadKeeps(s, a);
    } else if a.PushSlot? {
      PushSlotKeeps(s);
    } else {
      OwnerLoadKeeps(s, a);
    }
  }

  /** The ring's contents, oldest first. */
  function Contents(s: State): (q: seq<Frame>)
    requires s.head <= s.tail
    ensures |q| == s.tail - s.head
  {
    seq(s.tail - s.head, i requires 0 <= i => s.buf[Slot(s.head + i)])
  }

  /**
   Main result. In every state of every run the batches that have left the ring,
   read in the order they left, followed by the ring's contents, are exactly the
   pushed frames in push order: each pushed frame has one taker or is still
   queued, and positions are handed out in order.
   */
  lemma ExactlyOnceInOrder(run: seq<State>, k: nat)
    requires Traces.IsRun(Init, Next, run) && k < |run|
    ensures Inv(run[k])
    ensures Flatten(run[k].takes) + Contents(run[k]) == run[k].log
    ensures |Contents(run[k])| <= CAPACITY
  {
    forall s, t | Inv(s) && Next(s, t) ensures Inv(t) {
      var a :| Enabled(s, a) && t == Apply(s, a);
      StepKeeps(s, a);
    }
    Traces.InductiveHolds(Init, Next, Inv, run, k);
    assert Contents(run[k]) == run[k].log[run[k].head..];
  }

  /**
   Refinement of a plain bounded FIFO: a step leaves the queue alone, appends the
   pushed frame at the back, or removes a front batch, the very batch its taker
   goes on to use.
   */
  lemma RefinesFifo(run: seq<State>, k: nat, a: Action)
    requires Traces.IsRun(Init, Next, run) && k < |run| && Enabled(run[k], a)
    ensures FifoStep(run[k], a, Apply(run[k], a))
  {
    ExactlyOnceInOrder(run, k);
    StepRefinesFifo(run[k], a);
  }

  lemma StepRefinesFifo(s: State, a: Action)
    requires Inv(s) && Enabled(s, a)
    ensures FifoStep(s, a, Apply(s, a))
  {
    StepKeeps(s, a);
    var t := Apply(s, a);
    ContentsAreLog(s);
    ContentsAreLog(t);
    if a.OwnerExchange? {
      ExchangeKeeps(s, s.owner.copy);
      assert Exchange(s, s.owner.copy).log == t.log;
      ExchangeRemovesFront(s, s.owner.copy);
    } else if a.GrabExchange? {
      assert ThiefOk(s, s.thieves[a.tid]);
      ExchangeKeeps(s, s.thieves[a.tid].copy);
      ExchangeRemovesFront(s, s.thieves[a.tid].copy);
    } else if a.PushTail? {
      assert t.log[t.head..] == s.log[s.head..] + [s.owner.item];
    } else {
      assert t.log == s.log && t.head == s.head && t.takes == s.takes;
    }
  }

  ghost predicate FifoStep(s: State, a: Action, t: State) {
    && s.head <= s.tail && t.head <= t.tail
    && if a.PushTail? then
         s.owner.Stored? && t.takes == s.takes && Contents(t) == Contents(s) + [s.owner.item]
       else if t.takes == s.takes then
         Contents(t) == Contents(s)
       else
         && |t.takes| == |s.takes| + 1
         && t.takes[..|s.takes|] == s.takes
         && Contents(s) == t.takes[|s.takes|] + Contents(t)
  }

  lemma ContentsAreLog(s: State)
    requires Inv(s)
    ensures Contents(s) == s.log[s.head..]
  {
  }

  lemma ExchangeRemovesFront(s: State, c: Copy)
    requires Inv(s) && CopyOk(s, c) && |c.out| == c.n
    ensures var t := Exchange(s, c);
            if s.head == c.h then t.takes == s.takes + [c.out] && s.log[s.head..] == c.out + t.log[t.head..]
            else t == s
  {
  }

  /** push() refuses only at an instant when all 256 slots are occupied; pop() reports empty only when the ring is. */
  lemma RefusalsAreExact(run: seq<State>, k: nat, x: Frame)
    requires Traces.IsRun(Init, Next, run) && k < |run|
    ensures run[k].head <= run[k].tail
    ensures run[k].owner.Resting? ==> (Apply(run[k], PushLoad(x)) == run[k] <==> |Contents(run[k])| == CAPACITY)
    ensures run[k].owner.Popping? ==> (Apply(run[k], PopLoad).owner.Resting? <==> Contents(run[k]) == [])
  {
    ExactlyOnceInOrder(run, k);
  }

  const WORD: nat := 0x1_0000_0000

  /**
   The source keeps head and tail modulo 2^32. Because 256 divides 2^32 the slot
   index is unchanged, and the unsigned difference is exact as long as the true
   difference fits the word, which the invariant bounds by 256.
   */
  lemma WrapIsHarmless(head: nat, tail: nat)
    requires head <= tail < head + WORD
    ensures Slot(head % WORD) == Slot(head)
    ensures (tail % WORD - head % WORD) % WORD == tail - head
  {
    var q := head / WORD;
    assert head == q * WORD + head % WORD;
    assert head % WORD == head - 16777216 * q * CAPACITY;
  }
}
