/**
 The bounded inbox of a worker: any number of producers, one consumer (the
 owning worker), a ring whose slots carry sequence numbers. Every atomic access
 is one step. The capacity is a parameter of the state, as it is of the template.

 History: `log[p]` is the frame whose producer reserved position p, `holder[p]`
 that producer, and `delivered` what the consumer has taken.
 */
module RemoteInbox {
  import Traces

  type Frame = int
  type Pid = nat

  datatype Producer =
    | Out
    | At(frame: Frame, pos: nat)        // producer_pos loaded
    | Matched(frame: Frame, pos: nat)   // the slot's sequence equalled pos
    | Reserved(frame: Frame, pos: nat)  // the exchange of producer_pos succeeded
    | Written(frame: Frame, pos: nat)   // frame stored, sequence not yet

  datatype Consumer =
    | Waiting
    | Found                     // the slot's sequence equalled cons + 1
    | Holding(frame: Frame)     // frame read
    | Released(frame: Frame)    // sequence advanced by one capacity

  datatype State = State(cap: nat, prod: nat, cons: nat, sequence: seq<nat>, frames: seq<Frame>,
                         producers: map<Pid, Producer>, consumer: Consumer,
                         log: seq<Frame>, holder: seq<Pid>, delivered: seq<Frame>)

  datatype Action =
    | PushBegin(pid: Pid, item: Frame)
    | PushCheck(pid: Pid)     // load the slot's sequence and branch on the difference
    | PushExchange(pid: Pid)
    | PushSpurious(pid: Pid)  // a weak exchange may fail although producer_pos matches
    | PushFrame(pid: Pid)
    | PushSequence(pid: Pid)
    | PopCheck | PopRead | PopRelease | PopAdvance

  /** pos & mask: positions wrap every `cap`. */
  function Slot(p: nat, cap: nat): (i: nat)
    requires cap > 0
    ensures i < cap
  {
    if p < cap then p else Slot(p - cap, cap)
  }

  lemma {:induction false} SlotsDiffer(p: nat, q: nat, cap: nat)
    requires cap > 0 && p < q < p + cap
    ensures Slot(p, cap) != Slot(q, cap)
  {
    if p >= cap {
      SlotsDiffer(p - cap, q - cap, cap);
    } else if q >= cap {
      assert Slot(q, cap) == q - cap;
    }
  }

  lemma WindowIsInjective(lo: nat, cap: nat)
    requires cap > 0
    ensures forall p: nat, q: nat :: lo <= p < lo + cap && lo <= q < lo + cap && p != q ==> Slot(p, cap) != Slot(q, cap)
  {
    forall p: nat, q: nat | lo <= p < lo + cap && lo <= q < lo + cap && p != q
      ensures Slot(p, cap) != Slot(q, cap)
    {
      if p < q { SlotsDiffer(p, q, cap); } else { SlotsDiffer(q, p, cap); }
    }
  }

  /** A position below the window shares its slot with a later position inside it. */
  lemma {:induction false} OccupiedSince(p: nat, lo: nat, cap: nat) returns (q: nat)
    requires cap > 0 && p < lo
    ensures lo <= q < lo + cap && p < q && Slot(q, cap) == Slot(p, cap)
    decreases lo - p
  {
    if p + cap >= lo { q := p + cap; } else { q := OccupiedSince(p + cap, lo, cap); }
  }

  function ProducerAt(s: State, pid: Pid): Producer {
    if pid in s.producers then s.producers[pid] else Out
  }

  ghost predicate Init(s: State) {
    && s.cap >= 2 && s.prod == 0 && s.cons == 0
    && |s.sequence| == s.cap && |s.frames| == s.cap
    && (forall i :: 0 <= i < s.cap ==> s.sequence[i] == i)
    && s.producers == map[] && s.consumer == Waiting
    && s.log == [] && s.holder == [] && s.delivered == []
  }

  predicate Shaped(s: State) {
    s.cap > 0 && |s.sequence| == s.cap && |s.frames| == s.cap
  }

  predicate Enabled(s: State, a: Action) {
    && Shaped(s)
    && match a
       case PushBegin(pid, _) => ProducerAt(s, pid).Out?
       case PushCheck(pid) => ProducerAt(s, pid).At?
       case PushExchange(pid) => ProducerAt(s, pid).Matched?
       case PushSpurious(pid) => ProducerAt(s, pid).Matched?
       case PushFrame(pid) => ProducerAt(s, pid).Reserved?
       case PushSequence(pid) => ProducerAt(s, pid).Written?
       case PopCheck => s.consumer.Waiting?
       case PopRead => s.consumer.Found?
       case PopRelease => s.consumer.Holding?
       case PopAdvance => s.consumer.Released?
  }

  /** try_push after loading the slot's sequence: equal, behind (full: give up), or ahead (reload). */
  function AfterSequence(s: State, f: Frame, pos: nat): Producer
    requires Shaped(s)
  {
    var sq := s.sequence[Slot(pos, s.cap)];
    if sq == pos then Matched(f, pos) else if sq < pos then Out else At(f, s.prod)
  }

  function Apply(s: State, a: Action): State
    requires Enabled(s, a)
  {
    match a
    case PushBegin(pid, f) => s.(producers := s.producers[pid := At(f, s.prod)])
    case PushCheck(pid) =>
      var p := ProducerAt(s, pid);
      s.(producers := s.producers[pid := AfterSequence(s, p.frame, p.pos)])
    case PushExchange(pid) =>
      var p := ProducerAt(s, pid);
      if s.prod == p.pos then
        s.(prod := p.pos + 1, producers := s.producers[pid := Reserved(p.frame, p.pos)],
           log := s.log + [p.frame], holder := s.holder + [pid])
      else
        s.(producers := s.producers[pid := At(p.frame, s.prod)])
    case PushSpurious(pid) =>
      s.(producers := s.producers[pid := At(ProducerAt(s, pid).frame, s.prod)])
    case PushFrame(pid) =>
      var p := ProducerAt(s, pid);
      s.(frames := s.frames[Slot(p.pos, s.cap) := p.frame],
         producers := s.producers[pid := Written(p.frame, p.pos)])
    case PushSequence(pid) =>
      var p := ProducerAt(s, pid);
      s.(sequence := s.sequence[Slot(p.pos, s.cap) := p.pos + 1], producers := s.producers[pid := Out])
    case PopCheck =>
      if s.sequence[Slot(s.cons, s.cap)] == s.cons + 1 then s.(consumer := Found) else s
    case PopRead => s.(consumer := Holding(s.frames[Slot(s.cons, s.cap)]))
    case PopRelease =>
      s.(sequence := s.sequence[Slot(s.cons, s.cap) := s.cons + s.cap], consumer := Released(s.consumer.frame))
    case PopAdvance =>
      s.(cons := s.cons + 1, consumer := Waiting, delivered := s.delivered + [s.consumer.frame])
  }

  ghost predicate Next(s: State, t: State) {
    exists a :: Enabled(s, a) && t == Apply(s, a)
  }

  /** Positions below this have been released for reuse. */
  function Free(s: State): nat {
    if s.consumer.Released? then s.cons + 1 else s.cons
  }

  /** A reserved, unreleased position is either published, or still owned by the producer that reserved it. */
  ghost predicate PositionOk(s: State, p: nat)
    requires Shaped(s) && |s.log| == |s.holder| == s.prod
  {
    var i := Slot(p, s.cap);
    if p >= s.prod then s.sequence[i] == p
    else if s.sequence[i] == p then
      ProducerAt(s, s.holder[p]) == Reserved(s.log[p], p) || ProducerAt(s, s.holder[p]) == Written(s.log[p], p)
    else
      s.sequence[i] == p + 1 && s.frames[i] == s.log[p]
  }

  ghost predicate ProducerOk(s: State, pid: Pid)
    requires Shaped(s) && |s.log| == |s.holder| == s.prod
  {
    match ProducerAt(s, pid)
    case Out => true
    case At(_, p) => p <= s.prod
    case Matched(_, p) => p <= s.prod && (p == s.prod ==> s.prod < Free(s) + s.cap)
    case Reserved(f, p) => Free(s) <= p < s.prod && s.sequence[Slot(p, s.cap)] == p && s.holder[p] == pid
                           && s.log[p] == f
    case Written(f, p) => Free(s) <= p < s.prod && s.sequence[Slot(p, s.cap)] == p && s.holder[p] == pid
                          && s.frames[Slot(p, s.cap)] == f && s.log[p] == f
  }

  ghost predicate ConsumerOk(s: State)
    requires Shaped(s) && |s.log| == |s.holder| == s.prod
  {
    match s.consumer
    case Waiting => true
    case Found => s.cons < s.prod && s.sequence[Slot(s.cons, s.cap)] == s.cons + 1
    case Holding(f) => s.cons < s.prod && s.sequence[Slot(s.cons, s.cap)] == s.cons + 1 && f == s.log[s.cons]
    case Released(f) => s.cons < s.prod && f == s.log[s.cons]
  }

  ghost predicate Inv(s: State) {
    && s.cap >= 2 && Shaped(s)
    && |s.log| == |s.holder| == s.prod
    && Free(s) <= s.prod <= Free(s) + s.cap
    && (forall p: nat :: Free(s) <= p < Free(s) + s.cap ==> PositionOk(s, p))
    && (forall pid: Pid :: ProducerOk(s, pid))
    && ConsumerOk(s)
    && s.delivered == s.log[..s.cons]
  }

  lemma InitKeeps(s: State)
    requires Init(s)
    ensures Inv(s)
  {
  }

  lemma LoadStepKeeps(s: State, a: Action)
    requires Inv(s) && Enabled(s, a)
    requires a.PushBegin? || a.PushCheck? || a.PushSpurious?
    ensures Inv(Apply(s, a))
  {
    assert ProducerOk(s, a.pid);
    var t := Apply(s, a);
    if a.PushCheck? { MatchMeansRoom(s, ProducerAt(s, a.pid).pos); }
    forall pid: Pid ensures ProducerOk(t, pid) {
      assert ProducerOk(s, pid);
    }
    forall p: nat | Free(t) <= p < Free(t) + t.cap ensures PositionOk(t, p) {
      assert PositionOk(s, p);
    }
  }

  lemma StoreFrameKeeps(s: State, pid: Pid)
    requires Inv(s) && Enabled(s, PushFrame(pid))
    ensures Inv(Apply(s, PushFrame(pid)))
  {
    WindowIsInjective(Free(s), s.cap);
    assert ProducerOk(s, pid);
    var t := Apply(s, PushFrame(pid));
    forall q: Pid ensures ProducerOk(t, q) {
      assert ProducerOk(s, q);
    }
    forall p: nat | Free(t) <= p < Free(t) + t.cap ensures PositionOk(t, p) {
      assert PositionOk(s, p);
    }
  }

  lemma StoreSequenceKeeps(s: State, pid: Pid)
    requires Inv(s) && Enabled(s, PushSequence(pid))
    ensures Inv(Apply(s, PushSequence(pid)))
  {
    WindowIsInjective(Free(s), s.cap);
    assert ProducerOk(s, pid);
    var t := Apply(s, PushSequence(pid));
    forall q: Pid ensures ProducerOk(t, q) {
      assert ProducerOk(s, q);
    }
    forall p: nat | Free(t) <= p < Free(t) + t.cap ensures PositionOk(t, p) {
      assert PositionOk(s, p);
    }
  }

  /** An equal sequence proves the slot free: at that instant fewer than a capacity of positions are unreleased. */
  lemma MatchMeansRoom(s: State, pos: nat)
    requires Inv(s) && pos <= s.prod
    ensures s.sequence[Slot(pos, s.cap)] == pos && pos == s.prod ==> s.prod < Free(s) + s.cap
  {
    if pos == Free(s) + s.cap {
      assert PositionOk(s, Free(s));
      assert Slot(pos, s.cap) == Slot(Free(s), s.cap);
    }
  }

  /** A won exchange reserves the free position it compared. */
  lemma WonExchangeKeeps(s: State, pid: Pid)
    requires Inv(s) && Enabled(s, PushExchange(pid)) && ProducerAt(s, pid).pos == s.prod
    ensures Inv(Apply(s, PushExchange(pid)))
  {
    WindowIsInjective(Free(s), s.cap);
    assert ProducerOk(s, pid);
    var t := Apply(s, PushExchange(pid));
    assert PositionOk(s, s.prod);
    forall p: nat | Free(t) <= p < Free(t) + t.cap ensures PositionOk(t, p) {
      assert PositionOk(s, p);
    }
    forall q: Pid ensures ProducerOk(t, q) {
      assert ProducerOk(s, q);
    }
    assert t.log[..t.cons] == s.log[..s.cons];
  }

  lemma ExchangeKeeps(s: State, pid: Pid)
    requires Inv(s) && Enabled(s, PushExchange(pid))
    ensures Inv(Apply(s, PushExchange(pid)))
  {
    var t := Apply(s, PushExchange(pid));
    if ProducerAt(s, pid).pos == s.prod {
      WonExchangeKeeps(s, pid);
    } else {
      forall p: nat | Free(t) <= p < Free(t) + t.cap ensures PositionOk(t, p) {
        assert PositionOk(s, p);
      }
      forall q: Pid ensures ProducerOk(t, q) {
        assert ProducerOk(s, q);
      }
    }
  }

  lemma ConsumerStepKeeps(s: State, a: Action)
    requires Inv(s) && Enabled(s, a)
    requires a.PopCheck? || a.PopRead? || a.PopAdvance?
    ensures Inv(Apply(s, a))
  {
    var t := Apply(s, a);
    assert PositionOk(s, Free(s));
    assert t.sequence == s.sequence && t.frames == s.frames && t.log == s.log && Free(t) == Free(s);
    forall p: nat | Free(t) <= p < Free(t) + t.cap ensures PositionOk(t, p) { assert PositionOk(s, p); }
    forall q: Pid ensures ProducerOk(t, q) { assert ProducerOk(s, q); }
  }

  lemma ReleaseKeeps(s: State)
    requires Inv(s) && Enabled(s, PopRelease)
    ensures Inv(Apply(s, PopRelease))
  {
    WindowIsInjective(Free(s), s.cap);
    var t := Apply(s, PopRelease);
    assert PositionOk(s, Free(s));
    assert Slot(Free(s) + s.cap, s.cap) == Slot(Free(s), s.cap);
    forall p: nat | Free(t) <= p < Free(t) + t.cap ensures PositionOk(t, p) {
      if p < Free(s) + s.cap { assert PositionOk(s, p); }
    }
    forall q: Pid ensures ProducerOk(t, q) { assert ProducerOk(s, q); }
  }

  lemma StepKeeps(s: State, a: Action)
    requires Inv(s) && Enabled(s, a)
    ensures Inv(Apply(s, a))
  {
    if a.PushExchange? {
      ExchangeKeeps(s, a.pid);
    } else if a.PopRelease? {
      ReleaseKeeps(s);
    } else if a.PopCheck? || a.PopRead? || a.PopAdvance? {
      ConsumerStepKeeps(s, a);
    } else if a.PushFrame? {
      StoreFrameKeeps(s, a.pid);
    } else if a.PushSequence? {
      StoreSequenceKeeps(s, a.pid);
    } else {
      LoadStepKeeps(s, a);
    }
  }

  /**
   Main result. In every run the consumer receives the reserved frames in
   position order, each exactly once, and at most `cap` positions are reserved
   and unreleased.
   */
  lemma DeliversInOrder(run: seq<State>, k: nat)
    requires Traces.IsRun(Init, Next, run) && k < |run|
    ensures Inv(run[k])
    ensures run[k].delivered == run[k].log[..run[k].cons]
    ensures run[k].prod - Free(run[k]) <= run[k].cap
  {
    forall s | Init(s) ensures Inv(s) { InitKeeps(s); }
    forall s, t | Inv(s) && Next(s, t) ensures Inv(t) {
      var a :| Enabled(s, a) && t == Apply(s, a);
      StepKeeps(s, a);
    }
    Traces.InductiveHolds(Init, Next, Inv, run, k);
  }

  /** The bounded FIFO this queue refines: reserved positions the consumer has not taken. */
  function Queue(s: State): seq<Frame>
    requires s.cons <= |s.log|
  {
    s.log[s.cons..]
  }

  /** Every step leaves the FIFO alone, appends the frame of a won exchange, or takes the front frame. */
  lemma RefinesFifo(run: seq<State>, k: nat, a: Action)
    requires Traces.IsRun(Init, Next, run) && k < |run| && Enabled(run[k], a)
    ensures var s, t := run[k], Apply(run[k], a);
            && s.cons <= |s.log| && t.cons <= |t.log|
            && (if a.PushExchange? && s.prod == ProducerAt(s, a.pid).pos then
                  Queue(t) == Queue(s) + [ProducerAt(s, a.pid).frame] && t.delivered == s.delivered
                else if a.PopAdvance? then
                  |Queue(s)| > 0 && t.delivered == s.delivered + [Queue(s)[0]] && Queue(t) == Queue(s)[1..]
                else
                  Queue(t) == Queue(s) && t.delivered == s.delivered)
  {
    DeliversInOrder(run, k);
    StepKeeps(run[k], a);
  }

  /**
   try_push gives up exactly when, at the instant it loads the sequence, it holds
   the current producer position and a full capacity of positions is unreleased;
   giving up reserves nothing.
   */
  lemma FailsOnlyWhenFull(run: seq<State>, k: nat, pid: Pid)
    requires Traces.IsRun(Init, Next, run) && k < |run| && Enabled(run[k], PushCheck(pid))
    ensures var s, t := run[k], Apply(run[k], PushCheck(pid));
            && (ProducerAt(t, pid).Out? <==> s.prod == Free(s) + s.cap && ProducerAt(s, pid).pos == s.prod)
            && t.prod == s.prod && t.log == s.log && t.sequence == s.sequence
  {
    DeliversInOrder(run, k);
    var s := run[k];
    assert ProducerOk(s, pid);
    var pos := ProducerAt(s, pid).pos;
    if pos < Free(s) {
      var q := OccupiedSince(pos, Free(s), s.cap);
      assert PositionOk(s, q);
    } else if pos < Free(s) + s.cap {
      assert PositionOk(s, pos);
    } else {
      assert PositionOk(s, Free(s));
      assert Slot(pos, s.cap) == Slot(Free(s), s.cap);
    }
  }

  /**
   No hole: when no producer is between its exchange and its sequence store, the
   consumer's next position, if reserved, is published, so pop() finds it.
   */
  lemma NoHole(run: seq<State>, k: nat)
    requires Traces.IsRun(Init, Next, run) && k < |run| && run[k].consumer.Waiting? && run[k].cons < run[k].prod
    requires forall pid: Pid :: !ProducerAt(run[k], pid).Reserved? && !ProducerAt(run[k], pid).Written?
    ensures Enabled(run[k], PopCheck) && Apply(run[k], PopCheck).consumer.Found?
    ensures Enabled(Apply(run[k], PopCheck), PopRead) && run[k].cons < |run[k].log|
    ensures Apply(Apply(run[k], PopCheck), PopRead).consumer == Holding(Queue(run[k])[0])
  {
    DeliversInOrder(run, k);
    assert PositionOk(run[k], run[k].cons);
  }
}
