/**
 The readiness slot of one direction of a reactor descriptor, with the
 generation and reference count that guard it against recycling, and with the
 deadline timer of that direction. Slot and reference exchanges are lock-free;
 waiting, deadline expiry, cancellation, the last part of set_deadline() and the
 start of a close run under the lifecycle lock. Every atomic access is one step.
 Pollers carry kernel tokens of the current or any earlier incarnation. The
 deadline's timer node is armed, fires and is disarmed as the timer service does
 it: disarm() waits while the node's callback runs.

 History: `pins` are the threads holding a reference, `closer` the thread closing
 the current incarnation, `taker[w]` the thread that took waiter w out of the
 slot, `node.gen` the incarnation in which the node was armed.
 */
module Readiness {
  import opened Prelude
  import Traces

  type Tid = nat
  datatype Slot = Empty | Ready | Waiter(w: Tid)
  datatype Node = Idle | Armed(config: nat, gen: nat) | Firing(t: Tid)
  datatype How = Clear | Later | Now   // set_deadline() with no deadline, one to come, one that has passed

  /** Who unblocks the slot: a poller, cancel_waiters(), on_deadline(), set_deadline() or detach(). */
  datatype Who = Poller | Canceller | Callback | Setter | Closer

  datatype Phase =
    | Out
    // an awaiter
    | WLocked(gen: nat)            // lifecycle lock held, reference taken
    | WParked(gen: nat)            // published in the slot
    | WTaken(gen: nat)             // taken out of the slot, not yet scheduled
    | WHolding(gen: nat)           // running; the awaiter still holds its reference
    // a poller with a token
    | DSaw(gen: nat)               // first generation check passed
    | DPinned(gen: nat)            // reference taken, incarnation not yet re-checked
    | DDrop
    // unblock_impl() on behalf of generation gen
    | Unblocking(who: Who, gen: nat) | Took(who: Who, gen: nat, w: Tid)
    // set_deadline(): disarming, to commit, to drop its reference
    | SDisarm(gen: nat) | SCommit(gen: nat) | SDrop
    // the deadline's callback: entered, returned
    | FEntered(config: nat, gen: nat) | FDone
    // detach()
    | CDisarm | CDone

  datatype State = State(gen: nat, closing: bool, base: bool, refs: nat, freeing: bool, slot: Slot,
                         config: nat, node: Node, setter: Option<Tid>,
                         lock: Option<Tid>, threads: map<Tid, Phase>,
                         pins: set<Tid>, closer: Tid, taker: map<Tid, Tid>)

  datatype Action =
    | Attach | Free
    | WaitBegin(t: Tid, g: nat, failing: bool) | WaitSlot(t: Tid) | WaitEnd(t: Tid)
    | Peek(t: Tid, g: nat) | Pin(t: Tid) | Verify(t: Tid)
    | Unblock(t: Tid) | Resume(t: Tid) | DropPin(t: Tid)
    | CancelBegin(t: Tid, g: nat)
    | SetBegin(t: Tid, g: nat) | SetDisarm(t: Tid) | SetCommit(t: Tid, how: How)
    | Fire(t: Tid) | Expire(t: Tid) | FireEnd(t: Tid)
    | CloseBegin(t: Tid) | CloseDisarm(t: Tid) | CloseEnd(t: Tid)

  function At(m: map<Tid, Phase>, t: Tid): Phase {
    if t in m then m[t] else Out
  }

  ghost predicate Init(s: State) {
    && s.closing && !s.base && s.refs == 0 && !s.freeing && s.slot == Empty && s.lock == None
    && s.node == Idle && s.setter == None
    && s.threads == map[] && s.pins == {} && s.taker == map[]
  }

  predicate Enabled(s: State, a: Action) {
    match a
    case Attach => s.lock.None? && s.closing && !s.base && s.refs == 0 && !s.freeing
    case Free => s.lock.None? && s.freeing
    case WaitBegin(t, g, _) => s.lock.None? && At(s.threads, t).Out? && g <= s.gen
    case WaitSlot(t) => At(s.threads, t).WLocked?
    case WaitEnd(t) => At(s.threads, t).WHolding? && s.refs > 0
    case Peek(t, g) => At(s.threads, t).Out? && g <= s.gen
    case Pin(t) => At(s.threads, t).DSaw?
    case Verify(t) => At(s.threads, t).DPinned?
    case Unblock(t) => At(s.threads, t).Unblocking?
    case Resume(t) => At(s.threads, t).Took?
    case DropPin(t) => (At(s.threads, t).DDrop? || At(s.threads, t).SDrop?) && s.refs > 0
    case CancelBegin(t, g) => s.lock.None? && At(s.threads, t).Out? && g <= s.gen
    case SetBegin(t, g) => s.lock.None? && s.setter.None? && At(s.threads, t).Out? && g <= s.gen
    case SetDisarm(t) => At(s.threads, t).SDisarm? && !s.node.Firing?   // disarm() waits out a running callback
    case SetCommit(t, _) => At(s.threads, t).SCommit? && s.lock.None?
    case Fire(t) => At(s.threads, t).Out? && s.node.Armed?
    case Expire(t) => At(s.threads, t).FEntered? && s.lock.None?
    case FireEnd(t) => At(s.threads, t).FDone?
    case CloseBegin(t) => s.lock.None? && At(s.threads, t).Out? && s.base && !s.closing
    case CloseDisarm(t) => At(s.threads, t).CDisarm? && !s.node.Firing?
    case CloseEnd(t) => At(s.threads, t).CDone? && s.refs > 0
  }

  function Goto(s: State, t: Tid, p: Phase): State {
    s.(threads := s.threads[t := p])
  }

  function DropRef(s: State): State
    requires s.refs > 0
  {
    s.(refs := s.refs - 1, freeing := s.refs == 1)
  }

  function After(who: Who): Phase {
    match who
    case Poller => DDrop
    case Canceller => Out
    case Callback => FDone
    case Setter => SDrop
    case Closer => CDone
  }

  /** unblock_impl() has nothing more to do with the slot; who held the lifecycle lock unlocks it. */
  function Unblocked(s: State, t: Tid, who: Who): State {
    Goto(s.(lock := if who.Poller? || who.Closer? then s.lock else None), t, After(who))
  }

  function UnblockStep(s: State, t: Tid): State
    requires At(s.threads, t).Unblocking?
  {
    var p := At(s.threads, t);
    match s.slot
    case Ready => Unblocked(s, t, p.who)
    case Empty => Unblocked(s.(slot := Ready), t, p.who)
    case Waiter(w) =>
      var g := if At(s.threads, w).WParked? then At(s.threads, w).gen else s.gen;
      Goto(Goto(s.(slot := Empty, taker := s.taker[w := t]), w, WTaken(g)), t, Took(p.who, p.gen, w))
  }

  /** await_suspend()'s slot transition, still under the lifecycle lock. */
  function WaitSlotStep(s: State, t: Tid): State
    requires At(s.threads, t).WLocked?
  {
    var g := At(s.threads, t).gen;
    match s.slot
    case Ready => Goto(s.(slot := Empty, lock := None), t, WHolding(g))   // consumes the edge
    case Waiter(_) => Goto(s.(lock := None), t, WHolding(g))              // reports "broken"
    case Empty => Goto(s.(slot := Waiter(t), lock := None), t, WParked(g))
  }

  function ResumeStep(s: State, t: Tid): State
    requires At(s.threads, t).Took?
  {
    var p := At(s.threads, t);
    if At(s.threads, p.w).WTaken?
    then Unblocked(Goto(s, p.w, WHolding(At(s.threads, p.w).gen)), t, p.who)
    else s
  }

  /** The locked part of set_deadline(): a new configuration, armed, cleared or expired on the spot. */
  function CommitStep(s: State, t: Tid, how: How): State
    requires At(s.threads, t).SCommit?
  {
    var g := At(s.threads, t).gen;
    if s.gen != g || s.closing then Goto(s, t, SDrop)
    else
      var s' := s.(config := s.config + 1);
      match how
      case Clear => Goto(s', t, SDrop)
      case Later => Goto(s'.(node := Armed(s.config + 1, s.gen)), t, SDrop)
      case Now => Goto(s'.(lock := Some(t)), t, Unblocking(Setter, g))
  }

  /** on_deadline(), at its check under the lifecycle lock. */
  function ExpireStep(s: State, t: Tid): State
    requires At(s.threads, t).FEntered?
  {
    var p := At(s.threads, t);
    if s.closing || p.config != s.config then Goto(s, t, FDone)
    else Goto(s.(lock := Some(t)), t, Unblocking(Callback, p.gen))
  }

  function Apply(s: State, a: Action): State
    requires Enabled(s, a)
  {
    match a
    case Attach => s.(closing := false, base := true, refs := 1, slot := Empty, config := 1, node := Idle)
    case Free => s.(gen := s.gen + 1, closing := true, freeing := false, slot := Empty)
    case WaitBegin(t, g, failing) =>
      if s.gen != g || s.closing || failing then s
      else Goto(s.(lock := Some(t), refs := s.refs + 1, pins := s.pins + {t}), t, WLocked(g))
    case WaitSlot(t) => WaitSlotStep(s, t)
    case WaitEnd(t) => Goto(DropRef(s.(pins := s.pins - {t})), t, Out)
    case Peek(t, g) => if s.gen == g then Goto(s, t, DSaw(g)) else s
    case Pin(t) =>
      if s.refs == 0 then Goto(s, t, Out)
      else Goto(s.(refs := s.refs + 1, pins := s.pins + {t}), t, DPinned(At(s.threads, t).gen))
    case Verify(t) =>
      var g := At(s.threads, t).gen;
      Goto(s, t, if s.gen != g || s.closing then DDrop else Unblocking(Poller, g))
    case Unblock(t) => UnblockStep(s, t)
    case Resume(t) => ResumeStep(s, t)
    case DropPin(t) =>
      Goto(DropRef(s.(pins := s.pins - {t}, setter := if At(s.threads, t).SDrop? then None else s.setter)), t, Out)
    case CancelBegin(t, g) =>
      if s.closing || s.gen != g then s else Goto(s.(lock := Some(t)), t, Unblocking(Canceller, g))
    case SetBegin(t, g) =>
      if s.gen != g || s.closing then s
      else Goto(s.(setter := Some(t), refs := s.refs + 1, pins := s.pins + {t}), t, SDisarm(g))
    case SetDisarm(t) => Goto(s.(node := Idle), t, SCommit(At(s.threads, t).gen))
    case SetCommit(t, how) => CommitStep(s, t, how)
    case Fire(t) => Goto(s.(node := Firing(t)), t, FEntered(s.node.config, s.node.gen))
    case Expire(t) => ExpireStep(s, t)
    case FireEnd(t) => Goto(s.(node := Idle), t, Out)
    case CloseBegin(t) => Goto(s.(closing := true, closer := t), t, CDisarm)
    case CloseDisarm(t) => Goto(s.(node := Idle, config := s.config + 1), t, Unblocking(Closer, s.gen))
    case CloseEnd(t) => Goto(DropRef(s.(base := false)), t, Out)
  }

  ghost predicate Next(s: State, t: State) {
    exists a :: Enabled(s, a) && t == Apply(s, a)
  }

  // ------------------------------------------------------------ invariant

  predicate By(p: Phase, who: Who) {
    (p.Unblocking? || p.Took?) && p.who == who
  }

  predicate HoldsRef(p: Phase) {
    p.WLocked? || p.WParked? || p.WTaken? || p.WHolding? || p.DPinned? || p.DDrop? || By(p, Poller) || IsSetting(p)
  }

  predicate HoldsLock(p: Phase) {
    p.WLocked? || By(p, Canceller) || By(p, Callback) || By(p, Setter)
  }

  predicate IsClosing(p: Phase) {
    p.CDisarm? || p.CDone? || By(p, Closer)
  }

  predicate IsSetting(p: Phase) {
    p.SDisarm? || p.SCommit? || p.SDrop? || By(p, Setter)
  }

  predicate IsFiring(p: Phase) {
    p.FEntered? || p.FDone? || By(p, Callback)
  }

  /** Thread p has taken w out of the slot and not scheduled it yet. */
  predicate Carries(p: Phase, w: Tid) {
    p.Took? && p.w == w
  }

  ghost predicate DescOk(s: State) {
    && (!s.closing ==> s.base)
    && (s.freeing ==> s.refs == 0)
    && (s.refs == 0 && !s.freeing ==> s.slot == Empty)
    && s.refs == (if s.base then 1 else 0) + |s.pins|
    && (s.slot.Waiter? ==> At(s.threads, s.slot.w).WParked?)
    && (s.closing && s.base ==> IsClosing(At(s.threads, s.closer)))
    && (s.closing && s.slot.Waiter? ==>
          At(s.threads, s.closer).CDisarm? || At(s.threads, s.closer) == Unblocking(Closer, s.gen))
  }

  /** The node is armed for the current configuration, and idle once its setter or the closer has disarmed it. */
  ghost predicate NodeOk(s: State) {
    && (s.node.Armed? ==> s.node.config == s.config && s.node.gen == s.gen)
    && (s.node.Firing? ==> IsFiring(At(s.threads, s.node.t)))
    && (!s.node.Idle? ==> s.base && (s.closing ==> At(s.threads, s.closer).CDisarm?))
    && (s.setter.Some? ==> IsSetting(At(s.threads, s.setter.value)))
    && (!s.node.Idle? && s.setter.Some? ==> !At(s.threads, s.setter.value).SCommit?)
  }

  /** A thread in phase p holds exactly the reference, lock, mutex, node and closing role that p says. */
  ghost predicate Standing(s: State, t: Tid, p: Phase) {
    && (t in s.pins <==> HoldsRef(p))
    && (s.lock == Some(t) <==> HoldsLock(p))
    && (s.setter == Some(t) <==> IsSetting(p))
    && (s.node == Firing(t) <==> IsFiring(p))
    && (IsClosing(p) ==> t == s.closer && s.closing && s.base)
    && ((p.Unblocking? || p.Took? || p.WLocked?) && HoldsLock(p) ==> !s.closing)
  }

  /** It works for the current incarnation, and slot, waiters and takers agree. */
  ghost predicate Current(s: State, t: Tid, p: Phase) {
    match p
    case WLocked(g) => g == s.gen
    case WParked(g) => g == s.gen && s.slot == Waiter(t)
    case WTaken(g) => g == s.gen && t in s.taker && Carries(At(s.threads, s.taker[t]), t)
    case WHolding(g) => g == s.gen
    case Unblocking(_, g) => g == s.gen
    case Took(_, g, w) => g == s.gen && At(s.threads, w).WTaken? && w in s.taker && s.taker[w] == t
    case SDisarm(g) => g == s.gen
    case SCommit(g) => g == s.gen
    case FEntered(q, g) => q == s.config && g == s.gen
    case _ => true
  }

  ghost predicate ThreadOk(s: State, t: Tid) {
    Standing(s, t, At(s.threads, t)) && Current(s, t, At(s.threads, t))
  }

  ghost predicate Inv(s: State) {
    && DescOk(s) && NodeOk(s)
    && (forall t: Tid :: ThreadOk(s, t))
  }

  // ---------------------------------------------------------------- proof

  lemma FreeKeeps(s: State)
    requires Inv(s) && Enabled(s, Free)
    ensures !s.slot.Waiter?
    ensures Inv(Apply(s, Free))
  {
    var s' := Apply(s, Free);
    assert |s.pins| == 0;
    assert s.slot.Waiter? ==> ThreadOk(s, s.slot.w);
    assert s.setter.Some? ==> ThreadOk(s, s.setter.value);
    forall t: Tid ensures ThreadOk(s', t) { assert ThreadOk(s, t); }
  }

  lemma AttachKeeps(s: State)
    requires Inv(s) && Enabled(s, Attach)
    ensures Inv(Apply(s, Attach))
  {
    var s' := Apply(s, Attach);
    assert |s.pins| == 0;
    forall t: Tid ensures ThreadOk(s', t) { assert ThreadOk(s, t); }
  }

  /** The facts a step of thread t uses. */
  ghost predicate Around(s: State, t: Tid) {
    && DescOk(s) && NodeOk(s) && ThreadOk(s, t) && ThreadOk(s, s.closer)
    && (s.slot.Waiter? ==> ThreadOk(s, s.slot.w))
    && (At(s.threads, t).Took? ==> ThreadOk(s, At(s.threads, t).w))
    && (s.node.Firing? ==> ThreadOk(s, s.node.t))
    && (s.setter.Some? ==> ThreadOk(s, s.setter.value))
    && (s.lock.Some? ==> ThreadOk(s, s.lock.value))
  }

  /** A step that leaves thread u and what u relies on as they are. */
  ghost predicate Spares(s: State, n: State, u: Tid) {
    && At(n.threads, u) == At(s.threads, u)
    && (u in n.pins <==> u in s.pins)
    && (n.lock == Some(u) <==> s.lock == Some(u))
    && (n.setter == Some(u) <==> s.setter == Some(u))
    && (n.node == Firing(u) <==> s.node == Firing(u))
    && (At(s.threads, u).FEntered? ==> n.config == s.config)
    && (IsClosing(At(s.threads, u)) ==> n.closing && n.base && n.closer == s.closer)
    && (HoldsLock(At(s.threads, u)) ==> !n.closing)
    && (s.slot == Waiter(u) ==> n.slot == Waiter(u))
    && n.gen == s.gen && n.taker == s.taker
  }

  lemma SparedStays(s: State, n: State, t: Tid, u: Tid)
    requires ThreadOk(s, u) && Spares(s, n, u) && u != t && !At(s.threads, t).Took? && !At(s.threads, t).WTaken?
    requires forall v: Tid :: v != t ==> At(n.threads, v) == At(s.threads, v)
    ensures ThreadOk(n, u)
  {
  }

  /** Steps of awaiters, pollers and cancel_waiters() that neither take nor schedule a waiter. */
  predicate IsWaitStep(a: Action) {
    a.WaitBegin? || a.WaitSlot? || a.WaitEnd? || a.Peek? || a.Pin? || a.Verify? || a.DropPin? || a.CancelBegin?
  }

  predicate IsDeadlineStep(a: Action) {
    a.SetBegin? || a.SetDisarm? || a.SetCommit? || a.Fire? || a.Expire? || a.FireEnd?
  }

  predicate IsCloseStep(a: Action) {
    a.CloseBegin? || a.CloseDisarm? || a.CloseEnd?
  }

  lemma BeginStepSpares(s: State, a: Action, u: Tid)
    requires Enabled(s, a) && (a.WaitBegin? || a.CancelBegin? || a.Peek? || a.Pin? || a.Verify?) && u != a.t
    requires Standing(s, a.t, At(s.threads, a.t)) && Standing(s, u, At(s.threads, u))
    ensures Spares(s, Apply(s, a), u)
  {
  }

  lemma EndStepSpares(s: State, a: Action, u: Tid)
    requires Enabled(s, a) && (a.WaitSlot? || a.WaitEnd? || a.DropPin?) && u != a.t
    requires Standing(s, a.t, At(s.threads, a.t)) && Standing(s, u, At(s.threads, u))
    ensures Spares(s, Apply(s, a), u)
  {
  }

  lemma CommitSpares(s: State, t: Tid, how: How, u: Tid)
    requires Enabled(s, SetCommit(t, how)) && u != t && NodeOk(s)
    requires Standing(s, t, At(s.threads, t)) && Standing(s, u, At(s.threads, u))
    ensures Spares(s, Apply(s, SetCommit(t, how)), u)
  {
  }

  lemma SetStepSpares(s: State, a: Action, u: Tid)
    requires Enabled(s, a) && (a.SetBegin? || a.SetDisarm? || a.SetCommit?) && u != a.t && NodeOk(s)
    requires Standing(s, a.t, At(s.threads, a.t)) && Standing(s, u, At(s.threads, u))
    ensures Spares(s, Apply(s, a), u)
  {
    if a.SetCommit? { CommitSpares(s, a.t, a.how, u); }
  }

  lemma FireStepSpares(s: State, a: Action, u: Tid)
    requires Enabled(s, a) && (a.Fire? || a.Expire? || a.FireEnd?) && u != a.t
    requires Standing(s, a.t, At(s.threads, a.t)) && Standing(s, u, At(s.threads, u))
    ensures Spares(s, Apply(s, a), u)
  {
  }

  lemma CloseStepSpares(s: State, a: Action, u: Tid)
    requires Enabled(s, a) && IsCloseStep(a) && u != a.t
    requires Standing(s, a.t, At(s.threads, a.t)) && Standing(s, u, At(s.threads, u))
    ensures Spares(s, Apply(s, a), u)
  {
  }

  lemma WaitSlotIsLocal(s: State, t: Tid, v: Tid)
    requires Enabled(s, WaitSlot(t)) && v != t
    ensures At(Apply(s, WaitSlot(t)).threads, v) == At(s.threads, v)
  {
  }

  lemma WaitStepIsLocal(s: State, a: Action, v: Tid)
    requires Enabled(s, a) && IsWaitStep(a) && v != a.t
    ensures At(Apply(s, a).threads, v) == At(s.threads, v)
  {
    if a.WaitSlot? { WaitSlotIsLocal(s, a.t, v); }
  }

  lemma CommitIsLocal(s: State, t: Tid, how: How, v: Tid)
    requires Enabled(s, SetCommit(t, how)) && v != t
    ensures At(Apply(s, SetCommit(t, how)).threads, v) == At(s.threads, v)
  {
  }

  lemma DeadlineStepIsLocal(s: State, a: Action, v: Tid)
    requires Enabled(s, a) && IsDeadlineStep(a) && v != a.t
    ensures At(Apply(s, a).threads, v) == At(s.threads, v)
  {
    if a.SetCommit? { CommitIsLocal(s, a.t, a.how, v); }
  }

  lemma OwnStepKeepsOther(s: State, a: Action, u: Tid)
    requires Enabled(s, a) && (IsWaitStep(a) || IsDeadlineStep(a) || IsCloseStep(a))
    requires NodeOk(s) && ThreadOk(s, a.t) && ThreadOk(s, u) && u != a.t
    ensures ThreadOk(Apply(s, a), u)
  {
    if a.WaitSlot? || a.WaitEnd? || a.DropPin? { EndStepSpares(s, a, u); }
    else if IsWaitStep(a) { BeginStepSpares(s, a, u); }
    else if a.Fire? || a.Expire? || a.FireEnd? { FireStepSpares(s, a, u); }
    else if IsDeadlineStep(a) { SetStepSpares(s, a, u); }
    else { CloseStepSpares(s, a, u); }
    forall v: Tid | v != a.t ensures At(Apply(s, a).threads, v) == At(s.threads, v) {
      if IsWaitStep(a) { WaitStepIsLocal(s, a, v); }
      else if IsDeadlineStep(a) { DeadlineStepIsLocal(s, a, v); }
    }
    SparedStays(s, Apply(s, a), a.t, u);
  }

  lemma WaitBeginKeepsDesc(s: State, a: Action)
    requires Enabled(s, a) && (a.WaitBegin? || a.CancelBegin?) && Around(s, a.t)
    ensures DescOk(Apply(s, a)) && NodeOk(Apply(s, a))
  {
  }

  lemma WaitBeginKeepsSelf(s: State, a: Action)
    requires Enabled(s, a) && (a.WaitBegin? || a.CancelBegin?) && Around(s, a.t)
    ensures ThreadOk(Apply(s, a), a.t)
  {
  }

  lemma SetBeginKeepsDesc(s: State, a: Action)
    requires Enabled(s, a) && a.SetBegin? && Around(s, a.t)
    ensures DescOk(Apply(s, a)) && NodeOk(Apply(s, a))
  {
  }

  lemma SetBeginKeepsSelf(s: State, a: Action)
    requires Enabled(s, a) && a.SetBegin? && Around(s, a.t)
    ensures ThreadOk(Apply(s, a), a.t)
  {
  }

  lemma CloseBeginKeepsDesc(s: State, a: Action)
    requires Enabled(s, a) && a.CloseBegin? && Around(s, a.t)
    ensures DescOk(Apply(s, a)) && NodeOk(Apply(s, a))
  {
  }

  lemma CloseBeginKeepsSelf(s: State, a: Action)
    requires Enabled(s, a) && a.CloseBegin? && Around(s, a.t)
    ensures ThreadOk(Apply(s, a), a.t)
  {
  }

  lemma WaitSlotKeepsDesc(s: State, a: Action)
    requires Enabled(s, a) && a.WaitSlot? && Around(s, a.t)
    ensures DescOk(Apply(s, a)) && NodeOk(Apply(s, a))
  {
  }

  lemma WaitSlotKeepsSelf(s: State, a: Action)
    requires Enabled(s, a) && a.WaitSlot? && Around(s, a.t)
    ensures ThreadOk(Apply(s, a), a.t)
  {
  }

  lemma PollerKeepsDesc(s: State, a: Action)
    requires Enabled(s, a) && (a.Peek? || a.Verify?) && Around(s, a.t)
    ensures DescOk(Apply(s, a)) && NodeOk(Apply(s, a))
  {
  }

  lemma PollerKeepsSelf(s: State, a: Action)
    requires Enabled(s, a) && (a.Peek? || a.Verify?) && DescOk(s) && NodeOk(s) && ThreadOk(s, a.t)
    ensures ThreadOk(Apply(s, a), a.t)
  {
  }

  lemma PinKeepsDesc(s: State, a: Action)
    requires Enabled(s, a) && a.Pin? && Around(s, a.t)
    ensures DescOk(Apply(s, a)) && NodeOk(Apply(s, a))
  {
  }

  lemma PinKeepsSelf(s: State, a: Action)
    requires Enabled(s, a) && a.Pin? && DescOk(s) && NodeOk(s) && ThreadOk(s, a.t)
    ensures ThreadOk(Apply(s, a), a.t)
  {
  }

  lemma DropKeepsDesc(s: State, a: Action)
    requires Enabled(s, a) && (a.WaitEnd? || a.DropPin?) && Around(s, a.t)
    ensures DescOk(Apply(s, a)) && NodeOk(Apply(s, a))
  {
  }

  lemma DropKeepsSelf(s: State, a: Action)
    requires Enabled(s, a) && (a.WaitEnd? || a.DropPin?) && Around(s, a.t)
    ensures ThreadOk(Apply(s, a), a.t)
  {
  }

  lemma CloseEndKeepsDesc(s: State, a: Action)
    requires Enabled(s, a) && a.CloseEnd? && Around(s, a.t)
    ensures DescOk(Apply(s, a)) && NodeOk(Apply(s, a))
  {
  }

  lemma CloseEndKeepsSelf(s: State, a: Action)
    requires Enabled(s, a) && a.CloseEnd? && Around(s, a.t)
    ensures ThreadOk(Apply(s, a), a.t)
  {
  }

  lemma DisarmKeepsDesc(s: State, a: Action)
    requires Enabled(s, a) && (a.SetDisarm? || a.CloseDisarm?) && Around(s, a.t)
    ensures DescOk(Apply(s, a)) && NodeOk(Apply(s, a))
  {
  }

  lemma DisarmKeepsSelf(s: State, a: Action)
    requires Enabled(s, a) && (a.SetDisarm? || a.CloseDisarm?) && Around(s, a.t)
    ensures ThreadOk(Apply(s, a), a.t)
  {
  }

  lemma CommitKeepsDesc(s: State, a: Action)
    requires Enabled(s, a) && a.SetCommit? && Around(s, a.t)
    ensures DescOk(Apply(s, a)) && NodeOk(Apply(s, a))
  {
  }

  lemma CommitKeepsSelf(s: State, a: Action)
    requires Enabled(s, a) && a.SetCommit? && DescOk(s) && NodeOk(s) && ThreadOk(s, a.t)
    ensures ThreadOk(Apply(s, a), a.t)
  {
  }

  lemma FireKeepsDesc(s: State, a: Action)
    requires Enabled(s, a) && a.Fire? && Around(s, a.t)
    ensures DescOk(Apply(s, a)) && NodeOk(Apply(s, a))
  {
  }

  lemma FireKeepsSelf(s: State, a: Action)
    requires Enabled(s, a) && a.Fire? && Around(s, a.t)
    ensures ThreadOk(Apply(s, a), a.t)
  {
  }

  lemma ExpireKeepsDesc(s: State, a: Action)
    requires Enabled(s, a) && (a.Expire? || a.FireEnd?) && Around(s, a.t)
    ensures DescOk(Apply(s, a)) && NodeOk(Apply(s, a))
  {
  }

  lemma ExpireKeepsSelf(s: State, a: Action)
    requires Enabled(s, a) && (a.Expire? || a.FireEnd?) && ThreadOk(s, a.t)
    ensures ThreadOk(Apply(s, a), a.t)
  {
  }

  /** Leaving unblock_impl() gives up the lock, nothing else. */
  lemma AfterRoles(p: Phase, who: Who)
    requires By(p, who)
    ensures HoldsRef(After(who)) == HoldsRef(p) && IsSetting(After(who)) == IsSetting(p)
    ensures IsFiring(After(who)) == IsFiring(p) && IsClosing(After(who)) == IsClosing(p)
    ensures !HoldsLock(After(who)) && (HoldsLock(p) <==> !who.Poller? && !who.Closer?)
  {
  }

  lemma LeaveStands(s: State, t: Tid, u: Tid, who: Who)
    requires Standing(s, t, At(s.threads, t)) && By(At(s.threads, t), who)
    requires u != t ==> Standing(s, u, At(s.threads, u))
    ensures Standing(Unblocked(s, t, who), u, At(Unblocked(s, t, who).threads, u))
  {
    AfterRoles(At(s.threads, t), who);
    var n := Unblocked(s, t, who);
    if u == t {
      assert At(n.threads, u) == After(who);
    } else {
      assert At(n.threads, u) == At(s.threads, u);
    }
  }

  lemma LeaveKeepsDesc(s: State, t: Tid, who: Who)
    requires DescOk(s) && NodeOk(s) && Standing(s, t, At(s.threads, t)) && By(At(s.threads, t), who)
    requires who == Closer ==> !s.slot.Waiter?
    ensures DescOk(Unblocked(s, t, who)) && NodeOk(Unblocked(s, t, who))
  {
    AfterRoles(At(s.threads, t), who);
  }

  /** Without a parked waiter only the unblocking thread moves. */
  lemma MarkKeepsDesc(s: State, t: Tid)
    requires Enabled(s, Unblock(t)) && !s.slot.Waiter? && Around(s, t)
    ensures DescOk(Apply(s, Unblock(t))) && NodeOk(Apply(s, Unblock(t)))
  {
    var s' := s.(slot := Ready);
    assert s.refs > 0;
    LeaveKeepsDesc(s', t, At(s.threads, t).who);
  }

  lemma MarkStaysCurrent(s: State, t: Tid, u: Tid)
    requires Enabled(s, Unblock(t)) && !s.slot.Waiter? && Current(s, u, At(s.threads, u)) && u != t
    ensures Current(Apply(s, Unblock(t)), u, At(Apply(s, Unblock(t)).threads, u))
  {
    assert At(Apply(s, Unblock(t)).threads, u) == At(s.threads, u);
  }

  lemma MarkKeepsThread(s: State, t: Tid, u: Tid)
    requires Enabled(s, Unblock(t)) && !s.slot.Waiter? && ThreadOk(s, t) && ThreadOk(s, u)
    ensures ThreadOk(Apply(s, Unblock(t)), u)
  {
    var s', who := s.(slot := Ready), At(s.threads, t).who;
    assert Apply(s, Unblock(t)) == Unblocked(s', t, who);
    assert Standing(s', t, At(s.threads, t)) && Standing(s', u, At(s.threads, u));
    LeaveStands(s', t, u, who);
    if u != t { MarkStaysCurrent(s, t, u); }
  }

  /** With one, it moves from the slot into the hands of t. */
  lemma TakeKeepsDesc(s: State, t: Tid)
    requires Enabled(s, Unblock(t)) && s.slot.Waiter? && Around(s, t)
    ensures DescOk(Apply(s, Unblock(t))) && NodeOk(Apply(s, Unblock(t)))
  {
    assert At(s.threads, s.slot.w).WParked?;
  }

  lemma TakeKeepsTaker(s: State, t: Tid)
    requires Enabled(s, Unblock(t)) && s.slot.Waiter? && ThreadOk(s, t) && ThreadOk(s, s.slot.w)
    requires At(s.threads, s.slot.w).WParked?
    ensures ThreadOk(Apply(s, Unblock(t)), t)
  {
    var p := At(s.threads, t);
    assert At(Apply(s, Unblock(t)).threads, t) == Took(p.who, p.gen, s.slot.w);
  }

  lemma TakeKeepsWaiter(s: State, t: Tid)
    requires Enabled(s, Unblock(t)) && s.slot.Waiter? && ThreadOk(s, t) && ThreadOk(s, s.slot.w)
    requires At(s.threads, s.slot.w).WParked?
    ensures ThreadOk(Apply(s, Unblock(t)), s.slot.w)
  {
  }

  lemma TakeKeepsOther(s: State, t: Tid, u: Tid)
    requires Enabled(s, Unblock(t)) && s.slot.Waiter? && ThreadOk(s, u) && u != t && u != s.slot.w
    requires At(s.threads, s.slot.w).WParked?
    ensures ThreadOk(Apply(s, Unblock(t)), u)
  {
    var s' := Apply(s, Unblock(t));
    assert At(s'.threads, u) == At(s.threads, u) && Standing(s', u, At(s.threads, u));
  }

  lemma UnblockKeeps(s: State, t: Tid, u: Tid)
    requires Enabled(s, Unblock(t)) && Around(s, t) && ThreadOk(s, u)
    ensures DescOk(Apply(s, Unblock(t))) && NodeOk(Apply(s, Unblock(t))) && ThreadOk(Apply(s, Unblock(t)), u)
  {
    if !s.slot.Waiter? {
      MarkKeepsDesc(s, t);
      MarkKeepsThread(s, t, u);
    } else {
      TakeKeepsDesc(s, t);
      if u == t { TakeKeepsTaker(s, t); }
      else if u == s.slot.w { TakeKeepsWaiter(s, t); }
      else { TakeKeepsOther(s, t, u); }
    }
  }

  /** The waiter t carries, scheduled. */
  function Scheduled(s: State, t: Tid): State
    requires At(s.threads, t).Took?
  {
    var w := At(s.threads, t).w;
    if At(s.threads, w).WTaken? then Goto(s, w, WHolding(At(s.threads, w).gen)) else s
  }

  lemma ScheduledStands(s: State, t: Tid, u: Tid)
    requires Enabled(s, Resume(t)) && At(s.threads, At(s.threads, t).w).WTaken? && ThreadOk(s, u)
    ensures Standing(Scheduled(s, t), u, At(Scheduled(s, t).threads, u))
  {
  }

  lemma ScheduledKeepsDesc(s: State, t: Tid)
    requires Enabled(s, Resume(t)) && At(s.threads, At(s.threads, t).w).WTaken? && DescOk(s) && NodeOk(s)
    ensures DescOk(Scheduled(s, t)) && NodeOk(Scheduled(s, t))
  {
  }

  lemma ResumeStaysCurrent(s: State, t: Tid, u: Tid)
    requires Enabled(s, Resume(t)) && Current(s, t, At(s.threads, t)) && Current(s, u, At(s.threads, u))
    requires Current(s, At(s.threads, t).w, At(s.threads, At(s.threads, t).w))
    ensures Current(Apply(s, Resume(t)), u, At(Apply(s, Resume(t)).threads, u))
  {
    if u != t && u != At(s.threads, t).w { assert At(Apply(s, Resume(t)).threads, u) == At(s.threads, u); }
  }

  lemma ResumeKeeps(s: State, t: Tid, u: Tid)
    requires Enabled(s, Resume(t)) && Around(s, t) && ThreadOk(s, u)
    ensures DescOk(Apply(s, Resume(t))) && NodeOk(Apply(s, Resume(t))) && ThreadOk(Apply(s, Resume(t)), u)
  {
    var n, who := Scheduled(s, t), At(s.threads, t).who;
    ScheduledKeepsDesc(s, t);
    ScheduledStands(s, t, t);
    ScheduledStands(s, t, u);
    LeaveStands(n, t, u, who);
    ResumeStaysCurrent(s, t, u);
    LeaveKeepsDesc(n, t, who);
  }

  lemma WaitStepKeeps(s: State, a: Action)
    requires Enabled(s, a) && IsWaitStep(a) && Around(s, a.t)
    ensures DescOk(Apply(s, a)) && NodeOk(Apply(s, a)) && ThreadOk(Apply(s, a), a.t)
  {
    if a.WaitBegin? || a.CancelBegin? { WaitBeginKeepsDesc(s, a); WaitBeginKeepsSelf(s, a); }
    else if a.WaitSlot? { WaitSlotKeepsDesc(s, a); WaitSlotKeepsSelf(s, a); }
    else if a.Peek? || a.Verify? { PollerKeepsDesc(s, a); PollerKeepsSelf(s, a); }
    else if a.Pin? { PinKeepsDesc(s, a); PinKeepsSelf(s, a); }
    else { DropKeepsDesc(s, a); DropKeepsSelf(s, a); }
  }

  lemma DeadlineStepKeeps(s: State, a: Action)
    requires Enabled(s, a) && (IsDeadlineStep(a) || IsCloseStep(a)) && Around(s, a.t)
    ensures DescOk(Apply(s, a)) && NodeOk(Apply(s, a)) && ThreadOk(Apply(s, a), a.t)
  {
    if a.SetBegin? { SetBeginKeepsDesc(s, a); SetBeginKeepsSelf(s, a); }
    else if a.SetDisarm? || a.CloseDisarm? { DisarmKeepsDesc(s, a); DisarmKeepsSelf(s, a); }
    else if a.SetCommit? { CommitKeepsDesc(s, a); CommitKeepsSelf(s, a); }
    else if a.Fire? { FireKeepsDesc(s, a); FireKeepsSelf(s, a); }
    else if a.Expire? || a.FireEnd? { ExpireKeepsDesc(s, a); ExpireKeepsSelf(s, a); }
    else if a.CloseBegin? { CloseBeginKeepsDesc(s, a); CloseBeginKeepsSelf(s, a); }
    else { CloseEndKeepsDesc(s, a); CloseEndKeepsSelf(s, a); }
  }

  lemma ThreadStepKeeps(s: State, a: Action, u: Tid)
    requires Enabled(s, a) && !a.Attach? && !a.Free? && Around(s, a.t) && ThreadOk(s, u)
    ensures DescOk(Apply(s, a)) && NodeOk(Apply(s, a)) && ThreadOk(Apply(s, a), u)
  {
    if a.Unblock? {
      UnblockKeeps(s, a.t, u);
    } else if a.Resume? {
      ResumeKeeps(s, a.t, u);
    } else {
      if IsWaitStep(a) { WaitStepKeeps(s, a); } else { DeadlineStepKeeps(s, a); }
      if u != a.t { OwnStepKeepsOther(s, a, u); }
    }
  }

  lemma StepKeeps(s: State, a: Action)
    requires Inv(s) && Enabled(s, a)
    ensures Inv(Apply(s, a))
  {
    if a.Attach? { AttachKeeps(s); }
    else if a.Free? { FreeKeeps(s); }
    else {
      assert Around(s, a.t);
      forall u: Tid ensures ThreadOk(Apply(s, a), u) { ThreadStepKeeps(s, a, u); }
      ThreadStepKeeps(s, a, a.t);
    }
  }

  lemma RunKeeps(run: seq<State>, k: nat)
    requires Traces.IsRun(Init, Next, run) && k < |run|
    ensures Inv(run[k])
  {
    forall s, t | Inv(s) && Next(s, t) ensures Inv(t) {
      var a :| Enabled(s, a) && t == Apply(s, a);
      StepKeeps(s, a);
    }
    Traces.InductiveHolds(Init, Next, Inv, run, k);
  }

  // -------------------------------------------------------------- results

  /**
   A thread about to change the slot on behalf of generation g, or carrying a
   waiter it took, finds the descriptor still in generation g: a token of an
   earlier incarnation never reaches the slot of a later one.
   */
  lemma StaleTokenIsInert(run: seq<State>, k: nat, t: Tid)
    requires Traces.IsRun(Init, Next, run) && k < |run|
    ensures var p := At(run[k].threads, t);
            && (p.Unblocking? || p.Took? ==> p.gen == run[k].gen)
            && (p.Took? ==> At(run[k].threads, p.w) == WTaken(p.gen))
  {
    RunKeeps(run, k);
    var s := run[k];
    assert ThreadOk(s, t);
    if At(s.threads, t).Took? { assert ThreadOk(s, At(s.threads, t).w); }
  }

  /**
   A deadline's callback that has entered, whatever it then waits for, belongs to the
   current incarnation and the current configuration: replacing or closing waits it
   out. So its sequence check can fail only in a descriptor that is closing.
   */
  lemma CallbackIsCurrent(run: seq<State>, k: nat, t: Tid)
    requires Traces.IsRun(Init, Next, run) && k < |run| && At(run[k].threads, t).FEntered?
    ensures var p := At(run[k].threads, t);
            && p.config == run[k].config && p.gen == run[k].gen && run[k].base && run[k].node == Firing(t)
            && (run[k].closing ==> At(run[k].threads, run[k].closer).CDisarm?)
  {
    RunKeeps(run, k);
    assert ThreadOk(run[k], t);
  }

  /** An armed deadline is that of the current configuration, and none is armed or running once it was disarmed. */
  lemma DisarmedStaysDisarmed(run: seq<State>, k: nat)
    requires Traces.IsRun(Init, Next, run) && k < |run|
    ensures run[k].node.Armed? ==> run[k].node == Armed(run[k].config, run[k].gen)
    ensures run[k].closing && !(run[k].base && At(run[k].threads, run[k].closer).CDisarm?) ==> run[k].node == Idle
  {
    RunKeeps(run, k);
  }

  /** A parked waiter is in the slot; a waiter taken out is carried by exactly one thread. */
  lemma WaiterIsWokenOnce(run: seq<State>, k: nat, w: Tid)
    requires Traces.IsRun(Init, Next, run) && k < |run|
    ensures At(run[k].threads, w).WParked? <==> run[k].slot == Waiter(w)
    ensures At(run[k].threads, w).WTaken? <==> exists t :: Carries(At(run[k].threads, t), w)
    ensures forall t, u :: Carries(At(run[k].threads, t), w) && Carries(At(run[k].threads, u), w) ==> t == u
  {
    RunKeeps(run, k);
    var s := run[k];
    assert ThreadOk(s, w);
    forall t | Carries(At(s.threads, t), w) ensures At(s.threads, w).WTaken? && w in s.taker && s.taker[w] == t {
      assert ThreadOk(s, t);
    }
  }

  /** Once detach() has passed the slot, nobody is parked there and nobody parks again in this incarnation. */
  lemma CloseStrandsNobody(run: seq<State>, k: nat, t: Tid)
    requires Traces.IsRun(Init, Next, run) && k < |run|
    requires run[k].closing && !At(run[k].threads, run[k].closer).CDisarm?
    requires At(run[k].threads, run[k].closer) != Unblocking(Closer, run[k].gen)
    ensures !run[k].slot.Waiter? && !At(run[k].threads, t).WParked? && !At(run[k].threads, t).WLocked?
  {
    RunKeeps(run, k);
    assert ThreadOk(run[k], t);
  }

  /** A slot is recycled only when no awaiter, poller, deadline or closer of its incarnation is left. */
  lemma FreeFindsNobody(run: seq<State>, k: nat, t: Tid)
    requires Traces.IsRun(Init, Next, run) && k < |run| && run[k].freeing
    ensures !HoldsRef(At(run[k].threads, t)) && !HoldsLock(At(run[k].threads, t))
    ensures !IsClosing(At(run[k].threads, t)) && !IsSetting(At(run[k].threads, t)) && !run[k].slot.Waiter?
    ensures run[k].node.Idle? && !IsFiring(At(run[k].threads, t))
  {
    RunKeeps(run, k);
    var s := run[k];
    assert |s.pins| == 0;
    assert ThreadOk(s, t);
    assert s.slot.Waiter? ==> ThreadOk(s, s.slot.w);
  }

  /** In the step from s to t some awaiter consumed the readiness edge and went on without parking. */
  ghost predicate Consumes(s: State, t: State) {
    s.slot.Ready? && t.slot.Empty? && exists w: Tid :: At(s.threads, w).WLocked? && At(t.threads, w).WHolding?
  }

  ghost predicate EdgeGoes(s: State, t: State) {
    Consumes(s, t) || t.gen == s.gen + 1
  }

  lemma EdgeStep(s: State, a: Action)
    requires Inv(s) && Enabled(s, a) && s.slot.Ready?
    ensures Apply(s, a).slot.Ready? || EdgeGoes(s, Apply(s, a))
  {
    if a.WaitSlot? {
      assert At(s.threads, a.t).WLocked? && At(Apply(s, a).threads, a.t).WHolding?;
    }
  }

  lemma InitHolds(s: State)
    requires Init(s)
    ensures Inv(s)
  {
  }

  ghost predicate HasEdge(s: State) {
    s.slot.Ready?
  }

  lemma EdgeNext(s: State, t: State)
    requires Inv(s) && Next(s, t)
    ensures Inv(t) && (HasEdge(s) ==> HasEdge(t) || EdgeGoes(s, t))
  {
    var a :| Enabled(s, a) && t == Apply(s, a);
    StepKeeps(s, a);
    if HasEdge(s) { EdgeStep(s, a); }
  }

  /** A readiness edge stays recorded until an awaiter consumes it or the descriptor is recycled. */
  lemma EdgeIsKept(run: seq<State>, i: nat, j: nat)
    requires Traces.IsRun(Init, Next, run) && i <= j < |run| && HasEdge(run[i])
    ensures Traces.KeptUntil(HasEdge, EdgeGoes, run, i, j)
  {
    forall s, t | Inv(s) && Next(s, t) ensures Inv(t) && (HasEdge(s) ==> HasEdge(t) || EdgeGoes(s, t)) {
      EdgeNext(s, t);
    }
    assert forall s :: Init(s) ==> Inv(s) by {
      forall s | Init(s) ensures Inv(s) { InitHolds(s); }
    }
    Traces.HoldsUntil(Init, Next, Inv, HasEdge, EdgeGoes, run, i, j);
  }

  /**
   An unblock is never lost: after it the slot holds the edge, or the parked
   waiter it found is in the hands of the unblocking thread.
   */
  lemma UnblockIsDelivered(run: seq<State>, k: nat, t: Tid)
    requires Traces.IsRun(Init, Next, run) && k < |run| && Enabled(run[k], Unblock(t))
    ensures var s' := Apply(run[k], Unblock(t));
            if run[k].slot.Waiter?
            then At(run[k].threads, run[k].slot.w).WParked? && Carries(At(s'.threads, t), run[k].slot.w)
            else s'.slot.Ready?
  {
    RunKeeps(run, k);
    assert ThreadOk(run[k], t);
  }
}
