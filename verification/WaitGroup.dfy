/**
 The wait group: a counter word where 0 is stable zero, 1 the final transition
 and n + 1 a count of n; a mutex; and a waiter list that the last done() replaces
 with a "drained" marker. Compare-exchange loops are one step; every other atomic
 access and every access under the mutex is its own step. Negative adds never
 exceed the count (the source throws when they do).

 History: `zeros` counts publications of stable zero, `fin` is the task that
 performed the latest final done(), `taker[t]` the final done() that took t off
 the list. A waiting task carries `start`, the value of `zeros` when it began.
 */
module WaitGroup {
  import opened Prelude
  import Traces

  type Tid = nat
  const FINISHING := 1
  const MAX_COUNT := 0x7FFF_FFFF_FFFF_FFFF

  datatype Waiters = Drained | Listed(nodes: seq<Tid>)

  /** The fields of the object itself. */
  datatype Group = Group(state: nat, mutex: Option<Tid>, waiters: Waiters)

  datatype Phase =
    | Out
    | Checking(start: nat)            // await_ready()
    | Parking(start: nat)             // await_suspend(), mutex not yet held
    | Locked(start: nat)
    | Saw(start: nat, state: nat)     // mutex held, state loaded
    | Spinning(start: nat)
    | Parked(start: nat)              // linked in the group's list
    | Taken(start: nat)               // taken off the list, not yet resumed
    | Finishing                       // final done(): state is 1, mutex not yet held
    | FinLocked
    | FinTook(batch: seq<Tid>)        // list taken, mutex released, zero not yet published
    | Waking(batch: seq<Tid>)         // zero published

  datatype State = State(group: Group, alive: bool, phases: map<Tid, Phase>, zeros: nat, fin: Tid, taker: map<Tid, Tid>)

  datatype Action =
    | Add(amount: nat)                // delta > 0
    | Done(t: Tid, amount: nat)       // delta < 0
    | Wait(t: Tid) | Check(t: Tid) | LockMutex(t: Tid) | LoadState(t: Tid) | Decide(t: Tid) | Spin(t: Tid)
    | TakeList(t: Tid) | PublishZero(t: Tid) | Wake(t: Tid)
    | Destroy                         // the owner frees the group at stable zero

  function At(m: map<Tid, Phase>, t: Tid): Phase {
    if t in m then m[t] else Out
  }

  function Count(g: Group): nat {
    if g.state > FINISHING then g.state - 1 else 0
  }

  ghost predicate Init(s: State) {
    s.group == Group(0, None, Listed([])) && s.alive && s.phases == map[] && s.zeros == 0 && s.taker == map[]
  }

  predicate Enabled(s: State, a: Action) {
    match a
    case Add(n) => s.alive && n > 0
    case Done(t, n) => s.alive && At(s.phases, t).Out? && 0 < n <= Count(s.group)
    case Wait(t) => s.alive && At(s.phases, t).Out?
    case Check(t) => At(s.phases, t).Checking?
    case LockMutex(t) => s.group.mutex.None? && (At(s.phases, t).Parking? || At(s.phases, t).Finishing?)
    case LoadState(t) => At(s.phases, t).Locked?
    case Decide(t) => At(s.phases, t).Saw?
    case Spin(t) => At(s.phases, t).Spinning?
    case TakeList(t) => At(s.phases, t).FinLocked?
    case PublishZero(t) => At(s.phases, t).FinTook?
    case Wake(t) => At(s.phases, t).Waking?
    // the owner knows of every waiter, but nothing of the done() that brought zero
    case Destroy => s.alive && s.group.state == 0 && forall t :: t in s.phases ==> !Waits(s.phases[t])
  }

  /** Inside wait() and still to look at the group. */
  predicate Waits(p: Phase) {
    p.Checking? || p.Parking? || p.Locked? || p.Saw? || p.Spinning?
  }

  function Goto(s: State, t: Tid, p: Phase): State {
    s.(phases := s.phases[t := p])
  }

  /** add_positive(): refused while a final transition is under way, or on overflow. */
  function AddStep(g: Group, n: nat): Group {
    if g.state == FINISHING || n > MAX_COUNT - Count(g) then g
    else g.(state := if g.state == 0 then n + 1 else g.state + n)
  }

  /** park_wait() once it holds the mutex and has loaded the state. */
  function DecideStep(s: State, t: Tid, start: nat, seen: nat): State {
    var g := s.group;
    if seen == 0 then Goto(s.(group := g.(mutex := None)), t, Out)
    else if seen == FINISHING && g.waiters.Drained? then Goto(s.(group := g.(mutex := None)), t, Spinning(start))
    else
      var nodes := if g.waiters.Drained? then [] else g.waiters.nodes;
      Goto(s.(group := g.(mutex := None, waiters := Listed([t] + nodes))), t, Parked(start))
  }

  function TakeAll(s: State, nodes: seq<Tid>, t: Tid): State {
    s.(phases := map u | u in s.phases ::
                   if u in nodes && s.phases[u].Parked? then Taken(s.phases[u].start) else s.phases[u],
       taker := map u | u in s.taker.Keys + Elements(nodes) :: if u in nodes then t else s.taker[u])
  }

  function Elements(ts: seq<Tid>): set<Tid> {
    set t | t in ts
  }

  function TakeListStep(s: State, t: Tid): State {
    var nodes := if s.group.waiters.Drained? then [] else s.group.waiters.nodes;
    Goto(TakeAll(s, nodes, t).(group := s.group.(waiters := Drained, mutex := None)), t, FinTook(nodes))
  }

  function WakeStep(s: State, t: Tid, batch: seq<Tid>): State {
    if batch == [] then Goto(s, t, Out) else Goto(Goto(s, batch[0], Out), t, Waking(batch[1..]))
  }

  function Apply(s: State, a: Action): State
    requires Enabled(s, a)
  {
    match a
    case Add(n) => s.(group := AddStep(s.group, n))
    case Done(t, n) =>
      var s' := s.(group := s.group.(state := s.group.state - n));
      if Count(s.group) > n then s' else Goto(s'.(fin := t), t, Finishing)
    case Wait(t) => Goto(s, t, Checking(s.zeros))
    case Check(t) => Goto(s, t, if s.group.state == 0 then Out else Parking(s.phases[t].start))
    case LockMutex(t) =>
      Goto(s.(group := s.group.(mutex := Some(t))), t,
           if s.phases[t].Finishing? then FinLocked else Locked(s.phases[t].start))
    case LoadState(t) => Goto(s, t, Saw(s.phases[t].start, s.group.state))
    case Decide(t) => DecideStep(s, t, s.phases[t].start, s.phases[t].state)
    case Spin(t) => if s.group.state == FINISHING then s else Goto(s, t, Out)
    case TakeList(t) => TakeListStep(s, t)
    case PublishZero(t) =>
      Goto(s.(group := s.group.(state := 0), zeros := s.zeros + 1), t, Waking(s.phases[t].batch))
    case Wake(t) => WakeStep(s, t, s.phases[t].batch)
    case Destroy => s.(alive := false)
  }

  ghost predicate Next(s: State, t: State) {
    exists a :: Enabled(s, a) && t == Apply(s, a)
  }

  // ------------------------------------------------------------ invariant

  predicate HoldsMutex(p: Phase) {
    p.Locked? || p.Saw? || p.FinLocked?
  }

  predicate IsFinal(p: Phase) {
    p.Finishing? || p.FinLocked? || p.FinTook?
  }

  predicate InList(g: Group, t: Tid) {
    g.waiters.Listed? && t in g.waiters.nodes
  }

  ghost predicate BatchOk(s: State, t: Tid, batch: seq<Tid>, published: bool) {
    && Distinct(batch)
    && forall u :: u in batch ==>
         && At(s.phases, u).Taken? && u in s.taker && s.taker[u] == t
         && (published ==> At(s.phases, u).start < s.zeros)
  }

  ghost predicate PhaseOk(s: State, t: Tid) {
    var g := s.group;
    var p := At(s.phases, t);
    && (g.mutex == Some(t) <==> HoldsMutex(p))
    && (InList(g, t) <==> p.Parked?)
    && (IsFinal(p) ==> t == s.fin && g.state == FINISHING)
    && match p
       case Checking(start) => start <= s.zeros
       case Parking(start) => start <= s.zeros
       case Locked(start) => start <= s.zeros
       case Saw(start, seen) =>
         && start <= s.zeros
         && (seen == FINISHING ==> g.state == FINISHING || s.zeros > start)
         && (seen > FINISHING || (seen == FINISHING && g.waiters.Listed?) ==>
               g.state > FINISHING || (g.state == FINISHING && At(s.phases, s.fin).Finishing?))
       case Spinning(start) => start <= s.zeros && (g.state != FINISHING ==> s.zeros > start)
       case Parked(start) => start <= s.zeros
       case Taken(start) =>
         && start <= s.zeros && t in s.taker
         && (var q := At(s.phases, s.taker[t]); (q.FinTook? || q.Waking?) && t in q.batch)
       case FinTook(batch) => g.waiters.Drained? && BatchOk(s, t, batch, false)
       case Waking(batch) => BatchOk(s, t, batch, true)
       case _ => true
  }

  ghost predicate Core(s: State) {
    && (forall t: Tid :: PhaseOk(s, t))
    && (s.group.waiters.Listed? ==> Distinct(s.group.waiters.nodes))
    && (s.group.state == FINISHING ==> IsFinal(At(s.phases, s.fin)))
    && (s.group.state == 0 ==> s.group.waiters == Drained || s.group.waiters == Listed([]))
  }

  /** A group destroyed at stable zero: nobody is inside it, or on the way into it. */
  ghost predicate FreedOk(s: State) {
    !s.alive ==> s.group.state == 0 && forall t: Tid :: !Waits(At(s.phases, t)) && !IsFinal(At(s.phases, t))
  }

  ghost predicate Inv(s: State) {
    Core(s) && FreedOk(s)
  }

  lemma CountStepKeeps(s: State, a: Action)
    requires Core(s) && Enabled(s, a) && (a.Add? || a.Done?)
    ensures Core(Apply(s, a))
  {
    var s' := Apply(s, a);
    forall t: Tid ensures PhaseOk(s', t) {
      assert PhaseOk(s, t);
    }
  }

  lemma LoadKeepsOne(s: State, t: Tid, u: Tid)
    requires Enabled(s, LoadState(t)) && PhaseOk(s, t) && PhaseOk(s, s.fin) && PhaseOk(s, u)
    requires s.group.state == FINISHING ==> IsFinal(At(s.phases, s.fin))
    ensures PhaseOk(Apply(s, LoadState(t)), u)
  {
  }

  lemma LookKeepsOne(s: State, a: Action, u: Tid)
    requires Enabled(s, a) && (a.Wait? || a.Check? || a.LoadState?)
    requires PhaseOk(s, a.t) && PhaseOk(s, s.fin) && PhaseOk(s, u)
    requires s.group.state == FINISHING ==> IsFinal(At(s.phases, s.fin))
    ensures PhaseOk(Apply(s, a), u)
  {
    if a.LoadState? { LoadKeepsOne(s, a.t, u); }
  }

  lemma LockKeepsOne(s: State, t: Tid, u: Tid)
    requires Enabled(s, LockMutex(t)) && PhaseOk(s, t) && PhaseOk(s, s.fin) && PhaseOk(s, u)
    ensures PhaseOk(Apply(s, LockMutex(t)), u)
  {
    if u != t { assert At(Apply(s, LockMutex(t)).phases, u) == At(s.phases, u); }
  }

  lemma SpinKeepsOne(s: State, t: Tid, u: Tid)
    requires Enabled(s, Spin(t)) && PhaseOk(s, t) && PhaseOk(s, u)
    ensures PhaseOk(Apply(s, Spin(t)), u)
  {
  }

  lemma WaiterStepKeeps(s: State, a: Action)
    requires Core(s) && Enabled(s, a) && (a.Wait? || a.Check? || a.LockMutex? || a.LoadState? || a.Spin?)
    ensures Core(Apply(s, a))
  {
    var s' := Apply(s, a);
    assert PhaseOk(s, a.t) && PhaseOk(s, s.fin);
    forall u: Tid ensures PhaseOk(s', u) {
      assert PhaseOk(s, u);
      if a.LockMutex? { LockKeepsOne(s, a.t, u); }
      else if a.Spin? { SpinKeepsOne(s, a.t, u); }
      else { LookKeepsOne(s, a, u); }
    }
  }

  lemma DecideKeepsOne(s: State, t: Tid, u: Tid)
    requires Enabled(s, Decide(t)) && PhaseOk(s, t) && PhaseOk(s, s.fin) && PhaseOk(s, u)
    ensures PhaseOk(Apply(s, Decide(t)), u)
  {
    if u == t { DecideKeepsSelf(s, t); } else { DecideKeepsOther(s, t, u); }
  }

  lemma DecideKeepsSelf(s: State, t: Tid)
    requires Enabled(s, Decide(t)) && PhaseOk(s, t) && PhaseOk(s, s.fin)
    ensures PhaseOk(Apply(s, Decide(t)), t)
  {
  }

  lemma DecideKeepsOther(s: State, t: Tid, u: Tid)
    requires Enabled(s, Decide(t)) && PhaseOk(s, t) && PhaseOk(s, u) && u != t
    ensures PhaseOk(Apply(s, Decide(t)), u)
  {
    assert At(Apply(s, Decide(t)).phases, u) == At(s.phases, u);
  }

  lemma DecideKeeps(s: State, t: Tid)
    requires Core(s) && Enabled(s, Decide(t))
    ensures Core(Apply(s, Decide(t)))
  {
    var s' := Apply(s, Decide(t));
    assert PhaseOk(s, t) && PhaseOk(s, s.fin);
    forall u: Tid ensures PhaseOk(s', u) {
      assert PhaseOk(s, u);
      DecideKeepsOne(s, t, u);
    }
  }

  /** What every task in the list or in a batch looks like. */
  lemma Linked(s: State)
    requires Core(s)
    ensures forall u: Tid :: InList(s.group, u) ==> At(s.phases, u).Parked?
    ensures forall u: Tid :: At(s.phases, u).Taken? ==> At(s.phases, u).start <= s.zeros
  {
    forall u: Tid ensures InList(s.group, u) ==> At(s.phases, u).Parked?
                  ensures At(s.phases, u).Taken? ==> At(s.phases, u).start <= s.zeros {
      assert PhaseOk(s, u);
    }
  }

  lemma TakeListKeeps(s: State, t: Tid)
    requires Core(s) && Enabled(s, TakeList(t))
    ensures Core(Apply(s, TakeList(t)))
  {
    var s' := Apply(s, TakeList(t));
    assert PhaseOk(s, t);
    Linked(s);
    forall u: Tid ensures PhaseOk(s', u) {
      assert PhaseOk(s, u);
      if u == t { TakeListKeepsSelf(s, t); } else { TakeListKeepsOther(s, t, u); }
    }
  }

  lemma TakeListKeepsSelf(s: State, t: Tid)
    requires Core(s) && Enabled(s, TakeList(t))
    ensures PhaseOk(Apply(s, TakeList(t)), t)
  {
    var s' := Apply(s, TakeList(t));
    assert PhaseOk(s, t);
    Linked(s);
    forall v | InList(s.group, v) ensures At(s'.phases, v).Taken? && v in s'.taker && s'.taker[v] == t {
      assert At(s.phases, v).Parked?;
    }
  }

  lemma TakeListKeepsOther(s: State, t: Tid, u: Tid)
    requires Core(s) && Enabled(s, TakeList(t)) && u != t
    ensures PhaseOk(Apply(s, TakeList(t)), u)
  {
    var s' := Apply(s, TakeList(t));
    assert PhaseOk(s, t) && PhaseOk(s, u);
    Linked(s);
    match At(s.phases, u)
    case Waking(batch) =>
      forall v | v in batch
        ensures At(s'.phases, v) == At(s.phases, v) && v in s'.taker && s'.taker[v] == s.taker[v]
      {
        assert !InList(s.group, v);
      }
    case _ =>
  }

  lemma PublishKeeps(s: State, t: Tid)
    requires Core(s) && Enabled(s, PublishZero(t))
    ensures Core(Apply(s, PublishZero(t)))
  {
    var s' := Apply(s, PublishZero(t));
    assert PhaseOk(s, t);
    Linked(s);
    assert forall v: Tid :: At(s.phases, v).Taken? ==> At(s'.phases, v) == At(s.phases, v);
    forall u: Tid ensures PhaseOk(s', u) {
      assert PhaseOk(s, u);
    }
  }

  lemma LastWakeKeepsOne(s: State, t: Tid, u: Tid)
    requires Enabled(s, Wake(t)) && s.phases[t].batch == [] && PhaseOk(s, t) && PhaseOk(s, u)
    ensures PhaseOk(Apply(s, Wake(t)), u)
  {
    assert forall v: Tid :: v != t ==> At(Apply(s, Wake(t)).phases, v) == At(s.phases, v);
  }

  lemma WakeKeeps(s: State, t: Tid)
    requires Core(s) && Enabled(s, Wake(t))
    ensures Core(Apply(s, Wake(t)))
  {
    var s' := Apply(s, Wake(t));
    var batch := s.phases[t].batch;
    assert PhaseOk(s, t);
    if batch == [] {
      forall u: Tid ensures PhaseOk(s', u) {
        assert PhaseOk(s, u);
        LastWakeKeepsOne(s, t, u);
      }
    } else {
      var n := batch[0];
      assert n in batch && n !in batch[1..] && batch == [n] + batch[1..];
      assert PhaseOk(s, n);
      assert forall v: Tid :: v != t && v != n ==> At(s'.phases, v) == At(s.phases, v);
      forall u: Tid ensures PhaseOk(s', u) {
        assert PhaseOk(s, u);
        WakeKeepsOne(s, t, u);
      }
    }
  }

  /** Nobody but t has t's first node in its batch. */
  lemma WakeKeepsOne(s: State, t: Tid, u: Tid)
    requires Enabled(s, Wake(t)) && s.phases[t].batch != []
    requires PhaseOk(s, t) && PhaseOk(s, u) && PhaseOk(s, s.phases[t].batch[0])
    ensures PhaseOk(Apply(s, Wake(t)), u)
  {
    var batch := s.phases[t].batch;
    assert batch[0] in batch && batch[0] !in batch[1..] && batch == [batch[0]] + batch[1..];
    if u == t { WakeKeepsWaker(s, t); } else if u != batch[0] { WakeKeepsOther(s, t, u); }
  }

  lemma WakeKeepsWaker(s: State, t: Tid)
    requires Enabled(s, Wake(t)) && s.phases[t].batch != []
    requires PhaseOk(s, t) && PhaseOk(s, s.phases[t].batch[0])
    ensures PhaseOk(Apply(s, Wake(t)), t)
  {
    var s', batch := Apply(s, Wake(t)), s.phases[t].batch;
    assert batch[0] in batch && batch[0] !in batch[1..] && batch == [batch[0]] + batch[1..];
    forall v | v in batch[1..] ensures v != t && At(s'.phases, v) == At(s.phases, v) {
      assert At(s.phases, v).Taken?;
    }
  }

  lemma WakeKeepsOther(s: State, t: Tid, u: Tid)
    requires Enabled(s, Wake(t)) && s.phases[t].batch != []
    requires PhaseOk(s, t) && PhaseOk(s, u) && u != t && u != s.phases[t].batch[0]
    ensures PhaseOk(Apply(s, Wake(t)), u)
  {
    var s', p, n := Apply(s, Wake(t)), At(s.phases, u), s.phases[t].batch[0];
    assert n in s.phases[t].batch && s.phases[t].batch == [n] + s.phases[t].batch[1..];
    if p.Waking? || p.FinTook? {
      forall v | v in p.batch ensures v != n && v != t && At(s'.phases, v) == At(s.phases, v) {
        assert At(s.phases, v).Taken? && s.taker[v] == u;
      }
    }
  }

  lemma DestroyKeeps(s: State)
    requires Core(s) && Enabled(s, Destroy)
    ensures Core(Apply(s, Destroy))
  {
    forall t: Tid ensures PhaseOk(Apply(s, Destroy), t) { assert PhaseOk(s, t); }
  }

  lemma CoreStepKeeps(s: State, a: Action)
    requires Core(s) && Enabled(s, a)
    ensures Core(Apply(s, a))
  {
    if a.Add? || a.Done? { CountStepKeeps(s, a); }
    else if a.Decide? { DecideKeeps(s, a.t); }
    else if a.TakeList? { TakeListKeeps(s, a.t); }
    else if a.PublishZero? { PublishKeeps(s, a.t); }
    else if a.Wake? { WakeKeeps(s, a.t); }
    else if a.Destroy? { DestroyKeeps(s); }
    else { WaiterStepKeeps(s, a); }
  }

  /** Stable zero means that no done() is between its decrement and its store of zero. */
  lemma ZeroMeansFinished(s: State, t: Tid)
    requires Core(s) && s.group.state == 0
    ensures !IsFinal(At(s.phases, t))
  {
    assert PhaseOk(s, t);
  }

  lemma FreedStepKeeps(s: State, a: Action)
    requires Inv(s) && Enabled(s, a)
    ensures FreedOk(Apply(s, a))
  {
    var s' := Apply(s, a);
    if a.Destroy? {
      forall t: Tid ensures !Waits(At(s'.phases, t)) && !IsFinal(At(s'.phases, t)) { ZeroMeansFinished(s, t); }
    } else if !s.alive {
      OnlyWakesAreLeft(s, a);
      forall t: Tid ensures !Waits(At(s'.phases, t)) && !IsFinal(At(s'.phases, t)) {
        assert !Waits(At(s.phases, t)) && !IsFinal(At(s.phases, t));
      }
    }
  }

  /** The only steps a destroyed group leaves anybody are those of a done() waking its batch. */
  lemma OnlyWakesAreLeft(s: State, a: Action)
    requires FreedOk(s) && !s.alive && Enabled(s, a)
    ensures a.Wake?
  {
    if !a.Add? && !a.Destroy? { assert !Waits(At(s.phases, a.t)) && !IsFinal(At(s.phases, a.t)); }
  }

  lemma StepKeeps(s: State, a: Action)
    requires Inv(s) && Enabled(s, a)
    ensures Inv(Apply(s, a))
  {
    CoreStepKeeps(s, a);
    FreedStepKeeps(s, a);
  }

  lemma RunKeeps(run: seq<State>, k: nat)
    requires Traces.IsRun(Init, Next, run) && k < |run|
    ensures Inv(run[k])
  {
    forall s, t | Inv(s) && Next(s, t) ensures Inv(t) {
      var a :| Enabled(s, a) && t == Apply(s, a);
      StepKeeps(s, a);
    }
    Traces.InductiveHolds(Init, Next, Inv, run, k);
  }

  // -------------------------------------------------------------- results

  predicate InWait(p: Phase) {
    p.Checking? || p.Parking? || p.Locked? || p.Saw? || p.Spinning? || p.Parked? || p.Taken?
  }

  /**
   wait() returns only after zero was reached during the wait: when a step takes a
   task out of wait(), stable zero was published since the wait began, or the
   state the waiter acted on was stable zero.
   */
  lemma WaitSeesZero(run: seq<State>, k: nat, a: Action, t: Tid)
    requires Traces.IsRun(Init, Next, run) && k < |run| && Enabled(run[k], a)
    requires InWait(At(run[k].phases, t)) && !InWait(At(Apply(run[k], a).phases, t))
    ensures || At(run[k].phases, t).start < run[k].zeros
            || (a == Check(t) && run[k].group.state == 0)
            || (a == Decide(t) && At(run[k].phases, t).state == 0)
  {
    RunKeeps(run, k);
    assert PhaseOk(run[k], t);
    if a.Wake? { assert PhaseOk(run[k], a.t); }
  }

  /** Stable zero leaves nobody parked in the group, in any generation. */
  lemma StableZeroHasNoWaiter(run: seq<State>, k: nat, t: Tid)
    requires Traces.IsRun(Init, Next, run) && k < |run| && run[k].group.state == 0
    ensures !At(run[k].phases, t).Parked?
  {
    RunKeeps(run, k);
    assert PhaseOk(run[k], t);
  }

  /** A task taken off the list is on the batch of exactly one final done(), which has yet to wake it. */
  lemma TakenIsWokenOnce(run: seq<State>, k: nat, u: Tid, t: Tid)
    requires Traces.IsRun(Init, Next, run) && k < |run| && At(run[k].phases, u).Taken?
    ensures (var q := At(run[k].phases, t); (q.FinTook? || q.Waking?) && u in q.batch)
            <==> u in run[k].taker && run[k].taker[u] == t
  {
    RunKeeps(run, k);
    assert PhaseOk(run[k], t) && PhaseOk(run[k], u);
  }

  /**
   A waiter is never lost: while the last done() is under way, every parked task is still in the list
   it will take.
   */
  lemma ParkedWaitsForFinal(run: seq<State>, k: nat, t: Tid)
    requires Traces.IsRun(Init, Next, run) && k < |run| && At(run[k].phases, t).Parked?
    ensures var s := run[k];
            && InList(s.group, t)
            && (Count(s.group) > 0 || At(s.phases, s.fin).Finishing? || At(s.phases, s.fin).FinLocked?)
  {
    RunKeeps(run, k);
    assert PhaseOk(run[k], t) && PhaseOk(run[k], run[k].fin);
  }

  /** In every run, at stable zero no done() is between its last decrement and its store of zero. */
  lemma ZeroIsPublishedLast(run: seq<State>, k: nat, t: Tid)
    requires Traces.IsRun(Init, Next, run) && k < |run| && run[k].group.state == 0
    ensures !IsFinal(At(run[k].phases, t))
  {
    RunKeeps(run, k);
    ZeroMeansFinished(run[k], t);
  }

  /** The step reads and writes nothing of the group: with other fields it does the same and leaves them alone. */
  ghost predicate Ignores(s: State, a: Action)
    requires Enabled(s, a)
  {
    forall other: Group ::
      Enabled(s.(group := other), a) && Apply(s.(group := other), a) == Apply(s, a).(group := other)
  }

  /**
   A waiter that sees zero may free the group at once. In every run, once the
   group was destroyed at stable zero, with no other waiter inside and whatever the
   last done() was doing, every step still possible ignores the group.
   */
  lemma DestroyedIsUntouched(run: seq<State>, k: nat, a: Action)
    requires Traces.IsRun(Init, Next, run) && k < |run| && !run[k].alive && Enabled(run[k], a)
    ensures Ignores(run[k], a) && a.Wake?
  {
    RunKeeps(run, k);
    OnlyWakesAreLeft(run[k], a);
  }
}
