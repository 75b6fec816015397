/**
 One timer node raced by arm(), any number of disarm() calls and the expiry
 service. `state` is read and written outside the shard lock; `linked` stands
 for heap_index != kNotInHeap and is touched only under it. Whether the deadline
 has passed, whether the heap can grow and whether the node carries a callback
 are free choices of the steps.

 History: `armings`, `removed`, `fired` and `failed` count arm() calls and the
 three ways an arming is decided; `trues` and `fires` count disarm() calls that
 returned true and firings that completed. `outcome` is how the latest arming was
 decided. `armer`, `remover` and `firer` name the thread inside arm(), the disarm()
 that unlinked the node and the service thread that popped it.
 */
module TimerRace {
  import opened Prelude
  import Traces

  type Tid = nat
  datatype NodeState = Idle | Armed | Firing | Fired | Cancelled
  datatype Outcome = Never | Open | NoMemory | Popped | Removed   // Never: not armed yet

  datatype Phase =
    | Out
    | ALocking                       // kArmed stored, shard lock not yet taken
    | ALocked | ALeaving             // before and after linking, lock held
    | DLoop(seen: NodeState)         // disarm_slow() with the state it last read
    | DLocked                        // lock held, heap_index not yet examined
    | DRemoved                       // node unlinked, kCancelled not yet stored
    | DWon                           // kCancelled stored, lock still held
    | DTrue | DFalse                 // returned
    | ELocked(callback: bool)        // service batch; callback: this node's on_fire is owed
    | EPopped                        // node popped, its state not yet stored
    | EFiring                        // on_fire running outside the lock

  datatype State = State(node: NodeState, linked: bool, lock: Option<Tid>, threads: map<Tid, Phase>,
                         inside: set<Tid>, armer: Option<Tid>, remover: Option<Tid>, firer: Option<Tid>,
                         outcome: Outcome, armings: nat, removed: nat, fired: nat, failed: nat, trues: nat, fires: nat)

  datatype Action =
    | ArmBegin(t: Tid) | ArmLock(t: Tid) | ArmLink(t: Tid, noMemory: bool) | ArmEnd(t: Tid)
    | DisarmBegin(t: Tid) | Reload(t: Tid) | DisarmLock(t: Tid) | Examine(t: Tid)
    | StoreCancelled(t: Tid) | DisarmEnd(t: Tid) | Leave(t: Tid)
    | ExpireLock(t: Tid) | Pop(t: Tid) | StoreFired(t: Tid, callback: bool) | ExpireUnlock(t: Tid) | FireEnd(t: Tid)

  function At(m: map<Tid, Phase>, t: Tid): Phase {
    if t in m then m[t] else Out
  }

  predicate Terminal(n: NodeState) {
    n.Idle? || n.Cancelled? || n.Fired?
  }

  ghost predicate Init(s: State) {
    && s.node == Idle && !s.linked && s.lock == None && s.threads == map[] && s.inside == {}
    && s.armer == None && s.remover == None && s.firer == None && s.outcome == Never
    && s.armings == 0 && s.removed == 0 && s.fired == 0 && s.failed == 0 && s.trues == 0 && s.fires == 0
  }

  predicate Enabled(s: State, a: Action) {
    match a
    // the owner re-arms only a node at rest that no other call is using
    case ArmBegin(t) => At(s.threads, t).Out? && Terminal(s.node) && s.armer.None? && s.inside == {}
    case ArmLock(t) => At(s.threads, t).ALocking? && s.lock.None?
    case ArmLink(t, _) => At(s.threads, t).ALocked?
    case ArmEnd(t) => At(s.threads, t).ALeaving?
    case DisarmBegin(t) => At(s.threads, t).Out?
    case Reload(t) => At(s.threads, t) == DLoop(Firing)
    case DisarmLock(t) => At(s.threads, t) == DLoop(Armed) && s.lock.None?
    case Examine(t) => At(s.threads, t).DLocked?
    case StoreCancelled(t) => At(s.threads, t).DRemoved?
    case DisarmEnd(t) => At(s.threads, t).DWon?
    case Leave(t) => At(s.threads, t).DTrue? || At(s.threads, t).DFalse?
    case ExpireLock(t) => At(s.threads, t).Out? && s.lock.None?
    case Pop(t) => At(s.threads, t).ELocked? && s.linked
    case StoreFired(t, _) => At(s.threads, t).EPopped?
    case ExpireUnlock(t) => At(s.threads, t).ELocked?
    case FireEnd(t) => At(s.threads, t).EFiring?
  }

  function Goto(s: State, t: Tid, p: Phase): State {
    s.(threads := s.threads[t := p])
  }

  /** disarm() has just read the node's state: a terminal one ends the call. */
  function AfterLoad(s: State, t: Tid): State {
    if Terminal(s.node) then Goto(s.(inside := s.inside - {t}), t, DFalse)
    else Goto(s.(inside := s.inside + {t}), t, DLoop(s.node))
  }

  function Apply(s: State, a: Action): State
    requires Enabled(s, a)
  {
    match a
    case ArmBegin(t) =>
      Goto(s.(node := Armed, outcome := Open, armings := s.armings + 1, armer := Some(t)), t, ALocking)
    case ArmLock(t) => Goto(s.(lock := Some(t)), t, ALocked)
    case ArmLink(t, noMemory) =>
      if noMemory then Goto(s.(node := Idle, outcome := NoMemory, failed := s.failed + 1), t, ALeaving)
      else Goto(s.(linked := true), t, ALeaving)
    case ArmEnd(t) => Goto(s.(lock := None, armer := None), t, Out)
    case DisarmBegin(t) => AfterLoad(s, t)
    case Reload(t) => AfterLoad(s, t)
    case DisarmLock(t) => Goto(s.(lock := Some(t)), t, DLocked)
    case Examine(t) =>
      if s.linked then
        Goto(s.(linked := false, outcome := Removed, removed := s.removed + 1, remover := Some(t)), t, DRemoved)
      else AfterLoad(s.(lock := None), t)
    case StoreCancelled(t) => Goto(s.(node := Cancelled), t, DWon)
    case DisarmEnd(t) =>
      Goto(s.(lock := None, remover := None, trues := s.trues + 1, inside := s.inside - {t}), t, DTrue)
    case Leave(t) => Goto(s, t, Out)
    case ExpireLock(t) => Goto(s.(lock := Some(t)), t, ELocked(false))
    case Pop(t) => Goto(s.(linked := false, outcome := Popped, fired := s.fired + 1, firer := Some(t)), t, EPopped)
    case StoreFired(t, callback) =>
      if callback then Goto(s.(node := Firing), t, ELocked(true))
      else Goto(s.(node := Fired, firer := None, fires := s.fires + 1), t, ELocked(false))
    case ExpireUnlock(t) =>
      Goto(s.(lock := None), t, if At(s.threads, t).callback then EFiring else Out)
    case FireEnd(t) => Goto(s.(node := Fired, firer := None, fires := s.fires + 1), t, Out)
  }

  ghost predicate Next(s: State, t: State) {
    exists a :: Enabled(s, a) && t == Apply(s, a)
  }

  // ------------------------------------------------------------ invariant

  predicate HoldsLock(p: Phase) {
    p.ALocked? || p.ALeaving? || p.DLocked? || p.DRemoved? || p.DWon? || p.ELocked? || p.EPopped?
  }

  predicate Arming(p: Phase) { p.ALocking? || p.ALocked? || p.ALeaving? }
  predicate Removing(p: Phase) { p.DRemoved? || p.DWon? }
  predicate FireOwner(p: Phase) { p.EPopped? || p == ELocked(true) || p.EFiring? }
  predicate Looping(p: Phase) { p.DLoop? || p.DLocked? || p.DRemoved? || p.DWon? }

  /** An arming whose outcome is still open. */
  predicate Pending(s: State) {
    s.linked || (s.armer.Some? && (At(s.threads, s.armer.value).ALocking? || At(s.threads, s.armer.value).ALocked?))
  }

  function One(b: bool): nat { if b then 1 else 0 }

  ghost predicate NodeOk(s: State) {
    && (s.linked ==> s.node == Armed)
    && (s.node == Armed ==>
          || Pending(s)
          || (s.remover.Some? && At(s.threads, s.remover.value).DRemoved?)
          || (s.firer.Some? && At(s.threads, s.firer.value).EPopped?))
    && (s.node == Firing ==> s.firer.Some? && !At(s.threads, s.firer.value).EPopped?)
    && s.armings == s.removed + s.fired + s.failed + One(Pending(s))
    && s.removed == s.trues + One(s.remover.Some?)
    && s.fired == s.fires + One(s.firer.Some?)
  }

  /** The state the decision of the latest arming leaves, or still has to leave, in the node. */
  ghost predicate OutcomeOk(s: State) {
    && (s.outcome.Never? <==> s.armings == 0)
    && (s.outcome.Open? <==> Pending(s))
    && match s.outcome
       case Never => s.node == Idle
       case Open => s.node == Armed
       case NoMemory => s.node == Idle
       case Popped =>
         s.node == Firing || s.node == Fired
         || (s.node == Armed && s.firer.Some? && At(s.threads, s.firer.value).EPopped?)
       case Removed =>
         s.node == Cancelled || (s.node == Armed && s.remover.Some? && At(s.threads, s.remover.value).DRemoved?)
  }

  ghost predicate ThreadOk(s: State, t: Tid) {
    var p := At(s.threads, t);
    && (s.lock == Some(t) <==> HoldsLock(p))
    && (s.armer == Some(t) <==> Arming(p))
    && (s.remover == Some(t) <==> Removing(p))
    && (s.firer == Some(t) <==> FireOwner(p))
    && (t in s.inside <==> Looping(p))
    && (p.ALocking? || p.ALocked? ==> s.node == Armed && !s.linked && s.remover.None? && s.firer.None?)
    && (p.DRemoved? || p.EPopped? ==> s.node == Armed && !s.linked)
    && (p.DLoop? ==> !Terminal(p.seen))
    && (Looping(p) ==> s.armings > 0)
    && (p.DRemoved? ==> s.firer.None?)
    && (p.DWon? ==> s.node == Cancelled)
    && (p.EPopped? ==> s.remover.None?)
    && (p == ELocked(true) || p.EFiring? ==> s.node == Firing)
  }

  ghost predicate Inv(s: State) {
    && NodeOk(s) && OutcomeOk(s)
    && (forall t: Tid :: ThreadOk(s, t))
  }

  // ---------------------------------------------------------------- proof

  /** The facts a step of thread t uses. */
  ghost predicate Around(s: State, t: Tid) {
    && NodeOk(s) && OutcomeOk(s) && ThreadOk(s, t)
    && (s.armer.Some? ==> ThreadOk(s, s.armer.value))
    && (s.remover.Some? ==> ThreadOk(s, s.remover.value))
    && (s.firer.Some? ==> ThreadOk(s, s.firer.value))
  }

  lemma ArmKeepsNode(s: State, a: Action)
    requires Enabled(s, a) && (a.ArmBegin? || a.ArmLock? || a.ArmLink? || a.ArmEnd?) && Around(s, a.t)
    ensures NodeOk(Apply(s, a)) && OutcomeOk(Apply(s, a))
  {
  }

  lemma ArmKeepsThread(s: State, a: Action, u: Tid)
    requires Enabled(s, a) && (a.ArmBegin? || a.ArmLock? || a.ArmLink? || a.ArmEnd?) && Around(s, a.t) && ThreadOk(s, u)
    ensures ThreadOk(Apply(s, a), u)
  {
  }

  /** disarm() reads the state, at its start or after waiting for a callback. */
  lemma LoadKeepsNode(s: State, a: Action)
    requires Enabled(s, a) && (a.DisarmBegin? || a.Reload?) && Around(s, a.t)
    ensures NodeOk(Apply(s, a)) && OutcomeOk(Apply(s, a))
  {
  }

  lemma LoadKeepsSelf(s: State, a: Action)
    requires Enabled(s, a) && (a.DisarmBegin? || a.Reload?) && Around(s, a.t)
    ensures ThreadOk(Apply(s, a), a.t)
  {
  }

  lemma LoadKeepsThread(s: State, a: Action, u: Tid)
    requires Enabled(s, a) && (a.DisarmBegin? || a.Reload?) && Around(s, a.t) && ThreadOk(s, u)
    ensures ThreadOk(Apply(s, a), u)
  {
    if u == a.t {
      LoadKeepsSelf(s, a);
    } else {
      assert At(Apply(s, a).threads, u) == At(s.threads, u);
    }
  }

  lemma DisarmKeepsNode(s: State, a: Action)
    requires Enabled(s, a) && (a.DisarmLock? || a.Leave?) && Around(s, a.t)
    ensures NodeOk(Apply(s, a)) && OutcomeOk(Apply(s, a))
  {
  }

  lemma DisarmKeepsThread(s: State, a: Action, u: Tid)
    requires Enabled(s, a) && (a.DisarmLock? || a.Leave?) && Around(s, a.t) && ThreadOk(s, u)
    ensures ThreadOk(Apply(s, a), u)
  {
  }

  lemma ExamineKeepsNode(s: State, a: Action)
    requires Enabled(s, a) && a.Examine? && Around(s, a.t)
    ensures NodeOk(Apply(s, a)) && OutcomeOk(Apply(s, a))
  {
  }

  lemma ExamineKeepsThread(s: State, a: Action, u: Tid)
    requires Enabled(s, a) && a.Examine? && Around(s, a.t) && ThreadOk(s, u)
    ensures ThreadOk(Apply(s, a), u)
  {
  }

  lemma CancelKeepsNode(s: State, a: Action)
    requires Enabled(s, a) && (a.StoreCancelled? || a.DisarmEnd?) && Around(s, a.t)
    ensures NodeOk(Apply(s, a)) && OutcomeOk(Apply(s, a))
  {
  }

  lemma CancelKeepsThread(s: State, a: Action, u: Tid)
    requires Enabled(s, a) && (a.StoreCancelled? || a.DisarmEnd?) && Around(s, a.t) && ThreadOk(s, u)
    ensures ThreadOk(Apply(s, a), u)
  {
  }

  lemma PopKeepsNode(s: State, a: Action)
    requires Enabled(s, a) && (a.ExpireLock? || a.Pop?) && Around(s, a.t)
    ensures NodeOk(Apply(s, a)) && OutcomeOk(Apply(s, a))
  {
  }

  lemma PopKeepsThread(s: State, a: Action, u: Tid)
    requires Enabled(s, a) && (a.ExpireLock? || a.Pop?) && Around(s, a.t) && ThreadOk(s, u)
    ensures ThreadOk(Apply(s, a), u)
  {
  }

  lemma FireKeepsNode(s: State, a: Action)
    requires Enabled(s, a) && (a.StoreFired? || a.ExpireUnlock? || a.FireEnd?) && Around(s, a.t)
    ensures NodeOk(Apply(s, a)) && OutcomeOk(Apply(s, a))
  {
  }

  lemma FireKeepsThread(s: State, a: Action, u: Tid)
    requires Enabled(s, a) && (a.StoreFired? || a.ExpireUnlock? || a.FireEnd?) && Around(s, a.t) && ThreadOk(s, u)
    ensures ThreadOk(Apply(s, a), u)
  {
  }

  lemma StepKeepsNode(s: State, a: Action)
    requires Enabled(s, a) && Around(s, a.t)
    ensures NodeOk(Apply(s, a)) && OutcomeOk(Apply(s, a))
  {
    if a.ArmBegin? || a.ArmLock? || a.ArmLink? || a.ArmEnd? { ArmKeepsNode(s, a); }
    else if a.DisarmBegin? || a.Reload? { LoadKeepsNode(s, a); }
    else if a.DisarmLock? || a.Leave? { DisarmKeepsNode(s, a); }
    else if a.Examine? { ExamineKeepsNode(s, a); }
    else if a.StoreCancelled? || a.DisarmEnd? { CancelKeepsNode(s, a); }
    else if a.ExpireLock? || a.Pop? { PopKeepsNode(s, a); }
    else { FireKeepsNode(s, a); }
  }

  lemma StepKeepsThread(s: State, a: Action, u: Tid)
    requires Enabled(s, a) && Around(s, a.t) && ThreadOk(s, u)
    ensures ThreadOk(Apply(s, a), u)
  {
    if a.ArmBegin? || a.ArmLock? || a.ArmLink? || a.ArmEnd? { ArmKeepsThread(s, a, u); }
    else if a.DisarmBegin? || a.Reload? { LoadKeepsThread(s, a, u); }
    else if a.DisarmLock? || a.Leave? { DisarmKeepsThread(s, a, u); }
    else if a.Examine? { ExamineKeepsThread(s, a, u); }
    else if a.StoreCancelled? || a.DisarmEnd? { CancelKeepsThread(s, a, u); }
    else if a.ExpireLock? || a.Pop? { PopKeepsThread(s, a, u); }
    else { FireKeepsThread(s, a, u); }
  }

  lemma StepKeeps(s: State, a: Action)
    requires Inv(s) && Enabled(s, a)
    ensures Inv(Apply(s, a))
  {
    assert Around(s, a.t);
    StepKeepsNode(s, a);
    forall u: Tid ensures ThreadOk(Apply(s, a), u) {
      StepKeepsThread(s, a, u);
    }
  }

  lemma RunKeeps(run: seq<State>, k: nat)
    requires Traces.IsRun(Init, Next, run) && k < |run|
    ensures Inv(run[k])
  {
    forall s, t | Inv(s) && Next(s, t) ensures Inv(t) {
      var a :| Enabled(s, a) && t == Apply(s, a);
      StepKeeps(s, a);
    }
    Traces.InductiveHolds(Init, Next, Inv, run, k);
  }

  // -------------------------------------------------------------- results

  /**
   Every arming but the one still open has exactly one outcome; every removal
   is one disarm() that returned true or is about to, every pop one firing that
   completed or is under way, and never both at once.
   */
  lemma EachArmingEndsOnce(run: seq<State>, k: nat)
    requires Traces.IsRun(Init, Next, run) && k < |run|
    ensures var s := run[k];
            && s.armings == s.removed + s.fired + s.failed + One(Pending(s))
            && s.removed == s.trues + One(s.remover.Some?)
            && s.fired == s.fires + One(s.firer.Some?)
            && !(Pending(s) && s.firer.Some?)
            && !(s.remover.Some? && s.firer.Some?)
            && (Terminal(s.node) && s.inside == {} ==> s.armings == s.trues + s.fires + s.failed)
  {
    RunKeeps(run, k);
    var s := run[k];
    assert s.armer.Some? ==> ThreadOk(s, s.armer.value);
    assert s.remover.Some? ==> ThreadOk(s, s.remover.value);
    assert s.firer.Some? ==> ThreadOk(s, s.firer.value);
  }

  /** Only one thread decides an arming, and no second thread shares the role. */
  lemma DecisionIsExclusive(run: seq<State>, k: nat, t: Tid, u: Tid)
    requires Traces.IsRun(Init, Next, run) && k < |run| && t != u
    ensures var p, q := At(run[k].threads, t), At(run[k].threads, u);
            && !(Removing(p) && Removing(q))
            && !(FireOwner(p) && FireOwner(q))
            && !(Removing(p) && FireOwner(q))
            && !(Arming(p) && Arming(q))
  {
    RunKeeps(run, k);
    assert ThreadOk(run[k], t) && ThreadOk(run[k], u);
  }

  /** The service pops only a node in state kArmed, as its assertion demands, and so does a removal. */
  lemma UnlinkFindsArmed(run: seq<State>, k: nat, t: Tid)
    requires Traces.IsRun(Init, Next, run) && k < |run|
    requires At(run[k].threads, t).EPopped? || At(run[k].threads, t).DRemoved? || run[k].linked
    ensures run[k].node == Armed
  {
    RunKeeps(run, k);
    assert ThreadOk(run[k], t);
  }

  /** A step of arm(), of a winning disarm() or of the service that still reads or writes the node. */
  predicate Touches(p: Phase) {
    p.ALocking? || p.ALocked? || p.DRemoved? || FireOwner(p)
  }

  /** The node is at rest: unlinked, in a terminal state, and nobody will write to it. */
  ghost predicate Quiet(s: State) {
    Terminal(s.node) && !s.linked && forall t: Tid :: !Touches(At(s.threads, t))
  }

  ghost predicate Rearms(s: State, t: State) {
    t.armings == s.armings + 1
  }

  lemma TerminalIsQuiet(s: State)
    requires Inv(s) && Terminal(s.node)
    ensures Quiet(s)
  {
    forall t: Tid ensures !Touches(At(s.threads, t)) { assert ThreadOk(s, t); }
  }

  lemma QuietStep(s: State, t: State)
    requires Inv(s) && Next(s, t)
    ensures Inv(t) && (Quiet(s) ==> Quiet(t) || Rearms(s, t))
  {
    var a :| Enabled(s, a) && t == Apply(s, a);
    StepKeeps(s, a);
    if Quiet(s) {
      assert !Touches(At(s.threads, a.t));
      if !a.ArmBegin? { TerminalIsQuiet(t); }
    }
  }

  /** Whatever disarm() returns, the node is at rest when it returns. */
  lemma ReturnMeansQuiet(run: seq<State>, k: nat, t: Tid)
    requires Traces.IsRun(Init, Next, run) && k + 1 < |run|
    requires var p, q := At(run[k].threads, t), At(run[k + 1].threads, t);
             p != q && (q.DTrue? || q.DFalse?)
    ensures Quiet(run[k + 1])
  {
    RunKeeps(run, k);
    RunKeeps(run, k + 1);
    var i, j := k, k + 1;
    assert Next(run[i], run[j]);
    var a :| Enabled(run[i], a) && run[j] == Apply(run[i], a);
    assert ThreadOk(run[k], t);
    ReturnIsTerminal(run[i], a, t);
    TerminalIsQuiet(run[k + 1]);
  }

  lemma ReturnIsTerminal(s: State, a: Action, t: Tid)
    requires Enabled(s, a) && ThreadOk(s, t)
    requires var p, q := At(s.threads, t), At(Apply(s, a).threads, t); p != q && (q.DTrue? || q.DFalse?)
    ensures Terminal(Apply(s, a).node)
  {
  }

  /** And it stays at rest until its owner arms it again: no late step of the service reaches it. */
  lemma QuietUntilRearmed(run: seq<State>, i: nat, j: nat)
    requires Traces.IsRun(Init, Next, run) && i <= j < |run| && Quiet(run[i])
    ensures Traces.KeptUntil(Quiet, Rearms, run, i, j)
  {
    forall s, t | Inv(s) && Next(s, t) ensures Inv(t) && (Quiet(s) ==> Quiet(t) || Rearms(s, t)) {
      QuietStep(s, t);
    }
    Traces.HoldsUntil(Init, Next, Inv, Quiet, Rearms, run, i, j);
  }

  // ------------------------------------------- what a losing disarm() reads

  /** A disarm() that holds the shard lock, finds the node unlinked and is about to read its state. */
  predicate HasLost(s: State, t: Tid) {
    At(s.threads, t).DLocked? && !s.linked
  }

  /** An arm() has stored kArmed and not yet taken the lock. */
  predicate ArmIsComing(s: State) {
    s.armer.Some? && At(s.threads, s.armer.value).ALocking?
  }

  /**
   A disarm() that lost reads kFiring or kFired if and only if the service popped the
   node's latest arming. Otherwise it reads kArmed while the arm() has still to take
   the lock, kCancelled after another disarm() and kIdle after a failed arm().
   */
  lemma LoserReadsOutcome(run: seq<State>, k: nat, t: Tid)
    requires Traces.IsRun(Init, Next, run) && k < |run| && HasLost(run[k], t)
    ensures run[k].node == Firing || run[k].node == Fired <==> run[k].outcome == Popped
    ensures run[k].node == Armed <==> ArmIsComing(run[k])
    ensures run[k].node == Cancelled <==> run[k].outcome == Removed
    ensures run[k].node == Idle <==> run[k].outcome == NoMemory
    ensures ArmIsComing(run[k]) <==> run[k].outcome == Open
  {
    var s := run[k];
    RunKeeps(run, k);
    assert Around(s, t);
  }

  /** A run with one more step at its end. */
  lemma Play(run: seq<State>, a: Action) returns (longer: seq<State>)
    requires Traces.IsRun(Init, Next, run) && Enabled(run[|run| - 1], a)
    ensures Traces.IsRun(Init, Next, longer) && longer[|longer| - 1] == Apply(run[|run| - 1], a)
  {
    longer := Traces.Extend(Init, Next, run, Apply(run[|run| - 1], a));
  }

  lemma Start() returns (run: seq<State>)
    ensures Traces.IsRun(Init, Next, run) && Init(run[|run| - 1])
  {
    run := [State(Idle, false, None, map[], {}, None, None, None, Never, 0, 0, 0, 0, 0, 0)];
  }

  /** Thread 1 disarms between the two steps with which thread 0 begins to arm: it reads kArmed. */
  lemma LoserMayReadArmed() returns (run: seq<State>)
    ensures Traces.IsRun(Init, Next, run)
    ensures HasLost(run[|run| - 1], 1) && run[|run| - 1].node == Armed
  {
    run := Start();
    run := Play(run, ArmBegin(0));
    run := Play(run, DisarmBegin(1));
    run := Play(run, DisarmLock(1));
  }

  /** The same, after thread 0 found no memory: kIdle. */
  lemma LoserMayReadIdle() returns (run: seq<State>)
    ensures Traces.IsRun(Init, Next, run)
    ensures HasLost(run[|run| - 1], 1) && run[|run| - 1].node == Idle
  {
    run := Start();
    run := Play(run, ArmBegin(0));
    run := Play(run, DisarmBegin(1));
    run := Play(run, ArmLock(0));
    run := Play(run, ArmLink(0, true));
    run := Play(run, ArmEnd(0));
    run := Play(run, DisarmLock(1));
  }

  /** Thread 0 has armed the node, threads 1 and 2 have read kArmed. */
  lemma TwoDisarms() returns (run: seq<State>)
    ensures Traces.IsRun(Init, Next, run)
    ensures var s := run[|run| - 1];
            && s.linked && s.lock.None? && s.node == Armed
            && At(s.threads, 1) == DLoop(Armed) && At(s.threads, 2) == DLoop(Armed)
  {
    run := Start();
    run := Play(run, ArmBegin(0));
    run := Play(run, ArmLock(0));
    run := Play(run, ArmLink(0, false));
    run := Play(run, ArmEnd(0));
    run := Play(run, DisarmBegin(1));
    run := Play(run, DisarmBegin(2));
  }

  /** Thread 1 removes the node, so thread 2 reads kCancelled. */
  lemma LoserMayReadCancelled() returns (run: seq<State>)
    ensures Traces.IsRun(Init, Next, run)
    ensures HasLost(run[|run| - 1], 2) && run[|run| - 1].node == Cancelled
  {
    run := TwoDisarms();
    run := Play(run, DisarmLock(1));
    run := Play(run, Examine(1));
    run := Play(run, StoreCancelled(1));
    run := Play(run, DisarmEnd(1));
    run := Play(run, DisarmLock(2));
  }
}
