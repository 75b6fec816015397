/**
 The writer-preferring read/write mutex: one state word, two waiter lists and a
 queue lock. A compare-exchange loop is one step, taken at the access that
 decides its outcome; acquiring the queue lock, and every access made while
 holding it, are separate steps, so lock-free acquirers and releasers interleave
 with the locked sections. Tasks release only what they hold, as the guards do.

 The word is kept decoded: bit 0 `writer`, bit 1 `pending`, the rest `readers`.
 History: `rset` and `wset` are the tasks that own the lock for reading and for
 writing, `last` the reader that most recently left with a hand-off to do, and `waker[u]`
 the task whose hand-off granted u the lock.
 */
module RWMutex {
  import opened Prelude
  import Traces

  type Tid = nat
  datatype Word = Word(writer: bool, pending: bool, readers: nat)

  datatype Phase =
    | Out
    | WantRead | WantWrite             // lock-free attempt failed; queue lock not yet held
    | ReadLocked | WriteLocked         // queue lock held, retrying
    | ReadGot | WriteGot               // acquired under the queue lock
    | ReadPush | WritePush             // pending published, node not yet linked
    | ParkedR | ParkedW
    | ChosenR | ChosenW                // unlinked by a hand-off that has not stored the word yet
    | GrantedR | GrantedW              // owns the lock, not yet resumed
    | HoldR | HoldW
    | LastReader | LastLocked | LastTook(next: Tid, more: bool)
    | SlowUnlock | SlowLocked | TookWriter(next: Tid, more: bool) | TookReaders(batch: seq<Tid>)
    | Waking(nodes: seq<Tid>)

  datatype State = State(word: Word, qlock: Option<Tid>, rq: seq<Tid>, wq: seq<Tid>, phases: map<Tid, Phase>,
                         rset: set<Tid>, wset: set<Tid>, last: Tid, waker: map<Tid, Tid>)

  datatype Action =
    | TryRead(t: Tid, park: bool) | TryWrite(t: Tid, park: bool)   // park: await_suspend follows a miss
    | LockQueue(t: Tid)
    | DecideRead(t: Tid) | DecideWrite(t: Tid)
    | FinishGot(t: Tid) | Link(t: Tid)
    | ReleaseRead(t: Tid) | ReleaseWrite(t: Tid)
    | TakeNext(t: Tid) | StoreWord(t: Tid)
    | Wake(t: Tid)

  function At(m: map<Tid, Phase>, t: Tid): Phase {
    if t in m then m[t] else Out
  }

  ghost predicate Init(s: State) {
    && s.word == Word(false, false, 0) && s.qlock == None && s.rq == [] && s.wq == []
    && s.phases == map[] && s.rset == {} && s.wset == {} && s.waker == map[]
  }

  predicate Enabled(s: State, a: Action) {
    var p := At(s.phases, a.t);
    match a
    case TryRead(_, _) => p.Out?
    case TryWrite(_, _) => p.Out?
    case LockQueue(_) => s.qlock.None? && (p.WantRead? || p.WantWrite? || p.LastReader? || p.SlowUnlock?)
    case DecideRead(_) => p.ReadLocked?
    case DecideWrite(_) => p.WriteLocked?
    case FinishGot(_) => p.ReadGot? || p.WriteGot?
    case Link(_) => p.ReadPush? || p.WritePush?
    case ReleaseRead(_) => p.HoldR?
    case ReleaseWrite(_) => p.HoldW?
    case TakeNext(_) => p.LastLocked? || p.SlowLocked?
    case StoreWord(_) => p.LastTook? || p.TookWriter? || p.TookReaders?
    case Wake(_) => p.Waking?
  }

  function Goto(s: State, t: Tid, p: Phase): State {
    s.(phases := s.phases[t := p])
  }

  function Elements(ts: seq<Tid>): set<Tid> {
    set t | t in ts
  }

  function GotoAll(m: map<Tid, Phase>, ts: seq<Tid>, p: Phase): map<Tid, Phase> {
    map t | t in m.Keys + Elements(ts) :: if t in ts then p else m[t]
  }

  function GrantAll(m: map<Tid, Tid>, ts: seq<Tid>, granter: Tid): map<Tid, Tid> {
    map t | t in m.Keys + Elements(ts) :: if t in ts then granter else m[t]
  }

  function LockedPhase(p: Phase): Phase {
    match p
    case WantRead => ReadLocked
    case WantWrite => WriteLocked
    case LastReader => LastLocked
    case SlowUnlock => SlowLocked
    case _ => p
  }

  /** A new reader, by the lock-free path or under the queue lock. */
  function AddReader(s: State, t: Tid, p: Phase): State {
    Goto(s.(word := s.word.(readers := s.word.readers + 1), rset := s.rset + {t}), t, p)
  }

  function AddWriter(s: State, t: Tid, p: Phase): State {
    Goto(s.(word := s.word.(writer := true), wset := s.wset + {t}), t, p)
  }

  /** runlock()'s exchange; a return without effect if the caller holds nothing. */
  function ReleaseReadStep(s: State, t: Tid): State {
    if s.word.writer || s.word.readers == 0 then Goto(s, t, Out)
    else
      var w := s.word.(readers := s.word.readers - 1);
      if w == Word(false, true, 0) then Goto(s.(word := w, rset := s.rset - {t}, last := t), t, LastReader)
      else Goto(s.(word := w, rset := s.rset - {t}), t, Out)
  }

  /**
   Under the queue lock: the next writer if any; otherwise runlock() clears the word and unlock() takes
   all readers.
   */
  function TakeNextStep(s: State, t: Tid): State {
    var p := At(s.phases, t);
    if p.SlowLocked? && !s.word.writer then Goto(s.(qlock := None), t, Out)
    else if s.wq != [] then
      var n := s.wq[0];
      var more := |s.wq| > 1 || s.rq != [];
      Goto(Goto(s.(wq := s.wq[1..]), n, ChosenW), t, if p.LastLocked? then LastTook(n, more) else TookWriter(n, more))
    else if p.LastLocked? then
      Goto(s.(word := Word(false, false, 0), qlock := None), t, Out)  // the source's defensive branch
    else
      Goto(s.(rq := [], phases := GotoAll(s.phases, s.rq, ChosenR)), t, TookReaders(s.rq))
  }

  function StoreWordStep(s: State, t: Tid): State {
    match At(s.phases, t)
    case LastTook(n, more) =>
      Goto(Goto(s.(word := Word(true, more, 0), qlock := None, wset := s.wset + {n}, waker := s.waker[n := t]),
                n, GrantedW),
           t, Waking([n]))
    case TookWriter(n, more) =>
      Goto(Goto(s.(word := Word(true, more, 0), qlock := None, wset := s.wset - {t} + {n}, waker := s.waker[n := t]),
                n, GrantedW),
           t, Waking([n]))
    case TookReaders(batch) =>
      Goto(s.(word := Word(false, false, |batch|), qlock := None, wset := s.wset - {t},
              rset := s.rset + Elements(batch), waker := GrantAll(s.waker, batch, t),
              phases := GotoAll(s.phases, batch, GrantedR)),
           t, Waking(batch))
    case _ => s
  }

  function WakeStep(s: State, t: Tid, nodes: seq<Tid>): State {
    if nodes == [] then Goto(s, t, Out)
    else
      var n := nodes[0];
      var woken := if At(s.phases, n).GrantedW? then HoldW else HoldR;
      Goto(Goto(s, n, woken), t, Waking(nodes[1..]))
  }

  function Apply(s: State, a: Action): State
    requires Enabled(s, a)
  {
    var p := At(s.phases, a.t);
    match a
    case TryRead(t, park) =>
      if s.word.writer || s.word.pending then Goto(s, t, if park then WantRead else Out)
      else AddReader(s, t, HoldR)
    case TryWrite(t, park) =>
      if s.word == Word(false, false, 0) then AddWriter(s, t, HoldW)
      else Goto(s, t, if park then WantWrite else Out)
    case LockQueue(t) => Goto(s.(qlock := Some(t)), t, LockedPhase(p))
    case DecideRead(t) =>
      if !s.word.writer && !s.word.pending then AddReader(s, t, ReadGot)
      else Goto(s.(word := s.word.(pending := true)), t, ReadPush)
    case DecideWrite(t) =>
      if s.word == Word(false, false, 0) then AddWriter(s, t, WriteGot)
      else Goto(s.(word := s.word.(pending := true)), t, WritePush)
    case FinishGot(t) => Goto(s.(qlock := None), t, if p.ReadGot? then HoldR else HoldW)
    case Link(t) =>
      if p.ReadPush? then Goto(s.(rq := [t] + s.rq, qlock := None), t, ParkedR)
      else Goto(s.(wq := [t] + s.wq, qlock := None), t, ParkedW)
    case ReleaseRead(t) => ReleaseReadStep(s, t)
    case ReleaseWrite(t) =>
      if s.word == Word(true, false, 0) then Goto(s.(word := Word(false, false, 0), wset := s.wset - {t}), t, Out)
      else Goto(s, t, SlowUnlock)
    case TakeNext(t) => TakeNextStep(s, t)
    case StoreWord(t) => StoreWordStep(s, t)
    case Wake(t) => WakeStep(s, t, p.nodes)
  }

  ghost predicate Next(s: State, t: State) {
    exists a :: Enabled(s, a) && t == Apply(s, a)
  }

  // ------------------------------------------------------------ invariant

  predicate OwnsRead(p: Phase) { p.ReadGot? || p.GrantedR? || p.HoldR? }

  predicate OwnsWrite(p: Phase) {
    p.WriteGot? || p.GrantedW? || p.HoldW? || p.SlowUnlock? || p.SlowLocked? || p.TookWriter? || p.TookReaders?
  }

  predicate HoldsQueue(p: Phase) {
    p.ReadLocked? || p.WriteLocked? || p.ReadGot? || p.WriteGot? || p.ReadPush? || p.WritePush?
    || p.LastLocked? || p.LastTook? || p.SlowLocked? || p.TookWriter? || p.TookReaders?
  }

  predicate HandingOff(p: Phase) {
    p.LastReader? || p.LastLocked? || p.LastTook?
  }

  /** Each task's phase agrees with the word's owners, the queue lock and the queues. */
  ghost predicate Member(s: State, t: Tid) {
    var p := At(s.phases, t);
    && (t in s.rset <==> OwnsRead(p))
    && (t in s.wset <==> OwnsWrite(p))
    && (s.qlock == Some(t) <==> HoldsQueue(p))
    && (t in s.rq <==> p.ParkedR?)
    && (t in s.wq <==> p.ParkedW?)
    && (HandingOff(p) ==> t == s.last && s.word == Word(false, true, 0) && s.wset == {} && s.rset == {})
  }

  /** The tasks a phase refers to are where it left them. */
  ghost predicate Nodes(s: State, t: Tid) {
    match At(s.phases, t)
    case LastTook(n, more) => At(s.phases, n).ChosenW? && more == (s.wq != [] || s.rq != [])
    case TookWriter(n, more) => At(s.phases, n).ChosenW? && more == (s.wq != [] || s.rq != [])
    case TookReaders(batch) =>
      s.wq == [] && s.rq == [] && Distinct(batch) && forall u :: u in batch ==> At(s.phases, u).ChosenR?
    case Waking(nodes) =>
      Distinct(nodes) && forall u :: u in nodes ==> Granted(At(s.phases, u)) && u in s.waker && s.waker[u] == t
    case _ => true
  }

  ghost predicate PhaseOk(s: State, t: Tid) {
    Member(s, t) && Nodes(s, t)
  }

  predicate Granted(p: Phase) { p.GrantedR? || p.GrantedW? }

  /** A granted task is on its granter's list of tasks to wake. */
  ghost predicate WillWake(s: State, u: Tid) {
    Granted(At(s.phases, u)) ==>
      u in s.waker && At(s.phases, s.waker[u]).Waking? && u in At(s.phases, s.waker[u]).nodes
  }

  /** The task holding the queue lock has published pending and is about to link its node. */
  ghost predicate Linking(s: State) {
    s.qlock.Some? && (At(s.phases, s.qlock.value).ReadPush? || At(s.phases, s.qlock.value).WritePush?)
  }

  ghost predicate LinkingWriter(s: State) {
    s.qlock.Some? && At(s.phases, s.qlock.value).WritePush?
  }

  /** The task holding the queue lock has unlinked waiters and not stored the word yet. */
  ghost predicate MidHandoff(s: State) {
    s.qlock.Some? && (At(s.phases, s.qlock.value).LastTook? || At(s.phases, s.qlock.value).TookWriter?
                      || At(s.phases, s.qlock.value).TookReaders?)
  }

  ghost predicate Waiters(s: State) { s.rq != [] || s.wq != [] }

  ghost predicate WordOk(s: State) {
    && (s.word.writer ==> s.word.readers == 0)
    && |s.rset| == s.word.readers
    && |s.wset| == (if s.word.writer then 1 else 0)
    && (Waiters(s) ==> s.word.pending)
    && (Linking(s) ==> s.word.pending)
    && (s.word.pending ==> Waiters(s) || Linking(s) || MidHandoff(s))
    && (s.word.pending && !s.word.writer ==> s.wq != [] || LinkingWriter(s) || MidHandoff(s))
    && (s.word.pending && !s.word.writer && s.word.readers == 0 ==> HandingOff(At(s.phases, s.last)))
  }

  ghost predicate Inv(s: State) {
    && (forall t: Tid :: PhaseOk(s, t))
    && (forall t: Tid :: WillWake(s, t))
    && Distinct(s.rq) && Distinct(s.wq)
    && WordOk(s)
  }

  // ---------------------------------------------------------------- proof

  predicate Referenced(p: Phase) {
    p.ChosenR? || p.ChosenW? || Granted(p) || p.Waking?
  }

  /** A step of t that moves only t leaves every other task's part of the invariant alone. */
  lemma Frame(s: State, s': State, t: Tid)
    requires Inv(s)
    requires s'.phases == s.phases[t := At(s'.phases, t)] && !Referenced(At(s.phases, t))
    requires s'.waker == s.waker
    requires forall u: Tid :: u != t ==> (u in s'.rset <==> u in s.rset) && (u in s'.wset <==> u in s.wset)
    requires forall u: Tid :: u != t ==> (u in s'.rq <==> u in s.rq) && (u in s'.wq <==> u in s.wq)
    requires forall u: Tid :: u != t ==> (s'.qlock == Some(u) <==> s.qlock == Some(u))
    requires forall u: Tid :: u != t && HandingOff(At(s.phases, u)) ==>
               s'.word == s.word && s'.rset == s.rset && s'.wset == s.wset && s'.last == s.last
    requires s.qlock == Some(t) || (s'.rq == s.rq && s'.wq == s.wq)
    ensures forall u: Tid :: u != t ==> PhaseOk(s', u)
    ensures forall u: Tid :: u != t ==> WillWake(s', u)
  {
    forall u: Tid | u != t ensures PhaseOk(s', u) && WillWake(s', u) {
      assert PhaseOk(s, u) && WillWake(s, u);
    }
  }

  /** A hand-off under way pins the word and the owner sets. */
  lemma HandoffPins(s: State, t: Tid)
    requires Inv(s) && HandingOff(At(s.phases, t))
    ensures s.word == Word(false, true, 0) && s.rset == {} && s.wset == {} && s.last == t
  {
    assert PhaseOk(s, t);
  }

  /** The facts about a step's own task, the queue lock's holder and the last reader. */
  ghost predicate Near(s: State, t: Tid) {
    WordOk(s) && PhaseOk(s, t) && PhaseOk(s, s.last) && (s.qlock.Some? ==> PhaseOk(s, s.qlock.value))
  }

  lemma TryReadKeepsSelf(s: State, t: Tid, park: bool)
    requires Enabled(s, TryRead(t, park)) && PhaseOk(s, t)
    ensures PhaseOk(Apply(s, TryRead(t, park)), t) && WillWake(Apply(s, TryRead(t, park)), t)
  {
  }

  lemma TryWriteKeepsSelf(s: State, t: Tid, park: bool)
    requires Enabled(s, TryWrite(t, park)) && PhaseOk(s, t)
    ensures PhaseOk(Apply(s, TryWrite(t, park)), t) && WillWake(Apply(s, TryWrite(t, park)), t)
  {
  }

  lemma TryReadKeepsWord(s: State, t: Tid, park: bool)
    requires Enabled(s, TryRead(t, park)) && WordOk(s) && PhaseOk(s, t)
    ensures WordOk(Apply(s, TryRead(t, park)))
  {
    if s.word.writer || s.word.pending {
      var n := Apply(s, TryRead(t, park));
      assert n == s.(phases := n.phases);
    }
  }

  lemma TryWriteKeepsWord(s: State, t: Tid, park: bool)
    requires Enabled(s, TryWrite(t, park)) && Near(s, t)
    ensures WordOk(Apply(s, TryWrite(t, park)))
  {
  }

  lemma TryKeeps(s: State, a: Action)
    requires Inv(s) && Enabled(s, a) && (a.TryRead? || a.TryWrite?)
    ensures Inv(Apply(s, a))
  {
    var s' := Apply(s, a);
    assert Near(s, a.t);
    if a.TryRead? {
      TryReadKeepsSelf(s, a.t, a.park);
      TryReadKeepsWord(s, a.t, a.park);
    } else {
      TryWriteKeepsSelf(s, a.t, a.park);
      TryWriteKeepsWord(s, a.t, a.park);
    }
    forall u: Tid | HandingOff(At(s.phases, u)) ensures s.word == Word(false, true, 0) { HandoffPins(s, u); }
    Frame(s, s', a.t);
  }

  lemma LockKeeps(s: State, a: Action)
    requires Inv(s) && Enabled(s, a) && (a.LockQueue? || a.FinishGot?)
    ensures Inv(Apply(s, a))
  {
    var s' := Apply(s, a);
    assert PhaseOk(s, a.t);
    Frame(s, s', a.t);
  }

  lemma DecideReadKeepsSelf(s: State, t: Tid)
    requires Enabled(s, DecideRead(t)) && PhaseOk(s, t)
    ensures PhaseOk(Apply(s, DecideRead(t)), t) && WillWake(Apply(s, DecideRead(t)), t)
  {
  }

  lemma DecideWriteKeepsSelf(s: State, t: Tid)
    requires Enabled(s, DecideWrite(t)) && PhaseOk(s, t)
    ensures PhaseOk(Apply(s, DecideWrite(t)), t) && WillWake(Apply(s, DecideWrite(t)), t)
  {
  }

  lemma DecideReadKeepsWord(s: State, t: Tid)
    requires Enabled(s, DecideRead(t)) && Near(s, t)
    ensures WordOk(Apply(s, DecideRead(t)))
  {
  }

  lemma DecideWriteKeepsWord(s: State, t: Tid)
    requires Enabled(s, DecideWrite(t)) && Near(s, t)
    ensures WordOk(Apply(s, DecideWrite(t)))
  {
  }

  lemma DecideKeeps(s: State, a: Action)
    requires Inv(s) && Enabled(s, a) && (a.DecideRead? || a.DecideWrite?)
    ensures Inv(Apply(s, a))
  {
    var s' := Apply(s, a);
    assert Near(s, a.t);
    if a.DecideRead? {
      DecideReadKeepsSelf(s, a.t);
      DecideReadKeepsWord(s, a.t);
    } else {
      DecideWriteKeepsSelf(s, a.t);
      DecideWriteKeepsWord(s, a.t);
    }
    forall u: Tid | HandingOff(At(s.phases, u)) ensures s.word == Word(false, true, 0) { HandoffPins(s, u); }
    Frame(s, s', a.t);
  }

  lemma LinkKeeps(s: State, t: Tid)
    requires Inv(s) && Enabled(s, Link(t))
    ensures Inv(Apply(s, Link(t)))
  {
    var s' := Apply(s, Link(t));
    assert PhaseOk(s, t);
    Frame(s, s', t);
  }

  lemma ReleaseReadKeeps(s: State, t: Tid)
    requires Inv(s) && Enabled(s, ReleaseRead(t))
    ensures Inv(Apply(s, ReleaseRead(t)))
  {
    var s' := Apply(s, ReleaseRead(t));
    assert PhaseOk(s, t);
    assert |s'.rset| == |s.rset| - 1;
    forall u: Tid | HandingOff(At(s.phases, u)) ensures false { HandoffPins(s, u); }
    Frame(s, s', t);
  }

  lemma ReleaseWriteKeeps(s: State, t: Tid)
    requires Inv(s) && Enabled(s, ReleaseWrite(t))
    ensures Inv(Apply(s, ReleaseWrite(t)))
  {
    var s' := Apply(s, ReleaseWrite(t));
    assert PhaseOk(s, t);
    assert |s.wset - {t}| == |s.wset| - 1;
    forall u: Tid | HandingOff(At(s.phases, u)) ensures false { HandoffPins(s, u); }
    Frame(s, s', t);
  }

  /** Under the queue lock the last reader always finds a writer: the source's defensive branch is dead. */
  lemma HandoffFindsWriter(s: State, t: Tid)
    requires Inv(s) && At(s.phases, t).LastLocked?
    ensures s.wq != []
  {
    assert PhaseOk(s, t);
  }

  /** A writer entering the slow path still owns the word, and finds somebody waiting. */
  lemma SlowUnlockFindsWaiters(s: State, t: Tid)
    requires Inv(s) && At(s.phases, t).SlowLocked?
    ensures s.word.writer && s.wset == {t} && s.rset == {} && |s.rset| == 0
  {
    assert PhaseOk(s, t);
    var rest := s.wset - {t};
    assert |rest| == |s.wset| - 1;
  }

  /** The effect of choosing the first waiting writer, spelled out. */
  lemma TakeWriterEffect(s: State, t: Tid)
    requires Enabled(s, TakeNext(t)) && s.wq != [] && (At(s.phases, t).SlowLocked? ==> s.word.writer)
    ensures var s', n := Apply(s, TakeNext(t)), s.wq[0];
            && s'.wq == s.wq[1..] && s'.rq == s.rq && s'.rset == s.rset && s'.wset == s.wset && s'.qlock == s.qlock
            && s'.word == s.word && s'.last == s.last && s'.waker == s.waker
            && s'.phases == s.phases[n := ChosenW][t := At(s'.phases, t)]
            && (var p := At(s'.phases, t);
                (p.LastTook? || p.TookWriter?) && p.next == n && p.more == (s'.wq != [] || s'.rq != [])
                && (p.LastTook? <==> At(s.phases, t).LastLocked?))
  {
  }

  lemma TakeWriterKeepsMembers(s: State, t: Tid, u: Tid)
    requires Enabled(s, TakeNext(t)) && s.wq != [] && Distinct(s.wq) && (At(s.phases, t).SlowLocked? ==> s.word.writer)
    requires Member(s, t) && Member(s, s.wq[0]) && Member(s, u)
    ensures Member(Apply(s, TakeNext(t)), u)
  {
    TakeWriterEffect(s, t);
    assert s.wq[0] in s.wq && s.wq == [s.wq[0]] + s.wq[1..];
  }

  lemma TakeWriterKeepsNodes(s: State, t: Tid, u: Tid)
    requires Enabled(s, TakeNext(t)) && s.wq != [] && (At(s.phases, t).SlowLocked? ==> s.word.writer)
    requires PhaseOk(s, t) && PhaseOk(s, s.wq[0]) && PhaseOk(s, u) && WillWake(s, u)
    ensures Nodes(Apply(s, TakeNext(t)), u) && WillWake(Apply(s, TakeNext(t)), u)
  {
    TakeWriterEffect(s, t);
    assert s.wq[0] in s.wq;
  }

  lemma TakeWriterKeeps(s: State, t: Tid)
    requires Inv(s) && Enabled(s, TakeNext(t)) && s.wq != []
    requires At(s.phases, t).SlowLocked? ==> s.word.writer
    ensures Inv(Apply(s, TakeNext(t)))
  {
    var s' := Apply(s, TakeNext(t));
    var n := s.wq[0];
    assert PhaseOk(s, t) && PhaseOk(s, n);
    forall u: Tid ensures PhaseOk(s', u) && WillWake(s', u) {
      assert PhaseOk(s, u) && WillWake(s, u);
      TakeWriterKeepsMembers(s, t, u);
      TakeWriterKeepsNodes(s, t, u);
    }
    assert s.wq == [n] + s.wq[1..];
  }

  lemma TakeReadersKeeps(s: State, t: Tid)
    requires Inv(s) && At(s.phases, t).SlowLocked? && s.wq == [] && s.word.writer
    ensures Inv(Apply(s, TakeNext(t)))
  {
    var s' := Apply(s, TakeNext(t));
    assert PhaseOk(s, t);
    forall u: Tid | u in s.rq ensures At(s.phases, u).ParkedR? { assert PhaseOk(s, u); }
    forall u: Tid ensures PhaseOk(s', u) {
      assert PhaseOk(s, u);
    }
    forall u: Tid ensures WillWake(s', u) {
      assert WillWake(s, u);
    }
  }

  lemma TakeNextKeeps(s: State, t: Tid)
    requires Inv(s) && Enabled(s, TakeNext(t))
    ensures Inv(Apply(s, TakeNext(t)))
  {
    if At(s.phases, t).LastLocked? { HandoffFindsWriter(s, t); } else { SlowUnlockFindsWaiters(s, t); }
    if s.wq != [] { TakeWriterKeeps(s, t); } else { TakeReadersKeeps(s, t); }
  }

  /** Holding the queue lock mid-hand-off excludes every other hand-off. */
  lemma SoleHandoff(s: State, t: Tid, u: Tid)
    requires Inv(s) && u != t
             && (At(s.phases, t).LastTook? || At(s.phases, t).TookWriter? || At(s.phases, t).TookReaders?)
    ensures !HandingOff(At(s.phases, u)) && !HoldsQueue(At(s.phases, u))
    ensures s.rset == {} && s.wset - {t} == {}
  {
    assert PhaseOk(s, t) && PhaseOk(s, u);
    if t in s.wset { assert |s.wset - {t}| == |s.wset| - 1; }
  }

  /** The effect of a hand-off to a writer, spelled out. */
  lemma StoreWriterEffect(s: State, t: Tid)
    requires (At(s.phases, t).LastTook? || At(s.phases, t).TookWriter?) && Nodes(s, t)
    requires s.rset == {} && (if At(s.phases, t).LastTook? then s.wset == {} else s.wset - {t} == {})
    ensures var s', n := Apply(s, StoreWord(t)), At(s.phases, t).next;
            && n != t && At(s.phases, n).ChosenW?
            && s'.rset == {} && s'.wset == {n} && s'.rq == s.rq && s'.wq == s.wq && s'.qlock.None?
            && s'.phases == s.phases[n := GrantedW][t := Waking([n])]
  {
    var n := At(s.phases, t).next;
    if At(s.phases, t).LastTook? { assert s.wset + {n} == {n}; } else { assert s.wset - {t} + {n} == {n}; }
  }

  lemma StoreWriterMembers(s: State, t: Tid, u: Tid)
    requires (At(s.phases, t).LastTook? || At(s.phases, t).TookWriter?) && Nodes(s, t)
    requires s.rset == {} && (if At(s.phases, t).LastTook? then s.wset == {} else s.wset - {t} == {})
    requires Member(s, t) && Member(s, u) && Member(s, At(s.phases, t).next)
    requires u != t ==> !HandingOff(At(s.phases, u)) && !HoldsQueue(At(s.phases, u))
    ensures Member(Apply(s, StoreWord(t)), u)
  {
    StoreWriterEffect(s, t);
    if u != t && u != At(s.phases, t).next {
      assert u !in s.wset && u !in s.rset;
    }
  }

  lemma StoreWriterNodes(s: State, t: Tid, u: Tid)
    requires (At(s.phases, t).LastTook? || At(s.phases, t).TookWriter?) && PhaseOk(s, t) && PhaseOk(s, u)
             && WillWake(s, u)
    requires PhaseOk(s, At(s.phases, t).next)
             && (u != t ==> !HandingOff(At(s.phases, u)) && !HoldsQueue(At(s.phases, u)))
    ensures Nodes(Apply(s, StoreWord(t)), u) && WillWake(Apply(s, StoreWord(t)), u)
  {
    var s' := Apply(s, StoreWord(t));
    var n := At(s.phases, t).next;
    if u != t { assert u != n ==> At(s'.phases, u) == At(s.phases, u); }
  }

  lemma StoreWriterKeepsWord(s: State, t: Tid)
    requires (At(s.phases, t).LastTook? || At(s.phases, t).TookWriter?) && PhaseOk(s, t) && WordOk(s)
    requires s.rset == {} && Apply(s, StoreWord(t)).wset == {At(s.phases, t).next}
    ensures WordOk(Apply(s, StoreWord(t)))
  {
  }

  lemma StoreWriterKeeps(s: State, t: Tid)
    requires Inv(s) && (At(s.phases, t).LastTook? || At(s.phases, t).TookWriter?)
    ensures Inv(Apply(s, StoreWord(t)))
  {
    var s' := Apply(s, StoreWord(t));
    var n := At(s.phases, t).next;
    assert PhaseOk(s, t) && PhaseOk(s, n);
    SoleHandoff(s, t, n);
    StoreWriterEffect(s, t);
    forall u: Tid ensures PhaseOk(s', u) && WillWake(s', u) {
      assert PhaseOk(s, u) && WillWake(s, u);
      if u != t { SoleHandoff(s, t, u); }
      StoreWriterMembers(s, t, u);
      StoreWriterNodes(s, t, u);
    }
    StoreWriterKeepsWord(s, t);
  }

  lemma {:induction false} DistinctCount(q: seq<Tid>)
    requires Distinct(q)
    ensures |Elements(q)| == |q|
  {
    if q != [] {
      DistinctCount(q[1..]);
      assert q[0] !in q[1..];
      assert Elements(q) == {q[0]} + Elements(q[1..]);
    }
  }

  lemma StoreReadersMembers(s: State, t: Tid, u: Tid)
    requires At(s.phases, t).TookReaders? && PhaseOk(s, t) && PhaseOk(s, u) && s.rset == {} && s.wset - {t} == {}
    requires u != t ==> !HandingOff(At(s.phases, u)) && !HoldsQueue(At(s.phases, u))
    ensures Member(Apply(s, StoreWord(t)), u)
  {
  }

  lemma StoreReadersNodes(s: State, t: Tid, u: Tid)
    requires At(s.phases, t).TookReaders? && PhaseOk(s, t) && PhaseOk(s, u) && WillWake(s, u)
    requires u != t ==> !HandingOff(At(s.phases, u)) && !HoldsQueue(At(s.phases, u))
    ensures Nodes(Apply(s, StoreWord(t)), u) && WillWake(Apply(s, StoreWord(t)), u)
  {
    var s' := Apply(s, StoreWord(t));
    if u != t { assert u !in At(s.phases, t).batch ==> At(s'.phases, u) == At(s.phases, u); }
  }

  lemma StoreReadersKeeps(s: State, t: Tid)
    requires Inv(s) && At(s.phases, t).TookReaders?
    ensures Inv(Apply(s, StoreWord(t)))
  {
    var s' := Apply(s, StoreWord(t));
    assert PhaseOk(s, t);
    DistinctCount(At(s.phases, t).batch);
    SoleHandoff(s, t, t + 1);
    forall u: Tid ensures PhaseOk(s', u) && WillWake(s', u) {
      assert PhaseOk(s, u) && WillWake(s, u);
      if u != t { SoleHandoff(s, t, u); }
      StoreReadersMembers(s, t, u);
      StoreReadersNodes(s, t, u);
    }
  }

  lemma WakeOneMembers(s: State, t: Tid, u: Tid)
    requires Enabled(s, Wake(t)) && PhaseOk(s, t) && PhaseOk(s, u)
    requires At(s.phases, t).nodes != [] ==> PhaseOk(s, At(s.phases, t).nodes[0])
    ensures Member(Apply(s, Wake(t)), u)
  {
    var nodes := At(s.phases, t).nodes;
    assert nodes != [] ==> nodes[0] in nodes;
  }

  lemma WakeOneNodes(s: State, t: Tid, u: Tid)
    requires Enabled(s, Wake(t)) && PhaseOk(s, t) && PhaseOk(s, u) && WillWake(s, u)
    requires At(s.phases, t).nodes != [] ==> PhaseOk(s, At(s.phases, t).nodes[0])
    ensures Nodes(Apply(s, Wake(t)), u) && WillWake(Apply(s, Wake(t)), u)
  {
    var s' := Apply(s, Wake(t));
    var nodes := At(s.phases, t).nodes;
    if nodes != [] {
      var n := nodes[0];
      assert n in nodes && n !in nodes[1..] && nodes == [n] + nodes[1..];
      assert s'.phases == s.phases[n := At(s'.phases, n)][t := At(s'.phases, t)];
      assert u != t && u != n ==> At(s'.phases, u) == At(s.phases, u);
      var list := if u == t then nodes[1..] else if At(s.phases, u).Waking? then At(s.phases, u).nodes else [];
      forall x | x in list ensures x != n && x != t && At(s'.phases, x) == At(s.phases, x) && s'.waker == s.waker {
        assert Granted(At(s.phases, x)) && s.waker[x] == u;
      }
    }
  }

  lemma WakeKeeps(s: State, t: Tid)
    requires Inv(s) && Enabled(s, Wake(t))
    ensures Inv(Apply(s, Wake(t)))
  {
    var s' := Apply(s, Wake(t));
    assert PhaseOk(s, t);
    assert At(s.phases, t).nodes != [] ==> PhaseOk(s, At(s.phases, t).nodes[0]);
    forall u: Tid ensures PhaseOk(s', u) && WillWake(s', u) {
      assert PhaseOk(s, u) && WillWake(s, u);
      WakeOneMembers(s, t, u);
      WakeOneNodes(s, t, u);
    }
    WakeKeepsWord(s, t);
  }

  lemma WakeKeepsWord(s: State, t: Tid)
    requires Inv(s) && Enabled(s, Wake(t))
    ensures WordOk(Apply(s, Wake(t)))
  {
    var nodes := At(s.phases, t).nodes;
    assert PhaseOk(s, t) && PhaseOk(s, s.last);
    if nodes != [] { assert nodes[0] in nodes; assert PhaseOk(s, nodes[0]); }
    if s.qlock.Some? { assert PhaseOk(s, s.qlock.value); }
  }

  lemma StepKeeps(s: State, a: Action)
    requires Inv(s) && Enabled(s, a)
    ensures Inv(Apply(s, a))
  {
    if a.TryRead? || a.TryWrite? { TryKeeps(s, a); }
    else if a.LockQueue? || a.FinishGot? { LockKeeps(s, a); }
    else if a.DecideRead? || a.DecideWrite? { DecideKeeps(s, a); }
    else if a.Link? { LinkKeeps(s, a.t); }
    else if a.ReleaseRead? { ReleaseReadKeeps(s, a.t); }
    else if a.ReleaseWrite? { ReleaseWriteKeeps(s, a.t); }
    else if a.TakeNext? { TakeNextKeeps(s, a.t); }
    else if a.Wake? { WakeKeeps(s, a.t); }
    else if At(s.phases, a.t).TookReaders? { StoreReadersKeeps(s, a.t); }
    else { StoreWriterKeeps(s, a.t); }
  }

  lemma RunKeeps(run: seq<State>, k: nat)
    requires Traces.IsRun(Init, Next, run) && k < |run|
    ensures Inv(run[k])
  {
    forall s, t | Inv(s) && Next(s, t) ensures Inv(t) {
      var a :| Enabled(s, a) && t == Apply(s, a);
      StepKeeps(s, a);
    }
    Traces.InductiveHolds(Init, Next, Inv, run, k);
  }

  // -------------------------------------------------------------- results

  /** In every run a task that may write excludes every other reader and writer. */
  lemma MutualExclusion(run: seq<State>, k: nat, t: Tid, u: Tid)
    requires Traces.IsRun(Init, Next, run) && k < |run| && t != u
    requires OwnsWrite(At(run[k].phases, t))
    ensures !OwnsWrite(At(run[k].phases, u)) && !OwnsRead(At(run[k].phases, u))
  {
    RunKeeps(run, k);
    var s := run[k];
    assert PhaseOk(s, t) && PhaseOk(s, u);
    assert |s.wset - {t}| == |s.wset| - 1;
  }

  /**
   No stranded waiter. In every run, whenever the queue lock is free, a queued
   task implies that pending is set and that the lock is owned or a last reader is
   on its way to hand it over; conversely pending without a queued task does not
   occur, so pending never shuts out readers for nothing.
   */
  lemma NoStrandedWaiter(run: seq<State>, k: nat)
    requires Traces.IsRun(Init, Next, run) && k < |run| && run[k].qlock.None?
    ensures Waiters(run[k]) <==> run[k].word.pending
    ensures Waiters(run[k]) ==> run[k].wset != {} || run[k].rset != {} || At(run[k].phases, run[k].last).LastReader?
  {
    RunKeeps(run, k);
    assert PhaseOk(run[k], run[k].last);
  }

  /** In every run the last reader finds a writer under the queue lock: the branch at "Defensive only" never runs. */
  lemma DefensiveBranchUnreachable(run: seq<State>, k: nat, t: Tid)
    requires Traces.IsRun(Init, Next, run) && k < |run| && At(run[k].phases, t).LastLocked?
    ensures run[k].wq != [] && At(Apply(run[k], TakeNext(t)).phases, t).LastTook?
  {
    RunKeeps(run, k);
    HandoffFindsWriter(run[k], t);
  }

  /**
   Writer preference: no step but a finishing writer's hand-off admits a reader
   while pending is set, and that hand-off takes readers only when no writer waits.
   */
  lemma PendingAdmitsNoReader(run: seq<State>, k: nat, a: Action)
    requires Traces.IsRun(Init, Next, run) && k < |run| && Enabled(run[k], a) && run[k].word.pending
    requires !(Apply(run[k], a).rset <= run[k].rset)
    ensures a.StoreWord? && At(run[k].phases, a.t).TookReaders? && run[k].wq == []
  {
    RunKeeps(run, k);
    assert PhaseOk(run[k], a.t);
  }

  /** A parked task handed the lock is on exactly one wake list, that of the task that handed it over. */
  lemma GrantedIsWokenOnce(run: seq<State>, k: nat, u: Tid, t: Tid)
    requires Traces.IsRun(Init, Next, run) && k < |run| && Granted(At(run[k].phases, u))
    ensures At(run[k].phases, t).Waking? && u in At(run[k].phases, t).nodes <==>
            u in run[k].waker && run[k].waker[u] == t
  {
    RunKeeps(run, k);
    assert PhaseOk(run[k], t) && WillWake(run[k], u);
  }
}
