/**
 One select racing its channels' peers, close(), and its own timers. The select
 locks its channels one by one, scans them, registers a waiter per channel case,
 unlocks, arms its timers and finally hands itself over with one exchange on
 `word`. Peers work under a channel's lock and may pop several waiters in one
 critical section; a popped waiter of this select is theirs only if their
 exchange on `winner` succeeds. Every lock operation, every pop together with its
 claim, every atomic exchange and every timer-state change is one step. Waiters
 of other tasks and other selects are anonymous.

 History: `claim` is who set `winner`, `moved` the cases on which a value changed
 hands, `resumes` how often the select has been resumed after parking or, when
 parking failed, continued by its own setup.
 */
module Select {
  import opened Prelude
  import LockOrder
  import Traces

  type Cid = LockOrder.Address  // channels
  type Pid = nat

  datatype Case = On(chan: Cid, sender: bool) | After | Disabled | Default  // Disabled: a nil channel
  datatype Entry = Mine(i: nat) | Other
  datatype Holder = Free | Self | Peer(p: Pid)
  datatype Word = Setup | Parked | Resumed
  datatype Op = SendOp | RecvOp | CloseOp
  datatype Claim = NoClaim | BySelf | ByPeer(p: Pid) | ByTimer(i: nat)

  datatype Phase =
    | Locking(n: nat)                    // order[..n] locked
    | Scanning                           // all locked, looking for a ready case
    | Enqueuing(n: nat)                  // cases[..n] registered
    | Unlocking(n: nat, ready: bool)     // order[..n] still locked
    | Arming(n: nat)                     // timers of cases[..n] armed
    | Committing
    | Suspended
    | Finishing(n: nat)                  // cases[..n] retracted
    | Finished

  datatype PeerPhase =
    | Out
    | Busy(chan: Cid, op: Op, won: Option<nat>)  // holding chan's lock
    | Waking(i: nat)                             // lock released, resume ownership not yet taken

  datatype TimerPhase =
    | Idle | Armed
    | Firing                 // callback entered
    | Claimed                // won, word not yet exchanged
    | Returning(resume: bool) // callback returned, kFired not yet stored
    | Fired(resume: bool)    // kFired stored; if resume, the select is still to be scheduled
    | Ended                  // nothing left to do, or removed by disarm()

  type Queues = map<(Cid, bool), seq<Entry>>

  datatype State = State(cases: seq<Case>, order: seq<Cid>, phase: Phase, winner: Option<nat>, word: Word,
                         locks: map<Cid, Holder>, queues: Queues,
                         peers: map<Pid, PeerPhase>, timers: map<nat, TimerPhase>,
                         claim: Claim, moved: seq<Cid>, resumes: nat)

  datatype Action =
    | LockNext | ReadyNow(i: nat) | TakeDefault(i: nat) | NothingReady | EnqueueNext | UnlockNext | ArmNext
    | Commit | RetractNext
    | PeerLock(p: Pid, c: Cid, what: Op) | PeerPop(p: Pid, side: bool) | PeerAppend(p: Pid, side: bool)
    | PeerRemove(p: Pid, side: bool, at: nat) | PeerUnlock(p: Pid) | PeerWake(p: Pid)
    | TimerFire(i: nat) | TimerClaim(i: nat) | TimerExchange(i: nat) | TimerFired(i: nat) | TimerResume(i: nat)

  function LockOf(s: State, c: Cid): Holder { if c in s.locks then s.locks[c] else Free }
  function Q(qs: Queues, c: Cid, side: bool): seq<Entry> { if (c, side) in qs then qs[(c, side)] else [] }
  function PeerAt(s: State, p: Pid): PeerPhase { if p in s.peers then s.peers[p] else Out }
  function TimerAt(s: State, i: nat): TimerPhase { if i in s.timers then s.timers[i] else Idle }

  ghost predicate Init(s: State) {
    && s.phase == Locking(0) && s.winner == None && s.word == Setup
    && LockOrder.StrictlySorted(s.order)
    && (forall i :: 0 <= i < |s.cases| && s.cases[i].On? ==> s.cases[i].chan in s.order)
    && (forall c: Cid :: LockOf(s, c) == Free)
    && (forall c: Cid, side: bool, i :: 0 <= i < |Q(s.queues, c, side)| ==> Q(s.queues, c, side)[i] == Other)
    && s.peers == map[] && s.timers == map[]
    && s.claim == NoClaim && s.moved == [] && s.resumes == 0
  }

  /** Which queue an operation pops: a send takes receivers, a receive takes senders, close takes both. */
  predicate Pops(op: Op, side: bool) {
    op.CloseOp? || (op.SendOp? && !side) || (op.RecvOp? && side)
  }

  predicate Enabled(s: State, a: Action) {
    match a
    case LockNext =>
      s.phase.Locking? && s.phase.n <= |s.order| && (s.phase.n < |s.order| ==> LockOf(s, s.order[s.phase.n]).Free?)
    case ReadyNow(i) => s.phase.Scanning? && i < |s.cases| && s.cases[i].On?
    case TakeDefault(i) => s.phase.Scanning? && i < |s.cases| && s.cases[i].Default?
    case NothingReady => s.phase.Scanning? && forall i :: 0 <= i < |s.cases| ==> !s.cases[i].Default?
    case EnqueueNext => s.phase.Enqueuing? && s.phase.n <= |s.cases|
    case UnlockNext => s.phase.Unlocking? && s.phase.n <= |s.order|
    case ArmNext => s.phase.Arming? && s.phase.n <= |s.cases|
    case Commit => s.phase.Committing?
    case RetractNext =>
      && s.phase.Finishing? && s.phase.n <= |s.cases|
      && (s.phase.n < |s.cases| ==>
            match s.cases[s.phase.n]
            case On(c, _) => s.winner == Some(s.phase.n) || LockOf(s, c).Free?
            case After =>  // disarm() waits out a running callback
              var t := TimerAt(s, s.phase.n); !t.Firing? && !t.Claimed? && !t.Returning?
            case _ => true)
    case PeerLock(p, c, _) => PeerAt(s, p).Out? && LockOf(s, c).Free?
    case PeerPop(p, side) =>
      var x := PeerAt(s, p);
      x.Busy? && Pops(x.op, side) && (x.won.None? || x.op.CloseOp?) && Q(s.queues, x.chan, side) != []
    case PeerAppend(p, side) => PeerAt(s, p).Busy?
    case PeerRemove(p, side, k) =>
      PeerAt(s, p).Busy? && k < |Q(s.queues, PeerAt(s, p).chan, side)| && Q(s.queues, PeerAt(s, p).chan, side)[k].Other?
    case PeerUnlock(p) =>
      var x := PeerAt(s, p);
      x.Busy? && (x.op.CloseOp? ==> Q(s.queues, x.chan, false) == [] && Q(s.queues, x.chan, true) == [])
    case PeerWake(p) => PeerAt(s, p).Waking?
    case TimerFire(i) => TimerAt(s, i).Armed?
    case TimerClaim(i) => TimerAt(s, i).Firing?
    case TimerExchange(i) => TimerAt(s, i).Claimed?
    case TimerFired(i) => TimerAt(s, i).Returning?
    case TimerResume(i) => TimerAt(s, i).Fired? && TimerAt(s, i).resume
  }

  function SetQ(s: State, c: Cid, side: bool, q: seq<Entry>): State {
    s.(queues := s.queues[(c, side) := q])
  }

  /** Resuming the select: only meaningful while it is suspended. */
  function Resume(s: State): State {
    s.(phase := Finishing(0), resumes := s.resumes + 1)
  }

  function Without(q: seq<Entry>, i: nat): seq<Entry> {
    if q == [] then [] else if q[0] == Mine(i) then q[1..] else [q[0]] + Without(q[1..], i)
  }

  /** One pop of a peer, with the claim it attempts when the waiter is this select's. */
  function PopStep(s: State, p: Pid, side: bool): State
    requires Enabled(s, PeerPop(p, side))
  {
    var x := PeerAt(s, p);
    var q := Q(s.queues, x.chan, side);
    var s' := SetQ(s, x.chan, side, q[1..]);
    if q[0].Mine? && s.winner.None? then
      s'.(winner := Some(q[0].i), claim := ByPeer(p), peers := s.peers[p := x.(won := Some(q[0].i))],
          moved := if x.op.CloseOp? then s.moved else s.moved + [x.chan])
    else s'
  }

  function Retract(s: State, n: nat): State
    requires n < |s.cases|
  {
    match s.cases[n]
    case On(c, side) => if s.winner == Some(n) then s else SetQ(s, c, side, Without(Q(s.queues, c, side), n))
    case After => if TimerAt(s, n).Armed? then s.(timers := s.timers[n := Ended]) else s
    case _ => s
  }

  function Apply(s: State, a: Action): State
    requires Enabled(s, a)
  {
    match a
    case LockNext =>
      if s.phase.n == |s.order| then s.(phase := Scanning)
      else s.(phase := Locking(s.phase.n + 1), locks := s.locks[s.order[s.phase.n] := Self])
    case ReadyNow(i) =>
      s.(winner := Some(i), claim := BySelf, moved := s.moved + [s.cases[i].chan], phase := Unlocking(|s.order|, true))
    case TakeDefault(i) => s.(winner := Some(i), claim := BySelf, phase := Unlocking(|s.order|, true))
    case NothingReady => s.(phase := Enqueuing(0))
    case EnqueueNext =>
      var n := s.phase.n;
      if n == |s.cases| then s.(phase := Unlocking(|s.order|, false))
      else
        var s' := s.(phase := Enqueuing(n + 1));
        if s.cases[n].On? then
          SetQ(s', s.cases[n].chan, s.cases[n].sender, Q(s.queues, s.cases[n].chan, s.cases[n].sender) + [Mine(n)])
        else s'
    case UnlockNext =>
      if s.phase.n == 0 then s.(phase := if s.phase.ready then Finished else Arming(0))
      else s.(phase := Unlocking(s.phase.n - 1, s.phase.ready), locks := s.locks[s.order[s.phase.n - 1] := Free])
    case ArmNext =>
      var n := s.phase.n;
      if n == |s.cases| then s.(phase := Committing)
      else
        var s' := s.(phase := Arming(n + 1));
        if s.cases[n].After? then s'.(timers := s.timers[n := Armed]) else s'
    case Commit =>
      if s.word == Setup then s.(word := Parked, phase := Suspended) else Resume(s)
    case RetractNext =>
      var n := s.phase.n;
      if n == |s.cases| then s.(phase := Finished) else Retract(s, n).(phase := Finishing(n + 1))
    case PeerLock(p, c, op) => s.(locks := s.locks[c := Peer(p)], peers := s.peers[p := Busy(c, op, None)])
    case PeerPop(p, side) => PopStep(s, p, side)
    case PeerAppend(p, side) =>
      SetQ(s, PeerAt(s, p).chan, side, Q(s.queues, PeerAt(s, p).chan, side) + [Other])
    case PeerRemove(p, side, k) =>
      var q := Q(s.queues, PeerAt(s, p).chan, side);
      SetQ(s, PeerAt(s, p).chan, side, q[..k] + q[k + 1..])
    case PeerUnlock(p) =>
      var x := PeerAt(s, p);
      s.(locks := s.locks[x.chan := Free], peers := s.peers[p := if x.won.Some? then Waking(x.won.value) else Out])
    case PeerWake(p) =>
      var s' := s.(word := Resumed, peers := s.peers[p := Out]);
      if s.word == Parked then Resume(s') else s'
    case TimerFire(i) => s.(timers := s.timers[i := Firing])
    case TimerClaim(i) =>
      if s.winner.None? then s.(winner := Some(i), claim := ByTimer(i), timers := s.timers[i := Claimed])
      else s.(timers := s.timers[i := Returning(false)])
    case TimerExchange(i) => s.(word := Resumed, timers := s.timers[i := Returning(s.word == Parked)])
    case TimerFired(i) => s.(timers := s.timers[i := Fired(s.timers[i].resume)])
    case TimerResume(i) => Resume(s.(timers := s.timers[i := Ended]))
  }

  ghost predicate Next(s: State, t: State) {
    exists a :: Enabled(s, a) && t == Apply(s, a)
  }

  // ------------------------------------------------------------ invariant

  /** The waiter of case i may be in its channel's queue. */
  predicate MayQueue(p: Phase, cases: nat, i: nat) {
    i < cases &&
    match p
    case Locking(_) => false
    case Scanning => false
    case Enqueuing(n) => i < n
    case Unlocking(_, ready) => !ready
    case Finishing(n) => i >= n
    case Finished => false
    case _ => true
  }

  /** Entries of this select sit in the right queue, once each, while it has not retracted them. */
  ghost predicate QueueOk(cases: seq<Case>, phase: Phase, winner: Option<nat>, c: Cid, side: bool, q: seq<Entry>) {
    && (forall k :: 0 <= k < |q| && q[k].Mine? ==>
          MayQueue(phase, |cases|, q[k].i) && cases[q[k].i] == On(c, side) && winner != Some(q[k].i))
    && Once(q)
  }

  ghost predicate Once(q: seq<Entry>) {
    forall k, l :: 0 <= k < l < |q| && q[k].Mine? ==> q[k] != q[l]
  }

  ghost predicate QOk(s: State, c: Cid, side: bool) {
    QueueOk(s.cases, s.phase, s.winner, c, side, Q(s.queues, c, side))
  }

  /** The claimant still has to exchange the word. */
  ghost predicate ExchangePending(s: State) {
    match s.claim
    case ByPeer(p) =>
      (PeerAt(s, p).Busy? && PeerAt(s, p).won == s.winner) || (PeerAt(s, p).Waking? && Some(PeerAt(s, p).i) == s.winner)
    case ByTimer(i) => TimerAt(s, i).Claimed?
    case _ => false
  }

  /** A timer that took resume ownership still has to schedule the select. */
  ghost predicate ResumePending(s: State) {
    s.claim.ByTimer? && (TimerAt(s, s.claim.i) == Returning(true) || TimerAt(s, s.claim.i) == Fired(true))
  }

  predicate Registering(p: Phase) {
    (p.Unlocking? && !p.ready) || p.Arming? || p.Committing?
  }

  /**
   How phase, word, claim and resume count fit together, given whether the claimant's exchange or
   resume is outstanding.
   */
  ghost predicate WordFits(phase: Phase, word: Word, claim: Claim, resumes: nat, exchange: bool, resume: bool) {
    && (phase.Finished? || phase.Finishing? ==> !claim.NoClaim?)
    && match word
       case Setup =>
         && resumes == 0
         && !phase.Suspended? && !phase.Finishing? && (phase.Finished? ==> claim.BySelf?)
         && (claim.BySelf? ==> phase.Finished? || (phase.Unlocking? && phase.ready))
         && (claim.BySelf? || claim.NoClaim? || (exchange && Registering(phase)))
       case Parked =>
         resumes == 0 && phase.Suspended? && (claim.NoClaim? || exchange)
       case Resumed =>
         && (claim.ByPeer? || claim.ByTimer?) && !exchange
         && (if phase.Suspended? then resumes == 0 && resume
             else if phase.Finishing? || phase.Finished? then resumes == 1 && !resume
             else resumes == 0 && !resume && Registering(phase))
  }

  ghost predicate WordOk(s: State) {
    && (s.claim.NoClaim? <==> s.winner.None?)
    && WordFits(s.phase, s.word, s.claim, s.resumes, ExchangePending(s), ResumePending(s))
  }

  ghost predicate PeerOk(s: State, p: Pid) {
    match PeerAt(s, p)
    case Out => true
    case Busy(c, op, won) =>
      LockOf(s, c) == Peer(p) && (won.Some? ==> s.claim == ByPeer(p) && s.winner == won)
    case Waking(i) => s.claim == ByPeer(p) && s.winner == Some(i)
  }

  ghost predicate TimerOk(s: State, i: nat) {
    var t := TimerAt(s, i);
    && (!t.Idle? ==> i < |s.cases| && s.cases[i].After?)
    && (t.Claimed? || t == Returning(true) || t == Fired(true) ==> s.claim == ByTimer(i) && s.winner == Some(i))
    && (!t.Idle? ==> match s.phase
                     case Arming(n) => i < n
                     case Committing => true
                     case Suspended => true
                     case Finishing(n) => i < n ==> t.Ended? || t == Fired(false)
                     case Finished => t.Ended? || t == Fired(false)
                     case _ => false)
  }

  /** The channels this select has locked, by phase. */
  predicate HoldsLock(s: State, c: Cid) {
    match s.phase
    case Locking(n) => n <= |s.order| && c in s.order[..n]
    case Scanning => c in s.order
    case Enqueuing(_) => c in s.order
    case Unlocking(n, _) => n <= |s.order| && c in s.order[..n]
    case _ => false
  }

  ghost predicate LockOk(s: State, c: Cid) {
    LockOf(s, c) == Self <==> HoldsLock(s, c)
  }

  ghost predicate LockOrderOk(cases: seq<Case>, order: seq<Cid>) {
    && LockOrder.StrictlySorted(order)
    && (forall i :: 0 <= i < |cases| && cases[i].On? ==> cases[i].chan in order)
  }

  ghost predicate PhaseFits(phase: Phase, locks: nat, cases: nat, claim: Claim) {
    && (match phase
        case Locking(n) => n <= locks
        case Unlocking(n, ready) => n <= locks && (ready <==> claim.BySelf?)
        case Enqueuing(n) => n <= cases
        case Arming(n) => n <= cases
        case Finishing(n) => n <= cases
        case _ => true)
    && (phase.Locking? || phase.Scanning? || phase.Enqueuing? ==> claim.NoClaim?)
  }

  ghost predicate ShapeOk(s: State) {
    && LockOrderOk(s.cases, s.order)
    && PhaseFits(s.phase, |s.order|, |s.cases|, s.claim)
    && (s.winner.Some? ==> s.winner.value < |s.cases|)
  }

  /** At most one value moved, on the winner's channel. */
  ghost predicate MovedOk(s: State) {
    s.moved == [] ||
    (s.winner.Some? && s.winner.value < |s.cases| && s.cases[s.winner.value].On?
     && s.moved == [s.cases[s.winner.value].chan])
  }

  ghost predicate Inv(s: State) {
    && ShapeOk(s)
    && WordOk(s)
    && (forall p: Pid :: PeerOk(s, p))
    && (forall i: nat :: TimerOk(s, i))
    && (forall c: Cid :: LockOk(s, c))
    && (forall c: Cid, side: bool :: QOk(s, c, side))
    && MovedOk(s)
  }

  // ---------------------------------------------------------------- proof

  predicate IsTimerAction(a: Action) {
    a.TimerFire? || a.TimerClaim? || a.TimerExchange? || a.TimerFired? || a.TimerResume?
  }

  predicate IsPeerAction(a: Action) {
    a.PeerLock? || a.PeerPop? || a.PeerAppend? || a.PeerRemove? || a.PeerUnlock? || a.PeerWake?
  }

  /** A peer at work on one of this select's channels finds it past its locked registration. */
  lemma PeerExcludesLocked(s: State, p: Pid, side: bool, i: nat)
    requires Inv(s) && PeerAt(s, p).Busy? && Mine(i) in Q(s.queues, PeerAt(s, p).chan, side)
    ensures i < |s.cases| && s.cases[i] == On(PeerAt(s, p).chan, side) && s.winner != Some(i)
    ensures !s.phase.Locking? && !s.phase.Scanning? && !s.phase.Enqueuing? && !s.phase.Finished?
    ensures s.phase.Unlocking? ==> !s.phase.ready
  {
    var c := PeerAt(s, p).chan;
    assert PeerOk(s, p) && LockOk(s, c);
    assert QOk(s, c, side);
  }

  predicate IsSetupAction(a: Action) {
    a.LockNext? || a.ReadyNow? || a.TakeDefault? || a.NothingReady? || a.EnqueueNext? || a.UnlockNext?
  }

  lemma SetupKeepsTimer(s: State, a: Action, i: nat)
    requires Enabled(s, a) && IsSetupAction(a) && WordOk(s) && TimerOk(s, i)
    ensures TimerOk(Apply(s, a), i)
  {
  }

  lemma OwnKeepsTimer(s: State, a: Action, i: nat)
    requires Enabled(s, a) && (a.ArmNext? || a.Commit? || a.RetractNext?) && WordOk(s) && TimerOk(s, i)
    ensures TimerOk(Apply(s, a), i)
  {
    if a.RetractNext? { RetractKeepsTimer(s, i); }
  }

  lemma RetractKeepsTimer(s: State, i: nat)
    requires Enabled(s, RetractNext) && WordOk(s) && TimerOk(s, i)
    ensures TimerOk(Apply(s, RetractNext), i)
  {
  }

  lemma PeerKeepsTimer(s: State, a: Action, i: nat)
    requires Enabled(s, a) && IsPeerAction(a) && WordOk(s) && TimerOk(s, i)
    ensures TimerOk(Apply(s, a), i)
  {
  }

  lemma TimerKeepsSelf(s: State, a: Action)
    requires Enabled(s, a) && IsTimerAction(a) && WordOk(s) && TimerOk(s, a.i)
    ensures TimerOk(Apply(s, a), a.i)
  {
    if a.TimerClaim? || a.TimerExchange? { ClaimKeepsTimer(s, a); }
  }

  lemma ClaimKeepsTimer(s: State, a: Action)
    requires Enabled(s, a) && (a.TimerClaim? || a.TimerExchange?) && TimerOk(s, a.i)
    ensures TimerOk(Apply(s, a), a.i)
  {
  }

  lemma TimerKeepsTimer(s: State, a: Action, i: nat)
    requires Enabled(s, a) && IsTimerAction(a) && WordOk(s) && TimerOk(s, i) && TimerOk(s, a.i)
    ensures TimerOk(Apply(s, a), i)
  {
    if i == a.i {
      TimerKeepsSelf(s, a);
    } else {
      assert TimerAt(Apply(s, a), i) == TimerAt(s, i);
    }
  }

  lemma OwnKeepsPeer(s: State, a: Action, p: Pid)
    requires Enabled(s, a) && !IsPeerAction(a) && !IsTimerAction(a) && WordOk(s) && ShapeOk(s) && PeerOk(s, p)
    requires PeerAt(s, p).Busy? ==> LockOk(s, PeerAt(s, p).chan)
    ensures PeerOk(Apply(s, a), p)
  {
  }

  lemma TimerKeepsPeer(s: State, a: Action, p: Pid)
    requires Enabled(s, a) && IsTimerAction(a) && WordOk(s) && PeerOk(s, p)
    ensures PeerOk(Apply(s, a), p)
  {
  }

  lemma PeerKeepsPeer(s: State, a: Action, p: Pid)
    requires Enabled(s, a) && IsPeerAction(a) && WordOk(s) && PeerOk(s, p) && PeerOk(s, a.p)
    ensures PeerOk(Apply(s, a), p)
  {
  }

  lemma LockNextKeepsLock(s: State, c: Cid)
    requires Enabled(s, LockNext) && ShapeOk(s) && LockOk(s, c)
    ensures LockOk(Apply(s, LockNext), c)
  {
    var n := s.phase.n;
    if n < |s.order| { assert s.order[..n + 1] == s.order[..n] + [s.order[n]]; }
    else { assert s.order[..n] == s.order; }
  }

  lemma UnlockNextKeepsLock(s: State, c: Cid)
    requires Enabled(s, UnlockNext) && ShapeOk(s) && LockOk(s, c)
    ensures LockOk(Apply(s, UnlockNext), c)
  {
    var n := s.phase.n;
    if n > 0 {
      assert s.order[..n] == s.order[..n - 1] + [s.order[n - 1]];
      assert s.order[n - 1] !in s.order[..n - 1];
    }
  }

  lemma OwnKeepsLock(s: State, a: Action, c: Cid)
    requires Enabled(s, a) && LockOk(s, c)
    requires !IsPeerAction(a) && !a.LockNext? && !a.UnlockNext? && !IsTimerAction(a)
    ensures LockOk(Apply(s, a), c)
  {
    assert s.order[..|s.order|] == s.order;
  }

  lemma PeerKeepsLock(s: State, a: Action, c: Cid)
    requires Enabled(s, a) && LockOk(s, c) && IsPeerAction(a) && PeerOk(s, a.p) && WordOk(s)
    ensures LockOk(Apply(s, a), c)
  {
  }

  lemma TimerKeepsLock(s: State, a: Action, c: Cid)
    requires Enabled(s, a) && LockOk(s, c) && IsTimerAction(a) && TimerOk(s, a.i) && WordOk(s)
    ensures LockOk(Apply(s, a), c)
  {
  }

  lemma SetupKeepsQueue(s: State, a: Action, c: Cid, side: bool)
    requires Enabled(s, a) && IsSetupAction(a) && !a.EnqueueNext? && ShapeOk(s) && WordOk(s) && QOk(s, c, side)
    ensures QOk(Apply(s, a), c, side)
  {
  }

  lemma EnqueueKeepsQueue(s: State, c: Cid, side: bool)
    requires Enabled(s, EnqueueNext) && ShapeOk(s) && WordOk(s) && QOk(s, c, side)
    ensures QOk(Apply(s, EnqueueNext), c, side)
  {
  }

  lemma OwnKeepsQueue(s: State, a: Action, c: Cid, side: bool)
    requires Enabled(s, a) && (a.ArmNext? || a.Commit?) && ShapeOk(s) && WordOk(s) && QOk(s, c, side)
    ensures QOk(Apply(s, a), c, side)
  {
  }

  lemma TimerKeepsQueue(s: State, a: Action, c: Cid, side: bool)
    requires Enabled(s, a) && IsTimerAction(a) && ShapeOk(s) && WordOk(s) && QOk(s, c, side) && TimerOk(s, a.i)
    ensures QOk(Apply(s, a), c, side)
  {
  }

  lemma RemoveOther(q: seq<Entry>, k: nat)
    requires k < |q| && q[k].Other? && Once(q)
    ensures Once(q[..k] + q[k + 1..]) && forall e :: e in q[..k] + q[k + 1..] ==> e in q
  {
  }

  lemma PeerKeepsQueue(s: State, a: Action, c: Cid, side: bool)
    requires Enabled(s, a) && (a.PeerLock? || a.PeerUnlock? || a.PeerWake?) && WordOk(s) && QOk(s, c, side)
    ensures QOk(Apply(s, a), c, side)
  {
    assert Apply(s, a).queues == s.queues && Apply(s, a).winner == s.winner;
  }

  /** Other waiters come and go; this select's entries stay where they are. */
  lemma OthersKeepQueue(s: State, a: Action, c: Cid, side: bool)
    requires Enabled(s, a) && (a.PeerAppend? || a.PeerRemove?) && QOk(s, c, side)
    ensures QOk(Apply(s, a), c, side)
  {
    var q := Q(s.queues, c, side);
    if a.PeerRemove? && c == PeerAt(s, a.p).chan && side == a.side {
      RemoveOther(q, a.at);
    }
  }

  /** A pop leaves the claimed waiter in no queue: it was in this one, once. */
  lemma PopKeepsQueue(s: State, p: Pid, popped: bool, c: Cid, side: bool)
    requires Enabled(s, PeerPop(p, popped)) && WordOk(s) && QOk(s, c, side) && QOk(s, PeerAt(s, p).chan, popped)
    ensures QOk(Apply(s, PeerPop(p, popped)), c, side)
  {
  }

  lemma {:induction false} WithoutIn(q: seq<Entry>, i: nat)
    ensures forall e :: e in Without(q, i) ==> e in q
  {
    if q != [] {
      WithoutIn(q[1..], i);
      assert forall e :: e in q <==> e == q[0] || e in q[1..];
    }
  }

  lemma {:induction false} WithoutRemoves(q: seq<Entry>, i: nat)
    requires Once(q)
    ensures Mine(i) !in Without(q, i) && Once(Without(q, i))
  {
    if q != [] {
      var r := q[1..];
      forall k, l | 0 <= k < l < |r| && r[k].Mine? ensures r[k] != r[l] {
        assert r[k] == q[k + 1] && r[l] == q[l + 1];
      }
      WithoutRemoves(r, i);
      WithoutIn(r, i);
      if q[0].Mine? {
        forall k | 0 <= k < |r| ensures r[k] != q[0] { assert r[k] == q[k + 1]; }
        assert q[0] !in r;
      }
    }
  }

  /** Retracting case n from its own queue, or passing over any other queue. */
  lemma RetractOne(cases: seq<Case>, n: nat, winner: Option<nat>, c: Cid, side: bool, q: seq<Entry>)
    requires n < |cases| && QueueOk(cases, Finishing(n), winner, c, side, q)
    ensures QueueOk(cases, Finishing(n + 1), winner, c, side,
                    if cases[n] == On(c, side) && winner != Some(n) then Without(q, n) else q)
  {
    if cases[n] == On(c, side) && winner != Some(n) {
      WithoutRemoves(q, n);
      WithoutIn(q, n);
      var r := Without(q, n);
      forall k | 0 <= k < |r| && r[k].Mine?
        ensures MayQueue(Finishing(n + 1), |cases|, r[k].i) && cases[r[k].i] == On(c, side) && winner != Some(r[k].i)
      {
        assert r[k] in q && r[k] in r;
      }
    }
  }

  lemma RetractKeepsQueue(s: State, c: Cid, side: bool)
    requires Enabled(s, RetractNext) && QOk(s, c, side)
    ensures QOk(Apply(s, RetractNext), c, side)
  {
    var n := s.phase.n;
    if n < |s.cases| {
      RetractOne(s.cases, n, s.winner, c, side, Q(s.queues, c, side));
    }
  }

  lemma RegisterKeepsWord(s: State, a: Action)
    requires Enabled(s, a) && (a.LockNext? || a.NothingReady? || a.EnqueueNext? || a.UnlockNext?)
    requires ShapeOk(s) && WordOk(s) && MovedOk(s)
    ensures var t := Apply(s, a); ShapeOk(t) && WordOk(t) && MovedOk(t)
  {
    var t := Apply(s, a);
    assert t == s.(phase := t.phase, locks := t.locks, queues := t.queues);
    assert ExchangePending(t) == ExchangePending(s) && ResumePending(t) == ResumePending(s);
  }

  lemma ReadyKeepsWord(s: State, a: Action)
    requires Enabled(s, a) && (a.ReadyNow? || a.TakeDefault?) && ShapeOk(s) && WordOk(s) && MovedOk(s)
    ensures var t := Apply(s, a); ShapeOk(t) && WordOk(t) && MovedOk(t)
  {
  }

  lemma ArmKeepsWord(s: State)
    requires Enabled(s, ArmNext) && ShapeOk(s) && WordOk(s) && MovedOk(s) && TimerOk(s, s.phase.n)
    requires s.claim.ByTimer? ==> TimerOk(s, s.claim.i)
    ensures var t := Apply(s, ArmNext); ShapeOk(t) && WordOk(t) && MovedOk(t)
  {
    var t := Apply(s, ArmNext);
    assert t == s.(phase := t.phase, timers := t.timers);
    assert ExchangePending(t) == ExchangePending(s) && ResumePending(t) == ResumePending(s);
  }

  lemma CommitKeepsWord(s: State)
    requires Enabled(s, Commit) && ShapeOk(s) && WordOk(s) && MovedOk(s)
    ensures var t := Apply(s, Commit); ShapeOk(t) && WordOk(t) && MovedOk(t)
  {
  }

  lemma RetractKeepsWord(s: State)
    requires Enabled(s, RetractNext) && ShapeOk(s) && WordOk(s) && MovedOk(s)
    requires s.claim.ByTimer? ==> TimerOk(s, s.claim.i)
    ensures var t := Apply(s, RetractNext); ShapeOk(t) && WordOk(t) && MovedOk(t)
  {
    var t := Apply(s, RetractNext);
    assert t == s.(phase := t.phase, queues := t.queues, timers := t.timers);
    assert s.claim.ByTimer? ==> TimerAt(t, s.claim.i) == TimerAt(s, s.claim.i) || TimerAt(s, s.claim.i).Armed?;
    assert ExchangePending(t) == ExchangePending(s) && ResumePending(t) == ResumePending(s);
  }

  lemma PopKeepsWord(s: State, p: Pid, side: bool)
    requires Enabled(s, PeerPop(p, side)) && ShapeOk(s) && WordOk(s) && MovedOk(s) && PeerOk(s, p)
    requires var q := Q(s.queues, PeerAt(s, p).chan, side);
             q[0].Mine? ==>
               && q[0].i < |s.cases| && s.cases[q[0].i] == On(PeerAt(s, p).chan, side)
               && (Registering(s.phase) || s.phase.Suspended? || s.winner.Some?)
    ensures var t := Apply(s, PeerPop(p, side)); ShapeOk(t) && WordOk(t) && MovedOk(t)
  {
    assert s.winner.None? ==> s.claim.NoClaim?;
  }

  lemma WakeKeepsWord(s: State, p: Pid)
    requires Enabled(s, PeerWake(p)) && ShapeOk(s) && WordOk(s) && MovedOk(s) && PeerOk(s, p)
    ensures var t := Apply(s, PeerWake(p)); ShapeOk(t) && WordOk(t) && MovedOk(t)
  {
  }

  /** What a peer does to its lock and to other waiters leaves the select's word and claim alone. */
  lemma PeerKeepsWord(s: State, a: Action)
    requires Enabled(s, a) && (a.PeerLock? || a.PeerAppend? || a.PeerRemove? || a.PeerUnlock?)
    requires ShapeOk(s) && WordOk(s) && MovedOk(s) && PeerOk(s, a.p)
    ensures ShapeOk(Apply(s, a)) && WordOk(Apply(s, a)) && MovedOk(Apply(s, a))
  {
    var t := Apply(s, a);
    assert t == s.(locks := t.locks, queues := t.queues, peers := t.peers);
    assert ExchangePending(t) == ExchangePending(s) && ResumePending(t) == ResumePending(s);
  }

  lemma TimerKeepsWord(s: State, a: Action)
    requires Enabled(s, a) && (a.TimerFire? || a.TimerFired? || a.TimerResume?)
    requires ShapeOk(s) && WordOk(s) && MovedOk(s) && TimerOk(s, a.i)
    ensures ShapeOk(Apply(s, a)) && WordOk(Apply(s, a)) && MovedOk(Apply(s, a))
  {
    if a.TimerResume? { TimerResumeKeepsWord(s, a.i); }
  }

  lemma TimerResumeKeepsWord(s: State, i: nat)
    requires Enabled(s, TimerResume(i)) && ShapeOk(s) && WordOk(s) && MovedOk(s) && TimerOk(s, i)
    ensures var t := Apply(s, TimerResume(i)); ShapeOk(t) && WordOk(t) && MovedOk(t)
  {
  }

  lemma TimerClaimKeepsWord(s: State, a: Action)
    requires Enabled(s, a) && (a.TimerClaim? || a.TimerExchange?)
    requires ShapeOk(s) && WordOk(s) && MovedOk(s) && TimerOk(s, a.i)
    ensures ShapeOk(Apply(s, a)) && WordOk(Apply(s, a)) && MovedOk(Apply(s, a))
  {
  }

  lemma KeepsWord(s: State, a: Action)
    requires Inv(s) && Enabled(s, a)
    ensures ShapeOk(Apply(s, a)) && WordOk(Apply(s, a)) && MovedOk(Apply(s, a))
  {
    if IsSetupAction(a) {
      if a.ReadyNow? || a.TakeDefault? { ReadyKeepsWord(s, a); } else { RegisterKeepsWord(s, a); }
    } else if IsTimerAction(a) {
      assert TimerOk(s, a.i);
      if a.TimerClaim? || a.TimerExchange? { TimerClaimKeepsWord(s, a); } else { TimerKeepsWord(s, a); }
    } else if IsPeerAction(a) {
      assert PeerOk(s, a.p);
      if a.PeerPop? {
        var q := Q(s.queues, PeerAt(s, a.p).chan, a.side);
        assert QOk(s, PeerAt(s, a.p).chan, a.side);
        if q[0].Mine? { PeerExcludesLocked(s, a.p, a.side, q[0].i); }
        PopKeepsWord(s, a.p, a.side);
      } else if a.PeerWake? {
        WakeKeepsWord(s, a.p);
      } else {
        PeerKeepsWord(s, a);
      }
    } else {
      if s.claim.ByTimer? { assert TimerOk(s, s.claim.i); }
      if a.ArmNext? { assert TimerOk(s, s.phase.n); ArmKeepsWord(s); }
      else if a.Commit? { CommitKeepsWord(s); }
      else { RetractKeepsWord(s); }
    }
  }

  lemma KeepsTimer(s: State, a: Action, i: nat)
    requires Inv(s) && Enabled(s, a)
    ensures TimerOk(Apply(s, a), i)
  {
    assert TimerOk(s, i);
    if IsSetupAction(a) { SetupKeepsTimer(s, a, i); }
    else if IsPeerAction(a) { PeerKeepsTimer(s, a, i); }
    else if IsTimerAction(a) { assert TimerOk(s, a.i); TimerKeepsTimer(s, a, i); }
    else { OwnKeepsTimer(s, a, i); }
  }

  lemma KeepsPeer(s: State, a: Action, p: Pid)
    requires Inv(s) && Enabled(s, a)
    ensures PeerOk(Apply(s, a), p)
  {
    assert PeerOk(s, p);
    if IsPeerAction(a) { assert PeerOk(s, a.p); PeerKeepsPeer(s, a, p); }
    else if IsTimerAction(a) { TimerKeepsPeer(s, a, p); }
    else {
      if PeerAt(s, p).Busy? { assert LockOk(s, PeerAt(s, p).chan); }
      OwnKeepsPeer(s, a, p);
    }
  }

  lemma KeepsLock(s: State, a: Action, c: Cid)
    requires Inv(s) && Enabled(s, a)
    ensures LockOk(Apply(s, a), c)
  {
    assert LockOk(s, c);
    if a.LockNext? { LockNextKeepsLock(s, c); }
    else if a.UnlockNext? { UnlockNextKeepsLock(s, c); }
    else if IsPeerAction(a) { assert PeerOk(s, a.p); PeerKeepsLock(s, a, c); }
    else if IsTimerAction(a) { assert TimerOk(s, a.i); TimerKeepsLock(s, a, c); }
    else { OwnKeepsLock(s, a, c); }
  }

  lemma KeepsQueue(s: State, a: Action, c: Cid, side: bool)
    requires Inv(s) && Enabled(s, a)
    ensures QOk(Apply(s, a), c, side)
  {
    assert QOk(s, c, side);
    if a.EnqueueNext? { EnqueueKeepsQueue(s, c, side); }
    else if IsSetupAction(a) { SetupKeepsQueue(s, a, c, side); }
    else if a.PeerPop? { assert QOk(s, PeerAt(s, a.p).chan, a.side); PopKeepsQueue(s, a.p, a.side, c, side); }
    else if a.PeerAppend? || a.PeerRemove? { OthersKeepQueue(s, a, c, side); }
    else if IsPeerAction(a) { PeerKeepsQueue(s, a, c, side); }
    else if a.RetractNext? { RetractKeepsQueue(s, c, side); }
    else if IsTimerAction(a) { assert TimerOk(s, a.i); TimerKeepsQueue(s, a, c, side); }
    else { OwnKeepsQueue(s, a, c, side); }
  }

  lemma StepKeeps(s: State, a: Action)
    requires Inv(s) && Enabled(s, a)
    ensures Inv(Apply(s, a))
  {
    var t := Apply(s, a);
    KeepsWord(s, a);
    forall p: Pid ensures PeerOk(t, p) { KeepsPeer(s, a, p); }
    forall i: nat ensures TimerOk(t, i) { KeepsTimer(s, a, i); }
    forall c: Cid ensures LockOk(t, c) { KeepsLock(s, a, c); }
    forall c: Cid, side: bool ensures QOk(t, c, side) { KeepsQueue(s, a, c, side); }
  }

  lemma RunKeeps(run: seq<State>, k: nat)
    requires Traces.IsRun(Init, Next, run) && k < |run|
    ensures Inv(run[k])
  {
    forall s | Init(s) ensures Inv(s) { InitKeeps(s); }
    forall s, t | Inv(s) && Next(s, t) ensures Inv(t) {
      var a :| Enabled(s, a) && t == Apply(s, a);
      StepKeeps(s, a);
    }
    Traces.InductiveHolds(Init, Next, Inv, run, k);
  }

  lemma InitKeeps(s: State)
    requires Init(s)
    ensures Inv(s)
  {
    forall c: Cid ensures LockOk(s, c) { assert LockOf(s, c) == Free; }
    forall c: Cid, side: bool ensures QOk(s, c, side) {
      assert forall i :: 0 <= i < |Q(s.queues, c, side)| ==> Q(s.queues, c, side)[i] == Other;
    }
  }

  // -------------------------------------------------------------- results

  lemma WinnerStays(s: State, a: Action)
    requires ShapeOk(s) && WordOk(s) && Enabled(s, a) && s.winner.Some?
    ensures Apply(s, a).winner == s.winner && Apply(s, a).claim == s.claim
  {
    if IsPeerAction(a) {} else if IsTimerAction(a) {} else if IsSetupAction(a) {}
  }

  lemma WinnerNext(s: State, t: State)
    requires Inv(s) && Next(s, t)
    ensures Inv(t) && (s.winner.Some? ==> t.winner == s.winner && t.claim == s.claim)
  {
    var a :| Enabled(s, a) && t == Apply(s, a);
    StepKeeps(s, a);
    if s.winner.Some? { WinnerStays(s, a); }
  }

  /** The winner is decided once: no later state of the run changes it, and the claimant is fixed with it. */
  lemma WinnerIsFinal(run: seq<State>, i: nat, j: nat)
    requires Traces.IsRun(Init, Next, run) && i <= j < |run| && run[i].winner.Some?
    ensures run[j].winner == run[i].winner && run[j].claim == run[i].claim
  {
    var winner, claim := run[i].winner, run[i].claim;
    var decided := (s: State) => s.winner == winner && s.claim == claim;
    var never := (s: State, t: State) => false;
    forall s | Init(s) ensures Inv(s) { InitKeeps(s); }
    forall s, t | Inv(s) && Next(s, t) ensures Inv(t) && (decided(s) ==> decided(t) || never(s, t)) {
      WinnerNext(s, t);
    }
    Traces.HoldsUntil(Init, Next, Inv, decided, never, run, i, j);
  }

  /** Values move only on the winner's channel, at most once, in every run. */
  lemma MovesOnlyOnWinner(run: seq<State>, k: nat)
    requires Traces.IsRun(Init, Next, run) && k < |run|
    ensures run[k].moved != [] ==>
            && run[k].winner.Some? && run[k].winner.value < |run[k].cases| && run[k].cases[run[k].winner.value].On?
            && run[k].moved == [run[k].cases[run[k].winner.value].chan]
  {
    RunKeeps(run, k);
  }

  /**
   A select that waits for a channel's lock holds exactly the channels before it in
   address order, which is what LockOrder.NoDeadlock asks of every select of a chain.
   */
  lemma LocksInAddressOrder(run: seq<State>, k: nat)
    requires Traces.IsRun(Init, Next, run) && k < |run| && run[k].phase.Locking? && run[k].phase.n < |run[k].order|
    ensures LockOrder.WaitingOk(LockOrder.Waiting(run[k].order, run[k].phase.n))
    ensures forall c: Cid :: LockOf(run[k], c) == Self <==> c in run[k].order[..run[k].phase.n]
    ensures forall c: Cid :: LockOf(run[k], c) == Self ==> c < run[k].order[run[k].phase.n]
  {
    RunKeeps(run, k);
    var s := run[k];
    forall c: Cid
      ensures LockOf(s, c) == Self <==> c in s.order[..s.phase.n]
      ensures LockOf(s, c) == Self ==> c < s.order[s.phase.n]
    {
      assert LockOk(s, c);
    }
  }

  /**
   Resumed exactly once. In every run the select goes on at most once; a select
   that registered and finished has gone on exactly once, after its case was won;
   and while it is suspended with a winner decided, exactly its claimant still has
   to take resume ownership or to schedule it.
   */
  lemma ResumedExactlyOnce(run: seq<State>, k: nat)
    requires Traces.IsRun(Init, Next, run) && k < |run|
    ensures run[k].resumes <= 1
    ensures run[k].phase.Finishing? || (run[k].phase.Finished? && !run[k].claim.BySelf?) ==>
              run[k].resumes == 1 && run[k].winner.Some? && run[k].word == Resumed
    ensures run[k].phase.Suspended? && run[k].winner.Some? ==> ExchangePending(run[k]) != ResumePending(run[k])
  {
    RunKeeps(run, k);
  }

  /** Nobody resumes a select that is still registering: a waker that wins early leaves it to Commit. */
  lemma EarlyWinnerLeavesResumeToSetup(run: seq<State>, k: nat, a: Action)
    requires Traces.IsRun(Init, Next, run) && k < |run| && Enabled(run[k], a) && Registering(run[k].phase)
    ensures Apply(run[k], a).resumes > run[k].resumes ==> a.Commit? && run[k].word == Resumed && run[k].winner.Some?
  {
    RunKeeps(run, k);
    assert IsTimerAction(a) ==> TimerOk(run[k], a.i);
  }

  /**
   After finish() nothing refers to the select: none of its waiters is queued in
   any channel, no timer of it is armed or firing, and no peer is about to wake it.
   */
  lemma FinishedLeavesNothing(run: seq<State>, k: nat, c: Cid, side: bool, i: nat, p: Pid)
    requires Traces.IsRun(Init, Next, run) && k < |run| && run[k].phase.Finished?
    ensures Mine(i) !in Q(run[k].queues, c, side)
    ensures TimerAt(run[k], i).Idle? || TimerAt(run[k], i).Ended? || TimerAt(run[k], i) == Fired(false)
    ensures PeerAt(run[k], p).Out? || (PeerAt(run[k], p).Busy? && PeerAt(run[k], p).won.None?)
  {
    RunKeeps(run, k);
    assert QOk(run[k], c, side) && TimerOk(run[k], i) && PeerOk(run[k], p);
  }
}
