/**
 The per-direction operation lock of a reactor descriptor: an owner word tagged
 with the descriptor's generation, a FIFO of waiters, a pin, and the reference
 count that keeps the slab slot from being recycled. The lock-free exchanges on
 the owner word, the unlocked validation, reference drops, and every section
 under the lifecycle lock are one step each; between such steps any other task
 may run, including tasks that captured the generation of an earlier incarnation
 of the slot. I/O waits, event dispatch and deadline setters appear as `other`
 references.

 History: `holder` is the task the current incarnation's owner word belongs to,
 `stale` the last task to claim the word for an earlier incarnation, `drops` the
 tasks that owe a reference drop, `hander` the task whose release chose the latest
 waiter, `arrivals` and `grants` the order in which this incarnation's tasks
 queued and were handed the lock.
 */
module OperationLock {
  import opened Prelude
  import Traces

  type Tid = nat

  /** The owner word: zero, or a generation's tag with the low bit. */
  datatype Word = Idle | Owned(gen: nat, low: bool)

  datatype Phase =
    | Out
    | Claimed(gen: nat, foreign: bool)     // owner word taken, incarnation not yet validated
    | Contending(gen: nat, foreign: bool)  // lock-free attempt missed
    | Queued(gen: nat)                     // in the FIFO, holding its own reference
    | Chosen(gen: nat)                     // unlinked by a release, not yet resumed
    | Guard(gen: nat)                      // holds an IoOperationGuard
    | Rejected(gen: nat)                   // validation failed; gives the word back
    | Releasing(gen: nat)                  // fast release missed; lifecycle lock next
    | Dropping(next: Option<Tid>)          // owes a reference drop, then resumes next
    | Handing(next: Option<Tid>)

  datatype State = State(gen: nat, closing: bool, base: bool, refs: nat, other: nat, freeing: bool,
                         owner: Word, pinned: bool, lifetime: bool, queue: seq<Tid>, tasks: map<Tid, Phase>,
                         holder: Tid, hander: Tid, stale: Tid, drops: set<Tid>, arrivals: seq<Tid>, grants: seq<Tid>)

  datatype Action =
    | Attach | Close | Detach | Free
    | OtherAcquire | OtherRelease
    | Claim(t: Tid, g: nat, away: bool, wait: bool)  // await_ready(), or try_lock when !wait
    | Validate(t: Tid, failing: bool)                // failing: shutdown, cancellation or deadline
    | Contend(t: Tid, failing: bool)
    | FastRelease(t: Tid) | SlowRelease(t: Tid)
    | Drop(t: Tid) | Hand(t: Tid)

  /** (generation + 1) << 1, plus the low bit; zero when idle. */
  function Encode(w: Word): nat {
    match w
    case Idle => 0
    case Owned(g, low) => (g + 1) * 2 + (if low then 1 else 0)
  }

  /** The source's integer comparisons on the word decide exactly the comparisons made here. */
  lemma EncodingIsFaithful(v: Word, w: Word)
    ensures Encode(v) == Encode(w) <==> v == w
  {
    if v.Owned? && w.Owned? && Encode(v) == Encode(w) {
      assert Encode(v) % 2 == (if v.low then 1 else 0);
      assert Encode(w) % 2 == (if w.low then 1 else 0);
    }
  }

  function At(m: map<Tid, Phase>, t: Tid): Phase {
    if t in m then m[t] else Out
  }

  ghost predicate Init(s: State) {
    && s.closing && !s.base && s.refs == 0 && s.other == 0 && !s.freeing
    && s.owner == Idle && !s.pinned && !s.lifetime && s.queue == [] && s.tasks == map[]
    && s.drops == {} && s.arrivals == [] && s.grants == []
  }

  predicate Enabled(s: State, a: Action) {
    match a
    case Attach => s.closing && !s.base && s.refs == 0 && !s.freeing
    case Close => s.base && !s.closing
    case Detach => s.base && s.closing && s.refs > 0
    case Free => s.freeing
    case OtherAcquire => s.refs > 0
    case OtherRelease => s.other > 0 && s.refs > 0
    case Claim(t, g, _, _) => At(s.tasks, t).Out? && g <= s.gen
    case Validate(t, _) => At(s.tasks, t).Claimed?
    case Contend(t, _) => At(s.tasks, t).Contending?
    case FastRelease(t) => At(s.tasks, t).Guard? || At(s.tasks, t).Rejected?
    case SlowRelease(t) => At(s.tasks, t).Releasing?
    case Drop(t) => At(s.tasks, t).Dropping? && s.refs > 0
    case Hand(t) => At(s.tasks, t).Handing?
  }

  predicate TaggedWith(w: Word, g: nat) {
    w.Owned? && w.gen == g
  }

  function Goto(s: State, t: Tid, p: Phase): State {
    s.(tasks := s.tasks[t := p])
  }

  /** release_desc(): the drop that reaches zero goes on to free the slot. */
  function DropRef(s: State): State
    requires s.refs > 0
  {
    s.(refs := s.refs - 1, freeing := s.refs == 1)
  }

  /** io_error(): closed or recycled, or one of the conditions outside this model. */
  predicate IoError(s: State, g: nat, failing: bool) {
    s.gen != g || s.closing || failing
  }

  function Pin(s: State): State {
    if s.pinned then s else s.(pinned := true, refs := s.refs + 1)
  }

  /** publish_operation_lifetime_locked() */
  function Foreign(s: State, g: nat): State {
    Pin(s).(lifetime := true, owner := Owned(g, true))
  }

  function ValidateStep(s: State, t: Tid, failing: bool): State
    requires At(s.tasks, t).Claimed?
  {
    var p := At(s.tasks, t);
    if IoError(s, p.gen, failing) || (p.foreign && !TaggedWith(s.owner, p.gen)) then
      Goto(s, t, Rejected(p.gen))
    else if p.foreign then Goto(Foreign(s, p.gen), t, Guard(p.gen))
    else Goto(s, t, Guard(p.gen))
  }

  /** await_suspend() under the lifecycle lock. */
  function ContendStep(s: State, t: Tid, failing: bool): State
    requires At(s.tasks, t).Contending?
  {
    var p := At(s.tasks, t);
    if IoError(s, p.gen, failing) then Goto(s, t, Out)
    else if s.owner == Idle then
      var s' := s.(owner := Owned(p.gen, false), holder := t);
      Goto(if p.foreign then Foreign(s', p.gen) else s', t, Guard(p.gen))
    else if !TaggedWith(s.owner, p.gen) then Goto(s, t, Out)
    else
      var s' := Pin(s.(owner := Owned(p.gen, true)));
      Goto(s'.(refs := s'.refs + 1, lifetime := s.lifetime || p.foreign,
               queue := s.queue + [t], arrivals := s.arrivals + [t]),
           t, Queued(p.gen))
  }

  /** release_operation() under the lifecycle lock. */
  function SlowReleaseStep(s: State, t: Tid): State
    requires At(s.tasks, t).Releasing?
  {
    var g := At(s.tasks, t).gen;
    if s.gen != g then Goto(s, t, Out)
    else
      var next := if s.queue == [] then None else Some(s.queue[0]);
      var s' := if s.pinned then Goto(s.(drops := s.drops + {t}), t, Dropping(next)) else Goto(s, t, Handing(next));
      if s.queue != [] then
        var n := s.queue[0];
        Goto(s'.(queue := s.queue[1..], holder := n, hander := t, grants := s.grants + [n]), n, Chosen(g))
      else
        s'.(owner := Idle, pinned := false, lifetime := false)
  }

  function Apply(s: State, a: Action): State
    requires Enabled(s, a)
  {
    match a
    case Attach => s.(closing := false, base := true, refs := 1)
    case Close => s.(closing := true)
    case Detach => DropRef(s.(base := false))
    case Free =>
      s.(gen := s.gen + 1, closing := true, owner := Idle, freeing := false, arrivals := [], grants := [])
    case OtherAcquire => s.(other := s.other + 1, refs := s.refs + 1)
    case OtherRelease => DropRef(s.(other := s.other - 1))
    case Claim(t, g, foreign, wait) =>
      if s.owner == Idle then
        Goto(s.(owner := Owned(g, false), holder := if g == s.gen then t else s.holder,
                stale := if g == s.gen then s.stale else t), t, Claimed(g, foreign))
      else Goto(s, t, if wait then Contending(g, foreign) else Out)
    case Validate(t, failing) => ValidateStep(s, t, failing)
    case Contend(t, failing) => ContendStep(s, t, failing)
    case FastRelease(t) =>
      var g := At(s.tasks, t).gen;
      if s.owner == Owned(g, false) then Goto(s.(owner := Idle), t, Out) else Goto(s, t, Releasing(g))
    case SlowRelease(t) => SlowReleaseStep(s, t)
    case Drop(t) => Goto(DropRef(s.(drops := s.drops - {t})), t, Handing(At(s.tasks, t).next))
    case Hand(t) =>
      var next := At(s.tasks, t).next;
      var s' := Goto(s, t, Out);
      if next.Some? && At(s.tasks, next.value).Chosen? then Goto(s', next.value, Guard(At(s.tasks, next.value).gen))
      else s'
  }

  ghost predicate Next(s: State, t: State) {
    exists a :: Enabled(s, a) && t == Apply(s, a)
  }

  // ------------------------------------------------------------ invariant

  /** The task owns the owner word for generation g, validated or not. */
  predicate HoldsFor(p: Phase, g: nat) {
    match p
    case Claimed(h, _) => h == g
    case Guard(h) => h == g
    case Rejected(h) => h == g
    case Releasing(h) => h == g
    case Chosen(h) => h == g
    case _ => false
  }

  ghost predicate TaskOk(s: State, t: Tid) {
    var p := At(s.tasks, t);
    && (HoldsFor(p, s.gen) ==> t == s.holder && TaggedWith(s.owner, s.gen))
    && (t in s.queue <==> p.Queued?)
    && (t in s.drops <==> p.Dropping?)
    && match p
       case Claimed(g, _) => g <= s.gen
       case Contending(g, _) => g <= s.gen
       case Queued(g) => g == s.gen
       case Chosen(g) => g == s.gen && s.owner == Owned(g, true) && HandsTo(At(s.tasks, s.hander), t)
       case Guard(g) => g <= s.gen
       case Rejected(g) => g <= s.gen
       case Releasing(g) => g <= s.gen && (g == s.gen ==> s.owner == Owned(g, true))
       case Dropping(next) => next.Some? ==> t == s.hander && next.value == s.holder && At(s.tasks, s.holder).Chosen?
       case Handing(next) => next.Some? ==> t == s.hander && next.value == s.holder && At(s.tasks, s.holder).Chosen?
       case _ => true
  }

  /** p will resume exactly task n. */
  predicate HandsTo(p: Phase, n: Tid) {
    p == Dropping(Some(n)) || p == Handing(Some(n))
  }

  function One(b: bool): nat {
    if b then 1 else 0
  }

  /** Every reference is accounted for. */
  ghost predicate CountOk(s: State) {
    && (!s.closing ==> s.base)
    && (s.freeing ==> s.closing && !s.base && s.refs == 0)
    && s.refs == One(s.base) + s.other + One(s.pinned) + |s.queue| + |s.drops|
  }

  /** The low bit of the owner word is the pin, and only the current incarnation is ever pinned. */
  ghost predicate WordOk(s: State) {
    && (s.pinned <==> s.owner == Owned(s.gen, true))
    && (s.owner.Owned? ==> s.owner.gen <= s.gen && (s.owner.low ==> s.pinned))
    && (s.lifetime ==> s.pinned)
    && (s.queue != [] ==> s.pinned)
    && (TaggedWith(s.owner, s.gen) ==> HoldsFor(At(s.tasks, s.holder), s.gen))
    && (StaleWord(s) ==> PassingClaim(At(s.tasks, s.stale), s.owner.gen))
  }

  /** The owner word carries the tag of an earlier incarnation. */
  predicate StaleWord(s: State) {
    s.owner.Owned? && s.owner.gen < s.gen
  }

  /** The task has claimed the word for generation g and is yet to give it back. */
  predicate PassingClaim(p: Phase, g: nat) {
    (p.Claimed? || p.Rejected?) && p.gen == g
  }

  ghost predicate FifoOk(s: State) {
    Distinct(s.queue) && s.grants + s.queue == s.arrivals
  }

  ghost predicate DescOk(s: State) {
    CountOk(s) && WordOk(s) && FifoOk(s)
  }

  ghost predicate Inv(s: State) {
    && DescOk(s)
    && (forall t: Tid :: TaskOk(s, t))
  }

  // ---------------------------------------------------------------- proof

  lemma DescStepKeeps(s: State, a: Action)
    requires Inv(s) && Enabled(s, a)
    requires a.Attach? || a.Close? || a.Detach? || a.OtherAcquire? || a.OtherRelease?
    ensures Inv(Apply(s, a))
  {
    var s' := Apply(s, a);
    assert s'.tasks == s.tasks;
    forall t: Tid ensures TaskOk(s', t) { assert TaskOk(s, t); }
  }

  /** free_desc(): its asserts hold, and no task of the new generation exists yet. */
  lemma FreeKeeps(s: State)
    requires Inv(s) && Enabled(s, Free)
    ensures !s.pinned && s.queue == [] && !s.lifetime
    ensures Inv(Apply(s, Free))
  {
    var s' := Apply(s, Free);
    assert |s.queue| == 0 && |s.drops| == 0;
    forall t: Tid ensures TaskOk(s', t) { assert TaskOk(s, t); }
  }

  predicate IsTaskAction(a: Action) {
    a.Claim? || a.Validate? || a.Contend? || a.FastRelease? || a.SlowRelease? || a.Drop? || a.Hand?
  }

  /** The facts a step of task t uses: its own, the holder's and the hander's. */
  ghost predicate Around(s: State, t: Tid) {
    DescOk(s) && TaskOk(s, t) && TaskOk(s, s.holder) && TaskOk(s, s.hander)
  }

  lemma ClaimKeepsDesc(s: State, t: Tid, g: nat, away: bool, wait: bool)
    requires Enabled(s, Claim(t, g, away, wait)) && Around(s, t)
    ensures DescOk(Apply(s, Claim(t, g, away, wait)))
  {
    var s' := Apply(s, Claim(t, g, away, wait));
    assert s'.queue == s.queue && s'.drops == s.drops && CountOk(s') && FifoOk(s');
  }

  lemma ClaimKeepsSelf(s: State, t: Tid, g: nat, away: bool, wait: bool)
    requires Enabled(s, Claim(t, g, away, wait)) && Around(s, t)
    ensures TaskOk(Apply(s, Claim(t, g, away, wait)), t)
  {
  }

  lemma ClaimKeepsOther(s: State, t: Tid, g: nat, away: bool, wait: bool, u: Tid)
    requires Enabled(s, Claim(t, g, away, wait)) && Around(s, t) && TaskOk(s, u) && u != t
    ensures TaskOk(Apply(s, Claim(t, g, away, wait)), u)
  {
    assert At(Apply(s, Claim(t, g, away, wait)).tasks, u) == At(s.tasks, u);
  }

  lemma ValidateKeepsDesc(s: State, t: Tid, failing: bool)
    requires Enabled(s, Validate(t, failing)) && Around(s, t)
    ensures DescOk(Apply(s, Validate(t, failing)))
  {
  }

  lemma ValidateKeepsTask(s: State, t: Tid, failing: bool, u: Tid)
    requires Enabled(s, Validate(t, failing)) && Around(s, t) && TaskOk(s, u)
    ensures TaskOk(Apply(s, Validate(t, failing)), u)
  {
  }

  lemma ContendKeepsDesc(s: State, t: Tid, failing: bool)
    requires Enabled(s, Contend(t, failing)) && Around(s, t)
    ensures DescOk(Apply(s, Contend(t, failing)))
  {
    ContendKeepsWord(s, t, failing);
    ContendKeepsCount(s, t, failing);
  }

  lemma ContendKeepsWord(s: State, t: Tid, failing: bool)
    requires Enabled(s, Contend(t, failing)) && Around(s, t)
    ensures WordOk(Apply(s, Contend(t, failing)))
  {
  }

  lemma ContendKeepsCount(s: State, t: Tid, failing: bool)
    requires Enabled(s, Contend(t, failing)) && DescOk(s) && TaskOk(s, t)
    ensures CountOk(Apply(s, Contend(t, failing))) && FifoOk(Apply(s, Contend(t, failing)))
  {
  }

  lemma ContendKeepsTask(s: State, t: Tid, failing: bool, u: Tid)
    requires Enabled(s, Contend(t, failing)) && Around(s, t) && TaskOk(s, u)
    ensures TaskOk(Apply(s, Contend(t, failing)), u)
  {
    if u != t { assert At(Apply(s, Contend(t, failing)).tasks, u) == At(s.tasks, u); }
  }

  lemma FastReleaseKeepsDesc(s: State, t: Tid)
    requires Enabled(s, FastRelease(t)) && Around(s, t)
    ensures DescOk(Apply(s, FastRelease(t)))
  {
  }

  lemma FastReleaseKeepsTask(s: State, t: Tid, u: Tid)
    requires Enabled(s, FastRelease(t)) && Around(s, t) && TaskOk(s, u)
    ensures TaskOk(Apply(s, FastRelease(t)), u)
  {
    if u != t { assert At(Apply(s, FastRelease(t)).tasks, u) == At(s.tasks, u); }
  }

  lemma DropKeeps(s: State, t: Tid, u: Tid)
    requires Enabled(s, Drop(t)) && Around(s, t) && TaskOk(s, u)
    ensures var s' := Apply(s, Drop(t)); DescOk(s') && TaskOk(s', u)
  {
  }

  /** A release by the current holder with nobody queued. */
  lemma SlowReleaseIdleKeepsDesc(s: State, t: Tid)
    requires Enabled(s, SlowRelease(t)) && Around(s, t)
    requires s.queue == [] || s.gen != At(s.tasks, t).gen
    ensures DescOk(Apply(s, SlowRelease(t)))
  {
  }

  lemma SlowReleaseIdleKeepsTask(s: State, t: Tid, u: Tid)
    requires Enabled(s, SlowRelease(t)) && Around(s, t) && TaskOk(s, u)
    requires s.queue == [] || s.gen != At(s.tasks, t).gen
    ensures TaskOk(Apply(s, SlowRelease(t)), u)
  {
    if u != t { SlowReleaseIdleKeepsOther(s, t, u); }
  }

  lemma SlowReleaseIdleKeepsOther(s: State, t: Tid, u: Tid)
    requires Enabled(s, SlowRelease(t)) && Around(s, t) && TaskOk(s, u) && u != t
    requires s.queue == [] || s.gen != At(s.tasks, t).gen
    ensures TaskOk(Apply(s, SlowRelease(t)), u)
  {
    assert At(Apply(s, SlowRelease(t)).tasks, u) == At(s.tasks, u);
  }

  lemma SlowReleaseHandsKeepsDesc(s: State, t: Tid)
    requires Enabled(s, SlowRelease(t)) && Around(s, t)
    requires s.queue != [] && s.gen == At(s.tasks, t).gen && TaskOk(s, s.queue[0])
    ensures DescOk(Apply(s, SlowRelease(t)))
  {
    assert s.queue[0] in s.queue;
    SlowReleaseHandsKeepsCount(s, t);
    SlowReleaseHandsKeepsFifo(s, t);
  }

  lemma SlowReleaseHandsKeepsCount(s: State, t: Tid)
    requires Enabled(s, SlowRelease(t)) && CountOk(s) && t !in s.drops
    requires s.queue != [] && s.gen == At(s.tasks, t).gen && s.pinned
    ensures CountOk(Apply(s, SlowRelease(t)))
  {
  }

  lemma TakeFirst(grants: seq<Tid>, queue: seq<Tid>)
    requires queue != [] && Distinct(queue)
    ensures Distinct(queue[1..]) && (grants + [queue[0]]) + queue[1..] == grants + queue
  {
  }

  lemma SlowReleaseHandsKeepsFifo(s: State, t: Tid)
    requires Enabled(s, SlowRelease(t)) && FifoOk(s) && s.queue != [] && s.gen == At(s.tasks, t).gen
    ensures FifoOk(Apply(s, SlowRelease(t)))
  {
    TakeFirst(s.grants, s.queue);
  }

  lemma SlowReleaseHandsKeepsTask(s: State, t: Tid, u: Tid)
    requires Enabled(s, SlowRelease(t)) && Around(s, t) && TaskOk(s, u)
    requires s.queue != [] && s.gen == At(s.tasks, t).gen && TaskOk(s, s.queue[0])
    ensures TaskOk(Apply(s, SlowRelease(t)), u)
  {
    assert s.queue[0] in s.queue && s.queue == [s.queue[0]] + s.queue[1..];
  }

  lemma HandKeepsDesc(s: State, t: Tid)
    requires Enabled(s, Hand(t)) && Around(s, t)
    ensures DescOk(Apply(s, Hand(t)))
  {
    var s' := Apply(s, Hand(t));
    assert s' == s.(tasks := s'.tasks);
    HandKeepsWord(s, t);
  }

  lemma HandKeepsWord(s: State, t: Tid)
    requires Enabled(s, Hand(t)) && Around(s, t)
    ensures WordOk(Apply(s, Hand(t)))
  {
  }

  lemma HandKeepsTask(s: State, t: Tid, u: Tid)
    requires Enabled(s, Hand(t)) && Around(s, t) && TaskOk(s, u)
    ensures TaskOk(Apply(s, Hand(t)), u)
  {
    var next := At(s.tasks, t).next;
    if u != t && next != Some(u) { HandKeepsOther(s, t, u); }
  }

  lemma HandKeepsOther(s: State, t: Tid, u: Tid)
    requires Enabled(s, Hand(t)) && TaskOk(s, t) && TaskOk(s, u) && u != t && At(s.tasks, t).next != Some(u)
    ensures TaskOk(Apply(s, Hand(t)), u)
  {
    assert At(Apply(s, Hand(t)).tasks, u) == At(s.tasks, u);
  }

  lemma KeepsDesc(s: State, a: Action)
    requires Inv(s) && Enabled(s, a) && IsTaskAction(a)
    ensures DescOk(Apply(s, a))
  {
    assert TaskOk(s, a.t) && TaskOk(s, s.holder) && TaskOk(s, s.hander);
    if a.Claim? { ClaimKeepsDesc(s, a.t, a.g, a.away, a.wait); }
    else if a.Validate? { ValidateKeepsDesc(s, a.t, a.failing); }
    else if a.Contend? { ContendKeepsDesc(s, a.t, a.failing); }
    else if a.FastRelease? { FastReleaseKeepsDesc(s, a.t); }
    else if a.Drop? { DropKeeps(s, a.t, a.t); }
    else if a.Hand? { HandKeepsDesc(s, a.t); }
    else if s.queue == [] || s.gen != At(s.tasks, a.t).gen { SlowReleaseIdleKeepsDesc(s, a.t); }
    else { assert TaskOk(s, s.queue[0]); SlowReleaseHandsKeepsDesc(s, a.t); }
  }

  lemma KeepsTask(s: State, a: Action, u: Tid)
    requires Inv(s) && Enabled(s, a) && IsTaskAction(a)
    ensures TaskOk(Apply(s, a), u)
  {
    assert TaskOk(s, a.t) && TaskOk(s, s.holder) && TaskOk(s, s.hander) && TaskOk(s, u);
    if a.Claim? && u == a.t { ClaimKeepsSelf(s, a.t, a.g, a.away, a.wait); }
    else if a.Claim? { ClaimKeepsOther(s, a.t, a.g, a.away, a.wait, u); }
    else if a.Validate? { ValidateKeepsTask(s, a.t, a.failing, u); }
    else if a.Contend? { ContendKeepsTask(s, a.t, a.failing, u); }
    else if a.FastRelease? { FastReleaseKeepsTask(s, a.t, u); }
    else if a.Drop? { DropKeeps(s, a.t, u); }
    else if a.Hand? { HandKeepsTask(s, a.t, u); }
    else if s.queue == [] || s.gen != At(s.tasks, a.t).gen { SlowReleaseIdleKeepsTask(s, a.t, u); }
    else { assert TaskOk(s, s.queue[0]); SlowReleaseHandsKeepsTask(s, a.t, u); }
  }

  lemma StepKeeps(s: State, a: Action)
    requires Inv(s) && Enabled(s, a)
    ensures Inv(Apply(s, a))
  {
    if a.Free? {
      FreeKeeps(s);
    } else if IsTaskAction(a) {
      var s' := Apply(s, a);
      KeepsDesc(s, a);
      forall u: Tid ensures TaskOk(s', u) { KeepsTask(s, a, u); }
    } else {
      DescStepKeeps(s, a);
    }
  }

  lemma RunKeeps(run: seq<State>, k: nat)
    requires Traces.IsRun(Init, Next, run) && k < |run|
    ensures Inv(run[k])
  {
    forall s, t | Inv(s) && Next(s, t) ensures Inv(t) {
      var a :| Enabled(s, a) && t == Apply(s, a);
      StepKeeps(s, a);
    }
    Traces.InductiveHolds(Init, Next, Inv, run, k);
  }

  // -------------------------------------------------------------- results

  /** In every run at most one task holds the direction for the descriptor's current generation. */
  lemma OneHolder(run: seq<State>, k: nat, t: Tid, u: Tid)
    requires Traces.IsRun(Init, Next, run) && k < |run|
    requires HoldsFor(At(run[k].tasks, t), run[k].gen) && HoldsFor(At(run[k].tasks, u), run[k].gen)
    ensures t == u
  {
    RunKeeps(run, k);
    assert TaskOk(run[k], t) && TaskOk(run[k], u);
  }

  /**
   In every run: the low bit of the owner word is set exactly when the operation
   is pinned; every reference is the owner's, another user's, the pin's, a
   queued waiter's or one a release still owes; and waiters are handed the lock in
   the order they queued.
   */
  lemma ReferencesAccounted(run: seq<State>, k: nat)
    requires Traces.IsRun(Init, Next, run) && k < |run|
    ensures var s := run[k];
            && (s.pinned <==> s.owner.Owned? && s.owner.low)
            && s.refs == One(s.base) + s.other + One(s.pinned) + |s.queue| + |s.drops|
            && s.grants + s.queue == s.arrivals
  {
    RunKeeps(run, k);
  }

  /** free_desc()'s asserts never fail, and its reference count is indeed zero, in every run. */
  lemma FreeAssertsHold(run: seq<State>, k: nat, t: Tid)
    requires Traces.IsRun(Init, Next, run) && k < |run| && run[k].freeing
    ensures !run[k].pinned && run[k].queue == [] && !run[k].lifetime && run[k].refs == 0
    ensures !At(run[k].tasks, t).Queued? && !At(run[k].tasks, t).Chosen? && !At(run[k].tasks, t).Dropping?
  {
    RunKeeps(run, k);
    FreeKeeps(run[k]);
    assert TaskOk(run[k], t);
  }

  /**
   release_operation()'s assert holds: a slow release of a live generation finds its own tag with the
   low bit, pinned.
   */
  lemma SlowReleaseFindsOwnTag(run: seq<State>, k: nat, t: Tid)
    requires Traces.IsRun(Init, Next, run) && k < |run| && At(run[k].tasks, t).Releasing?
    requires At(run[k].tasks, t).gen == run[k].gen
    ensures run[k].owner == Owned(run[k].gen, true) && run[k].pinned && run[k].holder == t
  {
    RunKeeps(run, k);
    assert TaskOk(run[k], t);
  }

  /** A step of a task that captured the generation of an earlier incarnation. */
  predicate IsStaleStep(s: State, a: Action) {
    if a.Claim? then a.g < s.gen
    else (a.Validate? || a.Contend? || a.FastRelease? || a.SlowRelease?)
         && !At(s.tasks, a.t).Out? && !At(s.tasks, a.t).Dropping? && !At(s.tasks, a.t).Handing?
         && At(s.tasks, a.t).gen < s.gen
  }

  /** Nothing but the owner word, which moves between idle and an unpinned tag of an earlier incarnation. */
  predicate OnlyWordMoves(s: State, w: Word) {
    || w == s.owner
    || (s.owner.Idle? && w.Owned? && w.gen < s.gen && !w.low)
    || (s.owner.Owned? && s.owner.gen < s.gen && !s.owner.low && w.Idle?)
  }

  /**
   Tasks of an earlier incarnation cannot harm the current one. In every run each
   of their steps, from claim to release, changes only the task itself and, at
   most, takes the idle owner word or gives it back: references, pin, queue,
   holder and every other task stay as they were.
   */
  lemma StaleTaskIsInert(run: seq<State>, k: nat, a: Action)
    requires Traces.IsRun(Init, Next, run) && k < |run| && Enabled(run[k], a) && IsStaleStep(run[k], a)
    ensures var s, t := run[k], Apply(run[k], a);
            && t == s.(tasks := s.tasks[a.t := At(t.tasks, a.t)], owner := t.owner, stale := t.stale)
            && OnlyWordMoves(s, t.owner)
            && (StaleWord(t) ==> PassingClaim(At(t.tasks, t.stale), t.owner.gen))
  {
    RunKeeps(run, k);
    StepKeeps(run[k], a);
    assert TaskOk(run[k], a.t);
    StaleStepFrame(run[k], a);
  }

  lemma StaleStepFrame(s: State, a: Action)
    requires WordOk(s) && Enabled(s, a) && IsStaleStep(s, a) && TaskOk(s, a.t)
    ensures var t := Apply(s, a);
            && t == s.(tasks := s.tasks[a.t := At(t.tasks, a.t)], owner := t.owner, stale := t.stale)
            && OnlyWordMoves(s, t.owner)
  {
    if a.Claim? {} else if a.Validate? {} else if a.Contend? {} else if a.FastRelease? {} else {}
  }

  /** A waiter chosen by a release is resumed by that release and by no other. */
  lemma ChosenIsResumedOnce(run: seq<State>, k: nat, n: Tid, t: Tid)
    requires Traces.IsRun(Init, Next, run) && k < |run| && At(run[k].tasks, n).Chosen?
    ensures HandsTo(At(run[k].tasks, t), n) <==> t == run[k].hander
  {
    RunKeeps(run, k);
    assert TaskOk(run[k], n) && TaskOk(run[k], t) && TaskOk(run[k], run[k].hander);
  }

  /** A live operation that reaches the lifecycle lock with no error of its own. */
  ghost predicate LiveContender(s: State, t: Tid) {
    At(s.tasks, t).Contending? && !IoError(s, At(s.tasks, t).gen, false)
  }

  /**
   A live contender is turned away (the source reports "closed") exactly when the
   owner word carries an older generation's tag, which only a task of a dead
   incarnation, between its lock-free claim and giving the word back, leaves there.
   */
  lemma RefusedExactlyByStaleClaim(run: seq<State>, k: nat, t: Tid)
    requires Traces.IsRun(Init, Next, run) && k < |run| && LiveContender(run[k], t)
    ensures At(Apply(run[k], Contend(t, false)).tasks, t).Out? <==> StaleWord(run[k])
    ensures StaleWord(run[k]) ==> PassingClaim(At(run[k].tasks, run[k].stale), run[k].owner.gen)
  {
    RunKeeps(run, k);
  }

  lemma Extend(run: seq<State>, s: State, a: Action, t: State) returns (longer: seq<State>)
    requires Traces.IsRun(Init, Next, run) && run[|run| - 1] == s && Enabled(s, a) && t == Apply(s, a)
    ensures Traces.IsRun(Init, Next, longer) && longer[|longer| - 1] == t
  {
    longer := Traces.Extend(Init, Next, run, t);
  }

  /** Attach, close, recycle and attach again: generation 1, nobody holding the word. */
  lemma RecycledOnce() returns (run: seq<State>)
    ensures Traces.IsRun(Init, Next, run)
    ensures run[|run| - 1] == State(1, false, true, 1, 0, false, Idle, false, false, [], map[], 0, 0, 0, {}, [], [])
  {
    var s0 := State(0, true, false, 0, 0, false, Idle, false, false, [], map[], 0, 0, 0, {}, [], []);
    var s1 := s0.(closing := false, base := true, refs := 1);
    var s2 := s1.(closing := true);
    var s3 := s2.(base := false, refs := 0, freeing := true);
    var s4 := s3.(gen := 1, freeing := false);
    run := Extend([s0], s0, Attach, s1);
    run := Extend(run, s1, Close, s2);
    run := Extend(run, s2, Detach, s3);
    run := Extend(run, s3, Free, s4);
    run := Extend(run, s4, Attach, s4.(closing := false, base := true, refs := 1));
  }

  /**
   This does happen: after one recycling of the slot, a task of the old incarnation
   claims the idle word just before a task of the new one tries; the live task is
   refused although nobody holds the direction and the descriptor is open.
   */
  lemma StaleClaimRefusesLiveOperation() returns (run: seq<State>)
    ensures Traces.IsRun(Init, Next, run)
    ensures var s := run[|run| - 1];
            && LiveContender(s, 2)
            && (forall t: Tid :: !HoldsFor(At(s.tasks, t), s.gen))
            && At(Apply(s, Contend(2, false)).tasks, 2).Out?
  {
    run := RecycledOnce();
    var s5 := run[|run| - 1];
    var s6 := s5.(owner := Owned(0, false), stale := 1, tasks := map[1 := Claimed(0, false)]);
    var s7 := s6.(tasks := map[1 := Claimed(0, false), 2 := Contending(1, false)]);
    run := Extend(run, s5, Claim(1, 0, false, true), s6);
    run := Extend(run, s6, Claim(2, 1, false, true), s7);
  }
}
