/**
 The publish/clear handshake of one worker's "stealable" bit. The owner pushes
 and publishes; the owner and any number of thieves take items and repair the
 bit. Every atomic access of publish_stealable() and repair_stealable(), and of
 the queue probe maybe_nonempty() inside the latter, is one step. The machine is
 the two-or-more-workers case: with a single worker publish_stealable() returns
 at once and nobody reads the bit.

 History: `covered` is the queue tail of the latest publish whose clear-epoch
 load has happened, `ever` whether there was one, and `clearer` the thread whose
 read-modify-write last cleared the bit.
 */
module StealablePublication {
  import Traces

  type Tid = nat
  const OWNER: Tid := 0

  datatype Owner =
    | Working
    | Storing(known: bool)   // has_published set, publish_epoch not yet stored
    | Loading(known: bool)   // publish_epoch stored, clear_epoch not yet loaded
    | Setting                // decided to set the bit
    | Repairing              // inside repair_stealable(), as thread OWNER

  datatype Repair =
    | Testing
    | First0 | First1(h: int) | First2(h: int, t: int)   // maybe_nonempty() before the clear
    | Clearing
    | Cleared                                            // bit cleared by this thread
    | Bumped                                             // clear_epoch incremented
    | Again0 | Again1(h: int) | Again2(h: int, t: int)   // maybe_nonempty() after the clear
    | Restoring

  datatype State = State(head: int, tail: int, bit: bool,
                         publishEpoch: nat, clearEpoch: nat, nextPublish: nat, seenClear: nat,
                         hasPublished: bool, owner: Owner, repairs: map<Tid, Repair>,
                         covered: int, ever: bool, clearer: Tid)

  datatype Action =
    | Push | Take(count: nat)
    | PublishBegin | PublishStore | PublishLoad | PublishSet
    | RepairBegin(tid: Tid) | RepairStep(tid: Tid)

  ghost predicate Init(s: State) {
    && s.head == 0 && s.tail == 0 && !s.bit
    && s.publishEpoch == 0 && s.clearEpoch == 0 && s.nextPublish == 0 && s.seenClear == 0
    && !s.hasPublished && s.owner == Working && s.repairs == map[]
    && s.covered == 0 && !s.ever
  }

  predicate Enabled(s: State, a: Action) {
    match a
    case Push => s.owner.Working?
    case Take(n) => s.head + n <= s.tail
    case PublishBegin => s.owner.Working?
    case PublishStore => s.owner.Storing?
    case PublishLoad => s.owner.Loading?
    case PublishSet => s.owner.Setting?
    case RepairBegin(tid) => tid !in s.repairs && (tid == OWNER ==> s.owner.Working?)
    case RepairStep(tid) => tid in s.repairs
  }

  /** maybe_nonempty() after its second head load: torn or nonempty. */
  predicate MaybeNonempty(first: int, tail: int, second: int) {
    first != second || tail != second
  }

  /** A repair returns; the owner keeps the result in has_published. */
  function Finish(s: State, tid: Tid, result: bool): State {
    var s' := s.(repairs := s.repairs - {tid});
    if tid == OWNER then s'.(owner := Working, hasPublished := result) else s'
  }

  function Step(s: State, tid: Tid): State
    requires tid in s.repairs
  {
    match s.repairs[tid]
    case Testing => if s.bit then Goto(s, tid, First0) else Finish(s, tid, false)
    case First0 => Goto(s, tid, First1(s.head))
    case First1(h) => Goto(s, tid, First2(h, s.tail))
    case First2(h, t) => if MaybeNonempty(h, t, s.head) then Finish(s, tid, true) else Goto(s, tid, Clearing)
    case Clearing => if s.bit then Goto(s.(bit := false, clearer := tid), tid, Cleared) else Finish(s, tid, false)
    case Cleared => Goto(s.(clearEpoch := s.clearEpoch + 1), tid, Bumped)
    case Bumped => Goto(s, tid, Again0)   // the load of publish_epoch; its value is not used
    case Again0 => Goto(s, tid, Again1(s.head))
    case Again1(h) => Goto(s, tid, Again2(h, s.tail))
    case Again2(h, t) => if MaybeNonempty(h, t, s.head) then Goto(s, tid, Restoring) else Finish(s, tid, false)
    case Restoring => Finish(s.(bit := true), tid, true)
  }

  function Goto(s: State, tid: Tid, r: Repair): State {
    s.(repairs := s.repairs[tid := r])
  }

  function Apply(s: State, a: Action): State
    requires Enabled(s, a)
  {
    match a
    case Push => s.(tail := s.tail + 1)
    case Take(n) => s.(head := s.head + n)
    case PublishBegin => s.(owner := Storing(s.hasPublished), hasPublished := true)
    case PublishStore =>
      s.(nextPublish := s.nextPublish + 1, publishEpoch := s.nextPublish + 1, owner := Loading(s.owner.known))
    case PublishLoad =>
      var s' := s.(covered := s.tail, ever := true);
      if !s.owner.known || s.clearEpoch != s.seenClear then
        s'.(seenClear := s.clearEpoch, owner := Setting)
      else
        s'.(owner := Working)
    case PublishSet => s.(bit := true, owner := Working)
    case RepairBegin(tid) =>
      Goto(if tid == OWNER then s.(owner := Repairing) else s, tid, Testing)
    case RepairStep(tid) => Step(s, tid)
  }

  ghost predicate Next(s: State, t: State) {
    exists a :: Enabled(s, a) && t == Apply(s, a)
  }

  /** Until the first publish completes its load, the bit is clear and repairs get no further than their test. */
  ghost predicate BeforeFirst(s: State) {
    !s.ever ==>
      && !s.bit && s.covered == 0
      && (forall tid :: tid in s.repairs ==> s.repairs[tid].Testing?)
      && (match s.owner
          case Storing(known) => !known
          case Loading(known) => !known
          case Setting => false
          case _ => !s.hasPublished)
  }

  ghost predicate ClearerIs(s: State, r: Repair) {
    s.clearer in s.repairs && s.repairs[s.clearer] == r
  }

  /** Skipping the bitmap is safe: with an unchanged epoch the bit is set, or its clearer has yet to bump. */
  ghost predicate SkipIsSafe(s: State) {
    s.ever && s.seenClear == s.clearEpoch && !s.bit && !s.owner.Setting? ==> ClearerIs(s, Cleared)
  }

  /** The last clearer is still bound to look at the queue, at a tail no older than `covered`, or to restore the bit. */
  ghost predicate ClearerWillRestore(s: State) {
    && s.clearer in s.repairs
    && match s.repairs[s.clearer]
       case Cleared => true
       case Bumped => true
       case Again0 => true
       case Again1(_) => true
       case Again2(_, t) => t >= s.covered
       case Restoring => true
       case _ => false
  }

  /** A covered item with the bit clear is somebody's unfinished obligation. */
  ghost predicate NotHidden(s: State) {
    s.head < s.covered && !s.bit && !s.owner.Setting? ==> ClearerWillRestore(s)
  }

  ghost predicate ShapeOk(s: State) {
    && 0 <= s.head <= s.tail && 0 <= s.covered <= s.tail
    && s.seenClear <= s.clearEpoch
    && s.publishEpoch == s.nextPublish
    && (s.owner.Repairing? <==> OWNER in s.repairs)
  }

  ghost predicate Inv(s: State) {
    ShapeOk(s) && BeforeFirst(s) && SkipIsSafe(s) && NotHidden(s)
  }

  lemma OwnerStepKeeps(s: State, a: Action)
    requires Inv(s) && Enabled(s, a) && !a.RepairStep?
    ensures Inv(Apply(s, a))
  {
    var t := Apply(s, a);
    if a.RepairBegin? {
      assert forall tid :: tid in t.repairs && tid != a.tid ==> tid in s.repairs && t.repairs[tid] == s.repairs[tid];
      assert a.tid == s.clearer ==> !ClearerWillRestore(s) && !ClearerIs(s, Cleared);
    } else {
      assert t.repairs == s.repairs && t.clearer == s.clearer;
    }
  }

  lemma RepairStepKeepsShape(s: State, tid: Tid)
    requires ShapeOk(s) && tid in s.repairs
    ensures ShapeOk(Step(s, tid))
  {
    match s.repairs[tid]
    case Testing => FinishKeepsShape(s, tid, s.bit, false);
    case First2(_, _) => FinishKeepsShape(s, tid, s.bit, true);
    case Clearing => FinishKeepsShape(s, tid, s.bit, false);
    case Again2(_, _) => FinishKeepsShape(s, tid, s.bit, false);
    case Restoring => FinishKeepsShape(s, tid, true, true);
    case _ => LoadKeepsShape(s, tid);
  }

  lemma LoadKeepsShape(s: State, tid: Tid)
    requires ShapeOk(s) && tid in s.repairs
    requires var r := s.repairs[tid];
             r.First0? || r.First1? || r.Cleared? || r.Bumped? || r.Again0? || r.Again1?
    ensures ShapeOk(Step(s, tid))
  {
  }

  lemma FinishKeepsShape(s: State, tid: Tid, bit: bool, result: bool)
    requires ShapeOk(s) && tid in s.repairs
    ensures ShapeOk(Finish(s.(bit := bit), tid, result))
  {
  }

  lemma RepairStepKeepsFirst(s: State, tid: Tid)
    requires Inv(s) && tid in s.repairs
    ensures BeforeFirst(Step(s, tid))
  {
  }

  lemma RepairStepKeepsSkip(s: State, tid: Tid)
    requires ShapeOk(s) && BeforeFirst(s) && SkipIsSafe(s) && tid in s.repairs
    ensures SkipIsSafe(Step(s, tid))
  {
    if tid != s.clearer { OtherRepairKeepsSkip(s, tid); }
  }

  lemma OtherRepairKeepsSkip(s: State, tid: Tid)
    requires ShapeOk(s) && BeforeFirst(s) && SkipIsSafe(s) && tid in s.repairs && tid != s.clearer
    ensures SkipIsSafe(Step(s, tid))
  {
    assert s.clearer in s.repairs ==>
        s.clearer in Step(s, tid).repairs && Step(s, tid).repairs[s.clearer] == s.repairs[s.clearer];
  }

  /** Another thread's step disturbs neither the clearer nor, except by clearing or setting it, the bit. */
  lemma OtherRepairKeepsVisible(s: State, tid: Tid)
    requires Inv(s) && tid in s.repairs && tid != s.clearer
    ensures NotHidden(Step(s, tid))
  {
    var t := Step(s, tid);
    assert t.covered == s.covered && t.head == s.head;
    if s.repairs[tid].Clearing? && s.bit {
      assert t.clearer == tid && t.repairs[tid] == Cleared;
    } else if s.repairs[tid].Restoring? {
      assert t.bit;
    } else {
      assert t.bit == s.bit && t.clearer == s.clearer;
      assert s.clearer in s.repairs ==> s.clearer in t.repairs && t.repairs[s.clearer] == s.repairs[s.clearer];
    }
  }

  lemma ClearerKeepsVisible(s: State)
    requires Inv(s) && s.clearer in s.repairs
    ensures NotHidden(Step(s, s.clearer))
  {
    var t := Step(s, s.clearer);
    assert t.covered == s.covered && t.head == s.head && t.clearer == s.clearer;
    match s.repairs[s.clearer]
    case Again2(_, tail) => if s.head < s.covered && !s.bit && !s.owner.Setting? { assert tail != s.head; }
    case _ =>
  }

  lemma StepKeeps(s: State, a: Action)
    requires Inv(s) && Enabled(s, a)
    ensures Inv(Apply(s, a))
  {
    if a.RepairStep? {
      RepairStepKeepsShape(s, a.tid);
      RepairStepKeepsFirst(s, a.tid);
      RepairStepKeepsSkip(s, a.tid);
      if a.tid == s.clearer { ClearerKeepsVisible(s); } else { OtherRepairKeepsVisible(s, a.tid); }
    } else {
      OwnerStepKeeps(s, a);
    }
  }

  lemma RunKeeps(run: seq<State>, k: nat)
    requires Traces.IsRun(Init, Next, run) && k < |run|
    ensures Inv(run[k])
  {
    forall s, t | Inv(s) && Next(s, t) ensures Inv(t) {
      var a :| Enabled(s, a) && t == Apply(s, a);
      StepKeeps(s, a);
    }
    Traces.InductiveHolds(Init, Next, Inv, run, k);
  }

  /** A thread that has cleared the bit and not yet finished its handshake. */
  predicate InHandshake(r: Repair) {
    r.Cleared? || r.Bumped? || r.Again0? || r.Again1? || r.Again2? || r.Restoring?
  }

  /**
   Main result. In every state of every run where the owner is not publishing and
   no thread is between clearing the bit and finishing its recheck, a queue that
   still holds an item covered by a publish has its bit set, although publishes
   that observe an unchanged clear epoch never touch the bitmap.
   */
  lemma PublishedWorkIsVisible(run: seq<State>, k: nat)
    requires Traces.IsRun(Init, Next, run) && k < |run|
    requires run[k].owner.Working? || run[k].owner.Repairing?
    requires forall tid :: tid in run[k].repairs ==> !InHandshake(run[k].repairs[tid])
    ensures run[k].head < run[k].covered ==> run[k].bit
  {
    RunKeeps(run, k);
  }
}
