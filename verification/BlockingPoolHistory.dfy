/** What every run of the blocking pool keeps. */
module BlockingPoolHistory {
  import opened Prelude
  import opened BlockingPool
  import Traces

  // ----------------------------------------------------------- operations

  datatype Op =
    | Submit(job: Job, canSpawn: bool)
    | Start                                   // a launched thread reaches the loop
    | Wake(timedOut: bool)                    // an idle thread returns from its wait
    | Finish(i: nat, canSpawn: bool)          // the i-th running job returns
    | Shutdown

  predicate Enabled(p: Pool, op: Op) {
    match op
    case Submit(job, _) => job !in p.accepted      // a job node is in at most one place
    case Start => p.arriving > 0
    case Wake(_) => p.idle > 0
    case Finish(i, _) => i < |p.running|
    case Shutdown => true
  }

  function Apply(p: Pool, op: Op): Pool
    requires Enabled(p, op)
  {
    match op
    case Submit(job, canSpawn) => SubmitSpec(p, job, canSpawn).0
    case Start => EnterLoop(p)
    case Wake(timedOut) => WakeSpec(p, timedOut)
    case Finish(i, canSpawn) => FinishSpec(p, i, canSpawn)
    case Shutdown => ShutdownSpec(p)
  }

  ghost predicate Init(p: Pool) {
    && p.maxThreads > 0 && p.maxQueue > 0
    && p.queue == [] && p.admission == PerClass([], [], []) && p.running == [] && p.arriving == 0 && p.idle == 0
    && !p.stopping && p.accepted == [] && p.started == [] && p.finished == [] && p.failed == PerClass([], [], [])
  }

  ghost predicate Next(p: Pool, q: Pool) {
    exists op :: Enabled(p, op) && q == Apply(p, op)
  }

  // ------------------------------------------------------------ invariant

  /** Class c: its limit, who waits and why, and where its accepted jobs are, in order of acceptance. */
  ghost predicate ClassOk(p: Pool, c: Class) {
    && (p.limit.Get(c) != 0 ==> InFlight(p, c) <= p.limit.Get(c))
    && (p.admission.Get(c) != [] ==> p.limit.Get(c) != 0 && InFlight(p, c) == p.limit.Get(c) && !p.stopping)
    && AllOf(p.admission.Get(c), c)
    && (p.failed.Get(c) != [] ==> p.stopping)
    && OfClass(p.accepted, c) == OfClass(p.started, c) + OfClass(p.queue, c) + p.admission.Get(c) + p.failed.Get(c)
  }

  ghost predicate SizesOk(p: Pool) {
    && |p.queue| + Waiting(p) <= p.maxQueue
    && Threads(p) <= p.maxThreads && p.maxThreads > 0
    && (p.queue != [] ==> Threads(p) > 0)
  }

  ghost predicate LedgerOk(p: Pool) {
    multiset(p.started) == multiset(p.finished) + multiset(p.running) && Distinct(p.accepted)
  }

  ghost predicate Inv(p: Pool) {
    SizesOk(p) && LedgerOk(p) && forall c :: ClassOk(p, c)
  }

  // ---------------------------------------------------------------- proof

  lemma QueueCounts(q: seq<Job>, job: Job, c: Class)
    ensures OfClass(q + [job], c) == OfClass(q, c) + if job.klass == c then [job] else []
  {
    OfClassAppend(q, [job], c);
  }

  lemma ParkKeeps(p: Pool, job: Job, c: Class)
    requires ClassOk(p, c) && ClassOk(p, job.klass) && AtLimit(p, job.klass) && !p.stopping
    ensures ClassOk(ParkSpec(p, job), c)
  {
    QueueCounts(p.accepted, job, c);
  }

  lemma AdmitKeeps(p: Pool, job: Job, canSpawn: bool, c: Class)
    requires ClassOk(p, c) && !AtLimit(p, job.klass) && !p.stopping
    ensures ClassOk(AdmitSpec(p, job, canSpawn).0, c)
  {
    QueueCounts(p.accepted, job, c);
    QueueCounts(p.queue, job, c);
  }

  /** Moving the head of one sequence to the end of another keeps the order of every class. */
  lemma MoveHead(s: seq<Job>, q: seq<Job>, c: Class)
    requires q != []
    ensures OfClass(s + [q[0]], c) + OfClass(q[1..], c) == OfClass(s, c) + OfClass(q, c)
  {
    QueueCounts(s, q[0], c);
  }

  lemma EnterLoopKeeps(p: Pool, c: Class)
    requires ClassOk(p, c) && p.arriving > 0
    ensures ClassOk(EnterLoop(p), c)
  {
    if p.queue != [] {
      QueueTake(p.queue, p.running);
      MoveHead(p.started, p.queue, c);
      var e := EnterLoop(p);
      assert InFlight(e, c) == InFlight(p, c);
      assert OfClass(e.started, c) + OfClass(e.queue, c) == OfClass(p.started, c) + OfClass(p.queue, c);
    }
  }

  lemma ShutdownKeeps(p: Pool, c: Class)
    requires ClassOk(p, c)
    ensures ClassOk(ShutdownSpec(p), c)
  {
  }

  /** ClassOk but for one slot of class c just given up. */
  ghost predicate SlotFree(p: Pool, c: Class) {
    && (p.limit.Get(c) != 0 ==> InFlight(p, c) < p.limit.Get(c))
    && (p.admission.Get(c) != [] ==> p.limit.Get(c) != 0 && InFlight(p, c) == p.limit.Get(c) - 1 && !p.stopping)
    && AllOf(p.admission.Get(c), c)
    && (p.failed.Get(c) != [] ==> p.stopping)
    && OfClass(p.accepted, c) == OfClass(p.started, c) + OfClass(p.queue, c) + p.admission.Get(c) + p.failed.Get(c)
  }

  lemma FinishedKeeps(p: Pool, i: nat, c: Class)
    requires ClassOk(p, c) && i < |p.running|
    ensures if c == p.running[i].klass then SlotFree(Finished(p, i), c) else ClassOk(Finished(p, i), c)
  {
    OfClassRemove(p.running, i, c);
    assert InFlight(Finished(p, i), c) == InFlight(p, c) - if c == p.running[i].klass then 1 else 0;
  }

  /** A worker giving up a slot is itself a thread, so its promotion is never refused. */
  lemma PromotionSucceeds(p: Pool, job: Job, canSpawn: bool)
    requires p.arriving > 0
    ensures Enqueued(p, job, canSpawn).Some?
  {
  }

  lemma ReleaseMoves(p: Pool, c: Class, canSpawn: bool)
    requires p.limit.Get(c) != 0 && p.admission.Get(c) != [] && AllOf(p.admission.Get(c), c) && p.arriving > 0
    ensures var r := ReleaseSpec(p, c, canSpawn);
            && InFlight(r, c) == InFlight(p, c) + 1
            && OfClass(r.queue, c) == OfClass(p.queue, c) + [p.admission.Get(c)[0]]
            && r.admission.Get(c) == p.admission.Get(c)[1..] && r.failed == p.failed
            && r.accepted == p.accepted && r.started == p.started && r.stopping == p.stopping && r.limit == p.limit
  {
    QueueCounts(p.queue, p.admission.Get(c)[0], c);
  }

  lemma ReleaseKeepsSame(p: Pool, c: Class, canSpawn: bool)
    requires SlotFree(p, c) && p.arriving > 0
    ensures ClassOk(ReleaseSpec(p, c, canSpawn), c)
  {
    var r := ReleaseSpec(p, c, canSpawn);
    if p.admission.Get(c) != [] {
      ReleaseMoves(p, c, canSpawn);
      assert OfClass(r.queue, c) + r.admission.Get(c) == OfClass(p.queue, c) + p.admission.Get(c);
    }
  }

  /** What a promotion in class k leaves alone in another class. */
  lemma ReleaseSpares(p: Pool, k: Class, canSpawn: bool, c: Class)
    requires c != k && p.arriving > 0 && AllOf(p.admission.Get(k), k)
    ensures var r := ReleaseSpec(p, k, canSpawn);
            && OfClass(r.queue, c) == OfClass(p.queue, c) && r.running == p.running
            && r.admission.Get(c) == p.admission.Get(c) && r.failed == p.failed
            && r.accepted == p.accepted && r.started == p.started && r.stopping == p.stopping && r.limit == p.limit
  {
    if p.admission.Get(k) != [] { QueueCounts(p.queue, p.admission.Get(k)[0], c); }
  }

  lemma ReleaseKeepsOther(p: Pool, k: Class, canSpawn: bool, c: Class)
    requires ClassOk(p, c) && c != k && p.arriving > 0 && AllOf(p.admission.Get(k), k)
    ensures ClassOk(ReleaseSpec(p, k, canSpawn), c)
  {
    ReleaseSpares(p, k, canSpawn, c);
  }

  lemma FinishKeeps(p: Pool, i: nat, canSpawn: bool, c: Class)
    requires i < |p.running| && ClassOk(p, c) && ClassOk(p, p.running[i].klass)
    ensures ClassOk(FinishSpec(p, i, canSpawn), c)
  {
    var k := p.running[i].klass;
    var q := Finished(p, i);
    FinishedKeeps(p, i, c);
    FinishedKeeps(p, i, k);
    if c == k { ReleaseKeepsSame(q, c, canSpawn); } else { ReleaseKeepsOther(q, k, canSpawn, c); }
    ReleaseKeepsThread(q, k, canSpawn);
    EnterLoopKeeps(ReleaseSpec(q, k, canSpawn), c);
  }

  // The pool-wide part.

  lemma SubmitKeepsSizes(p: Pool, job: Job, canSpawn: bool)
    requires SizesOk(p)
    ensures SizesOk(SubmitSpec(p, job, canSpawn).0)
  {
  }

  lemma SubmitKeepsLedger(p: Pool, job: Job, canSpawn: bool)
    requires LedgerOk(p) && job !in p.accepted
    ensures LedgerOk(SubmitSpec(p, job, canSpawn).0)
  {
    var q := SubmitSpec(p, job, canSpawn).0;
    assert q.accepted == p.accepted || q.accepted == p.accepted + [job];
    assert q.started == p.started && q.finished == p.finished && q.running == p.running;
  }

  lemma EnterLoopKeepsSizes(p: Pool)
    requires SizesOk(p) && p.arriving > 0
    ensures SizesOk(EnterLoop(p))
  {
  }

  lemma EnterLoopKeepsLedger(p: Pool)
    requires LedgerOk(p) && p.arriving > 0
    ensures LedgerOk(EnterLoop(p))
  {
  }

  lemma FinishKeepsSizes(p: Pool, i: nat, canSpawn: bool)
    requires SizesOk(p) && i < |p.running|
    ensures SizesOk(FinishSpec(p, i, canSpawn))
  {
    var q := Finished(p, i);
    assert SizesOk(q);
    ReleaseKeepsThread(q, p.running[i].klass, canSpawn);
    ReleaseKeepsSizes(q, p.running[i].klass, canSpawn);
    EnterLoopKeepsSizes(ReleaseSpec(q, p.running[i].klass, canSpawn));
  }

  lemma ReleaseKeepsSizes(p: Pool, c: Class, canSpawn: bool)
    requires SizesOk(p) && p.arriving > 0
    ensures SizesOk(ReleaseSpec(p, c, canSpawn))
  {
  }

  lemma FinishKeepsLedger(p: Pool, i: nat, canSpawn: bool)
    requires LedgerOk(p) && i < |p.running|
    ensures LedgerOk(FinishSpec(p, i, canSpawn))
  {
    var q := Finished(p, i);
    assert p.running == p.running[..i] + [p.running[i]] + p.running[i + 1..];
    assert multiset(p.running) == multiset(q.running) + multiset{p.running[i]};
    assert LedgerOk(q);
    ReleaseKeepsThread(q, p.running[i].klass, canSpawn);
    EnterLoopKeepsLedger(ReleaseSpec(q, p.running[i].klass, canSpawn));
  }

  lemma ClassStep(p: Pool, op: Op, c: Class)
    requires Inv(p) && Enabled(p, op)
    ensures ClassOk(Apply(p, op), c)
  {
    assert ClassOk(p, c);
    match op
    case Submit(job, canSpawn) =>
      assert ClassOk(p, job.klass);
      if !p.stopping {
        if AtLimit(p, job.klass) { ParkKeeps(p, job, c); } else { AdmitKeeps(p, job, canSpawn, c); }
      }
    case Start => EnterLoopKeeps(p, c);
    case Wake(timedOut) =>
      var p' := p.(idle := p.idle - 1);
      assert ClassOk(p', c) && ClassOk(p'.(arriving := p.arriving + 1), c);
      EnterLoopKeeps(p'.(arriving := p.arriving + 1), c);
    case Finish(i, canSpawn) =>
      assert ClassOk(p, p.running[i].klass);
      FinishKeeps(p, i, canSpawn, c);
    case Shutdown => ShutdownKeeps(p, c);
  }

  lemma PoolStep(p: Pool, op: Op)
    requires SizesOk(p) && LedgerOk(p) && Enabled(p, op)
    ensures SizesOk(Apply(p, op)) && LedgerOk(Apply(p, op))
  {
    match op
    case Submit(job, canSpawn) => SubmitKeepsSizes(p, job, canSpawn); SubmitKeepsLedger(p, job, canSpawn);
    case Start => EnterLoopKeepsSizes(p); EnterLoopKeepsLedger(p);
    case Wake(timedOut) =>
      var p' := p.(idle := p.idle - 1, arriving := p.arriving + 1);
      EnterLoopKeepsSizes(p');
      EnterLoopKeepsLedger(p');
    case Finish(i, canSpawn) => FinishKeepsSizes(p, i, canSpawn); FinishKeepsLedger(p, i, canSpawn);
    case Shutdown =>
  }

  lemma StepKeeps(p: Pool, op: Op)
    requires Inv(p) && Enabled(p, op)
    ensures Inv(Apply(p, op))
  {
    PoolStep(p, op);
    forall c ensures ClassOk(Apply(p, op), c) { ClassStep(p, op, c); }
  }

  lemma RunKeeps(run: seq<Pool>, k: nat)
    requires Traces.IsRun(Init, Next, run) && k < |run|
    ensures Inv(run[k])
  {
    forall p, q | Inv(p) && Next(p, q) ensures Inv(q) {
      var op :| Enabled(p, op) && q == Apply(p, op);
      StepKeeps(p, op);
    }
    Traces.InductiveHolds(Init, Next, Inv, run, k);
  }

  // -------------------------------------------------------------- results

  /** Admission: a class never exceeds its limit, the pool never its bounds, and a job waits only for a full class. */
  lemma BoundsHold(run: seq<Pool>, k: nat, c: Class)
    requires Traces.IsRun(Init, Next, run) && k < |run|
    ensures var p := run[k];
            && (p.limit.Get(c) != 0 ==> InFlight(p, c) <= p.limit.Get(c))
            && (p.admission.Get(c) != [] ==> p.limit.Get(c) != 0 && InFlight(p, c) == p.limit.Get(c))
            && |p.queue| + Waiting(p) <= p.maxQueue && Threads(p) <= p.maxThreads
            && (p.queue != [] ==> Threads(p) > 0)
  {
    RunKeeps(run, k);
    assert ClassOk(run[k], c);
  }

  /**
   Every accepted job is in exactly one place and, within its class, jobs start
   in the order they were accepted: first those started, then those queued, those
   awaiting admission, and last those failed, which only shutdown does.
   */
  lemma StartsInOrder(run: seq<Pool>, k: nat, c: Class)
    requires Traces.IsRun(Init, Next, run) && k < |run|
    ensures var p := run[k];
            && OfClass(p.accepted, c)
               == OfClass(p.started, c) + OfClass(p.queue, c) + p.admission.Get(c) + p.failed.Get(c)
            && (p.failed.Get(c) != [] ==> p.stopping)
            && (p.stopping ==> p.admission.Get(c) == [])
            && Distinct(p.accepted)
            && multiset(p.started) == multiset(p.finished) + multiset(p.running)
  {
    RunKeeps(run, k);
    assert ClassOk(run[k], c);
  }

  /** A stopped pool whose threads are gone has run or failed every job it accepted. */
  lemma ShutdownSettlesAll(run: seq<Pool>, k: nat, c: Class)
    requires Traces.IsRun(Init, Next, run) && k < |run| && run[k].stopping && Threads(run[k]) == 0
    ensures var p := run[k];
            && OfClass(p.accepted, c) == OfClass(p.started, c) + p.failed.Get(c)
            && multiset(p.started) == multiset(p.finished)
  {
    RunKeeps(run, k);
    assert ClassOk(run[k], c);
    assert run[k].running == [];
  }

  /** A worker that finishes a job always finds a thread for the job it promotes: itself. */
  lemma PromotionFailsNothing(p: Pool, i: nat, canSpawn: bool)
    requires i < |p.running|
    ensures FinishSpec(p, i, canSpawn).failed == p.failed
  {
    var q, c := Finished(p, i), p.running[i].klass;
    ReleaseKeepsThread(q, c, canSpawn);
    if q.admission.Get(c) != [] {
      PromotionSucceeds(q.(admission := q.admission.With(c, q.admission.Get(c)[1..])), q.admission.Get(c)[0], canSpawn);
    }
  }

  lemma StepFails(p: Pool, op: Op)
    requires Enabled(p, op)
    ensures Apply(p, op).failed == p.failed || (op.Shutdown? && !p.stopping)
    ensures if op.Shutdown? then Apply(p, op) == ShutdownSpec(p) else Apply(p, op).stopping == p.stopping
  {
    if op.Finish? { PromotionFailsNothing(p, op.i, op.canSpawn); }
  }

  lemma NextFails(p: Pool, q: Pool)
    requires Next(p, q)
    ensures p.stopping ==> q.stopping
    ensures p.failed != q.failed || p.stopping != q.stopping ==> !p.stopping && q == ShutdownSpec(p)
  {
    var op :| Enabled(p, op) && q == Apply(p, op);
    StepFails(p, op);
  }

  /**
   In every run only the first shutdown fails jobs: every other step leaves `failed`
   alone, before it no job has failed, and it fails exactly those awaiting admission.
   */
  lemma OnlyShutdownFails(run: seq<Pool>, k: nat, c: Class)
    requires Traces.IsRun(Init, Next, run) && k + 1 < |run|
    ensures run[k].failed != run[k + 1].failed ==> !run[k].stopping && run[k + 1].stopping
    ensures !run[k].stopping ==> run[k].failed.Get(c) == []
    ensures !run[k].stopping && run[k + 1].stopping ==> run[k + 1].failed.Get(c) == run[k].admission.Get(c)
  {
    var i, j := k, k + 1;
    assert Next(run[i], run[j]);
    NextFails(run[i], run[j]);
    RunKeeps(run, k);
    assert ClassOk(run[k], c);
  }

  /** After a shutdown no job ever fails again. */
  lemma {:induction false} FailedIsFinal(run: seq<Pool>, i: nat, j: nat)
    requires Traces.IsRun(Init, Next, run) && i <= j < |run| && run[i].stopping
    ensures run[j].stopping && run[j].failed == run[i].failed
    decreases j
  {
    if i < j {
      var k, l := j - 1, j;
      FailedIsFinal(run, i, k);
      assert Next(run[k], run[l]);
      NextFails(run[k], run[l]);
    }
  }
}
