/**
 The blocking pool: jobs waiting for a thread, jobs waiting for admission to
 their class, and the threads. Every method is one section under the pool mutex;
 a worker is seen as it enters its loop, wakes from the condition variable and
 finishes a job. Whether a thread can be launched and whether a wait timed out are
 parameters.
 */
module BlockingPool {
  import opened Prelude

  datatype Class = Generic | File | Resolver
  datatype Job = Job(id: nat, klass: Class)
  datatype Reply = Accepted | Overloaded | Stopped

  /** One value per class. */
  datatype PerClass<V> = PerClass(generic: V, file: V, resolver: V) {
    function Get(c: Class): V {
      match c
      case Generic => generic
      case File => file
      case Resolver => resolver
    }

    function With(c: Class, v: V): PerClass<V> {
      match c
      case Generic => this.(generic := v)
      case File => this.(file := v)
      case Resolver => this.(resolver := v)
    }
  }

  // -------------------------------------------------------- specification

  /**
   The pool without its counters. `running` are the jobs taken by a thread, `arriving` counts
   threads on their way to the loop head. History: `accepted`, `started` and
   `finished` jobs in order, and per class the jobs failed without running.
   */
  datatype Pool = Pool(maxThreads: nat, maxQueue: nat, limit: PerClass<nat>,
                       queue: seq<Job>, admission: PerClass<seq<Job>>, running: seq<Job>,
                       arriving: nat, idle: nat, stopping: bool,
                       accepted: seq<Job>, started: seq<Job>, finished: seq<Job>, failed: PerClass<seq<Job>>)

  /** The jobs of class c, in order. */
  function OfClass(q: seq<Job>, c: Class): seq<Job> {
    if q == [] then []
    else if q[0].klass == c then [q[0]] + OfClass(q[1..], c)
    else OfClass(q[1..], c)
  }

  function Threads(p: Pool): nat {
    p.arriving + p.idle + |p.running|
  }

  /** Operations of class c admitted: queued to run or running. */
  function InFlight(p: Pool, c: Class): nat {
    |OfClass(p.queue, c)| + |OfClass(p.running, c)|
  }

  function Waiting(p: Pool): nat {
    |p.admission.Get(Generic)| + |p.admission.Get(File)| + |p.admission.Get(Resolver)|
  }

  /** A thread is wanted when the queue would outgrow the idle ones; a job nobody can ever run is refused. */
  function Enqueued(p: Pool, job: Job, canSpawn: bool): Option<Pool> {
    var need := |p.queue| + 1 > p.idle && Threads(p) < p.maxThreads;
    if need && !canSpawn && Threads(p) == 0 then None
    else Some(p.(queue := p.queue + [job], arriving := p.arriving + if need && canSpawn then 1 else 0))
  }

  /** The class is at its limit: the job waits for admission. */
  function ParkSpec(p: Pool, job: Job): Pool {
    p.(admission := p.admission.With(job.klass, p.admission.Get(job.klass) + [job]), accepted := p.accepted + [job])
  }

  function AdmitSpec(p: Pool, job: Job, canSpawn: bool): (Pool, Reply) {
    match Enqueued(p, job, canSpawn)
    case None => (p, Overloaded)
    case Some(q) => (q.(accepted := p.accepted + [job]), Accepted)
  }

  predicate AtLimit(p: Pool, c: Class) {
    p.limit.Get(c) != 0 && InFlight(p, c) >= p.limit.Get(c)
  }

  function SubmitSpec(p: Pool, job: Job, canSpawn: bool): (Pool, Reply) {
    if p.stopping then (p, Stopped)
    else if |p.queue| + Waiting(p) >= p.maxQueue then (p, Overloaded)
    else if AtLimit(p, job.klass) then (ParkSpec(p, job), Accepted)
    else AdmitSpec(p, job, canSpawn)
  }

  /** A slot of class c came free: its first waiter takes it. */
  function ReleaseSpec(p: Pool, c: Class, canSpawn: bool): Pool {
    if p.limit.Get(c) == 0 || p.admission.Get(c) == [] then p else
    var next := p.admission.Get(c)[0];
    var p' := p.(admission := p.admission.With(c, p.admission.Get(c)[1..]));
    match Enqueued(p', next, canSpawn)
    case None => p'.(failed := p.failed.With(c, p.failed.Get(c) + [next]))
    case Some(q) => q
  }

  /** A thread at the head of the worker loop takes a job, waits or retires. */
  function EnterLoop(p: Pool): Pool
    requires p.arriving > 0
  {
    var p' := p.(arriving := p.arriving - 1);
    if p.queue != [] then
      p'.(queue := p.queue[1..], running := p.running + [p.queue[0]], started := p.started + [p.queue[0]])
    else if p.stopping then p'
    else p'.(idle := p.idle + 1)
  }

  function WakeSpec(p: Pool, timedOut: bool): Pool
    requires p.idle > 0
  {
    var p' := p.(idle := p.idle - 1);
    if timedOut && p.queue == [] && !p.stopping then p' else EnterLoop(p'.(arriving := p.arriving + 1))
  }

  /** The job at position i of `running` returned. */
  function Finished(p: Pool, i: nat): Pool
    requires i < |p.running|
  {
    p.(running := p.running[..i] + p.running[i + 1..], arriving := p.arriving + 1,
       finished := p.finished + [p.running[i]])
  }

  lemma ReleaseKeepsThread(p: Pool, c: Class, canSpawn: bool)
    ensures ReleaseSpec(p, c, canSpawn).arriving >= p.arriving
  {
  }

  function FinishSpec(p: Pool, i: nat, canSpawn: bool): Pool
    requires i < |p.running|
  {
    ReleaseKeepsThread(Finished(p, i), p.running[i].klass, canSpawn);
    EnterLoop(ReleaseSpec(Finished(p, i), p.running[i].klass, canSpawn))
  }

  function ShutdownSpec(p: Pool): Pool {
    if p.stopping then p
    else p.(stopping := true, admission := PerClass([], [], []),
            failed := PerClass(p.failed.generic + p.admission.generic, p.failed.file + p.admission.file,
                               p.failed.resolver + p.admission.resolver))
  }

  // ------------------------------------------------------------- the pool

  const DEFAULT_THREADS := 512
  const DEFAULT_QUEUE := 1024

  lemma {:induction false} OfClassAppend(q: seq<Job>, r: seq<Job>, c: Class)
    ensures OfClass(q + r, c) == OfClass(q, c) + OfClass(r, c)
  {
    if q == [] {
      assert q + r == r;
    } else {
      assert (q + r)[1..] == q[1..] + r && (q + r)[0] == q[0];
      OfClassAppend(q[1..], r, c);
    }
  }

  lemma OfClassRemove(q: seq<Job>, i: nat, c: Class)
    requires i < |q|
    ensures |OfClass(q, c)| == |OfClass(q[..i] + q[i + 1..], c)| + if q[i].klass == c then 1 else 0
  {
    assert q == q[..i] + [q[i]] + q[i + 1..];
    OfClassAppend(q[..i] + [q[i]], q[i + 1..], c);
    OfClassAppend(q[..i], [q[i]], c);
    OfClassAppend(q[..i], q[i + 1..], c);
  }

  lemma QueueAppend(q: seq<Job>, job: Job)
    ensures forall k :: |OfClass(q + [job], k)| == |OfClass(q, k)| + if job.klass == k then 1 else 0
  {
    forall k ensures |OfClass(q + [job], k)| == |OfClass(q, k)| + if job.klass == k then 1 else 0 {
      OfClassAppend(q, [job], k);
    }
  }

  lemma QueueTake(q: seq<Job>, r: seq<Job>)
    requires q != []
    ensures forall k :: |OfClass(q, k)| + |OfClass(r, k)| == |OfClass(q[1..], k)| + |OfClass(r + [q[0]], k)|
  {
    QueueAppend(r, q[0]);
  }

  function Members(a: PerClass<seq<Job>>): multiset<Job> {
    multiset(a.generic) + multiset(a.file) + multiset(a.resolver)
  }

  ghost predicate AllOf(q: seq<Job>, c: Class) {
    forall i :: 0 <= i < |q| ==> q[i].klass == c
  }

  class BlockingPool {
    const maxThreads: nat
    const maxQueue: nat
    const classLimit: PerClass<nat>
    var queue: seq<Job>
    var queued: nat
    var idle: nat
    var stopping: bool
    var classInflight: PerClass<int>
    var admission: PerClass<seq<Job>>
    var classWaiting: PerClass<int>
    var admissionQueued: int
    var threads: nat
    ghost var arriving: nat
    ghost var running: seq<Job>
    ghost var accepted: seq<Job>
    ghost var started: seq<Job>
    ghost var finished: seq<Job>
    ghost var failed: PerClass<seq<Job>>

    ghost function Abs(): Pool
      reads this
    {
      Pool(maxThreads, maxQueue, classLimit, queue, admission, running, arriving, idle, stopping,
           accepted, started, finished, failed)
    }

    /** The counters of class c: admitted operations, unless the class is unlimited, and waiting ones. */
    ghost predicate CountsClass(c: Class)
      reads this
    {
      && classWaiting.Get(c) == |admission.Get(c)| && AllOf(admission.Get(c), c)
      && classInflight.Get(c) == if classLimit.Get(c) == 0 then 0 else InFlight(Abs(), c)
    }

    /** Every counter of the pool is the number it stands for. */
    ghost predicate Valid()
      reads this
    {
      && queued == |queue| && threads == Threads(Abs()) && admissionQueued == Waiting(Abs())
      && CountsClass(Generic) && CountsClass(File) && CountsClass(Resolver)
    }

    constructor (maxThreads: nat, maxQueue: nat, fileLimit: nat, resolverLimit: nat)
      ensures Valid() && Abs().queue == [] && Abs().admission == PerClass([], [], []) && Threads(Abs()) == 0
      ensures Abs().accepted == [] && Abs().started == [] && Abs().finished == [] && Abs().running == []
      ensures Abs().failed == PerClass([], [], []) && !stopping
      ensures this.maxThreads > 0 && this.maxQueue > 0 && classLimit == PerClass(0, fileLimit, resolverLimit)
    {
      this.maxThreads := if maxThreads == 0 then DEFAULT_THREADS else maxThreads;
      this.maxQueue := if maxQueue == 0 then DEFAULT_QUEUE else maxQueue;
      classLimit := PerClass(0, fileLimit, resolverLimit);
      queue, queued, idle, stopping, threads := [], 0, 0, false, 0;
      classInflight, admission, classWaiting := PerClass(0, 0, 0), PerClass([], [], []), PerClass(0, 0, 0);
      admissionQueued, arriving, running := 0, 0, [];
      accepted, started, finished, failed := [], [], [], PerClass([], [], []);
    }

    /** enqueue_locked(): false when no thread could ever run the job. */
    method EnqueueLocked(job: Job, canSpawn: bool) returns (ok: bool)
      requires queued == |queue| && threads == Threads(Abs())
      modifies `queue, `queued, `threads, `arriving
      ensures queued == |queue| && threads == Threads(Abs())
      ensures ok == Enqueued(old(Abs()), job, canSpawn).Some?
      ensures Abs() == if ok then Enqueued(old(Abs()), job, canSpawn).value else old(Abs())
    {
      var need := queued + 1 > idle && threads < maxThreads;
      if need && canSpawn { threads, arriving := threads + 1, arriving + 1; }
      if need && !canSpawn && threads == 0 { return false; }
      queue, queued := queue + [job], queued + 1;
      ok := true;
    }

    method Park(job: Job)
      requires Valid()
      modifies this
      ensures Valid() && Abs() == ParkSpec(old(Abs()), job)
    {
      var c := job.klass;
      admission := admission.With(c, admission.Get(c) + [job]);
      classWaiting := classWaiting.With(c, classWaiting.Get(c) + 1);
      admissionQueued := admissionQueued + 1;
      accepted := accepted + [job];
    }

    /** Takes a slot of the job's class for it, if the class is limited, and gives it back if the job is refused. */
    method QueueAdmitted(job: Job, canSpawn: bool) returns (ok: bool)
      requires Valid()
      modifies `queue, `queued, `threads, `arriving, `classInflight
      ensures Valid() && ok == Enqueued(old(Abs()), job, canSpawn).Some?
      ensures Abs() == if ok then Enqueued(old(Abs()), job, canSpawn).value else old(Abs())
    {
      var c := job.klass;
      if classLimit.Get(c) != 0 { classInflight := classInflight.With(c, classInflight.Get(c) + 1); }
      ok := EnqueueLocked(job, canSpawn);
      if ok {
        QueueAppend(old(queue), job);
      } else if classLimit.Get(c) != 0 {
        classInflight := classInflight.With(c, classInflight.Get(c) - 1);
      }
    }

    method Admit(job: Job, canSpawn: bool) returns (r: Reply)
      requires Valid()
      modifies this
      ensures Valid() && (Abs(), r) == AdmitSpec(old(Abs()), job, canSpawn)
    {
      var ok := QueueAdmitted(job, canSpawn);
      if ok { accepted := accepted + [job]; }
      r := if ok then Accepted else Overloaded;
    }

    method Submit(job: Job, canSpawn: bool) returns (r: Reply)
      requires Valid()
      modifies this
      ensures Valid() && (Abs(), r) == SubmitSpec(old(Abs()), job, canSpawn)
    {
      var c := job.klass;
      assert CountsClass(c);
      if stopping { return Stopped; }
      if queued + admissionQueued >= maxQueue { return Overloaded; }
      if classLimit.Get(c) != 0 && classInflight.Get(c) >= classLimit.Get(c) {
        Park(job);
        return Accepted;
      }
      r := Admit(job, canSpawn);
    }

    /** A job returned: its class slot is free and its thread on the way back to the loop. */
    method Return(ghost i: nat, c: Class)
      requires Valid() && i < |running| && running[i].klass == c
      modifies this
      ensures Valid() && Abs() == Finished(old(Abs()), i)
    {
      forall k { OfClassRemove(running, i, k); }
      finished := finished + [running[i]];
      running, arriving := running[..i] + running[i + 1..], arriving + 1;
      if classLimit.Get(c) != 0 { classInflight := classInflight.With(c, classInflight.Get(c) - 1); }
    }

    /** The first job waiting for admission to class c leaves its list. */
    method Unpark(c: Class) returns (next: Job)
      requires Valid() && admission.Get(c) != []
      modifies `admission, `classWaiting, `admissionQueued
      ensures Valid() && next == old(admission).Get(c)[0]
      ensures admission == old(admission).With(c, old(admission).Get(c)[1..])
    {
      next := admission.Get(c)[0];
      admission := admission.With(c, admission.Get(c)[1..]);
      classWaiting := classWaiting.With(c, classWaiting.Get(c) - 1);
      admissionQueued := admissionQueued - 1;
    }

    /** release_admission_locked() after the slot is given up; a waiter that cannot be queued is failed. */
    method Promote(c: Class, canSpawn: bool) returns (failedJob: Option<Job>)
      requires Valid()
      modifies this
      ensures Valid() && Abs() == ReleaseSpec(old(Abs()), c, canSpawn)
      ensures failedJob.Some? <==> failed != old(failed)
    {
      failedJob := None;
      if classLimit.Get(c) == 0 || admission.Get(c) == [] { return; }
      var next := Unpark(c);
      var ok := QueueAdmitted(next, canSpawn);
      if !ok {
        failed := failed.With(c, failed.Get(c) + [next]);
        failedJob := Some(next);
      }
    }

    method TakeJob() returns (job: Job)
      requires Valid() && arriving > 0 && queue != []
      modifies `queue, `queued, `running, `started, `arriving
      ensures Valid() && job == old(queue)[0]
      ensures queue == old(queue)[1..] && arriving == old(arriving) - 1
      ensures running == old(running) + [job] && started == old(started) + [job]
    {
      job := queue[0];
      QueueTake(queue, running);
      queue, queued, arriving := queue[1..], queued - 1, arriving - 1;
      running, started := running + [job], started + [job];
    }

    /** The head of the worker loop, up to the point where the mutex is released. */
    method EnterWorkerLoop() returns (taken: Option<Job>)
      requires Valid() && arriving > 0
      modifies this
      ensures Valid() && Abs() == EnterLoop(old(Abs()))
      ensures taken == if old(queue) == [] then None else Some(old(queue)[0])
    {
      if queue == [] {
        arriving := arriving - 1;
        if stopping { threads := threads - 1; } else { idle := idle + 1; }
        taken := None;
      } else {
        var job := TakeJob();
        taken := Some(job);
      }
    }

    method Wake(timedOut: bool) returns (taken: Option<Job>)
      requires Valid() && idle > 0
      modifies this
      ensures Valid() && Abs() == WakeSpec(old(Abs()), timedOut)
    {
      if timedOut && queue == [] && !stopping {
        idle, threads := idle - 1, threads - 1;
        return None;
      }
      Rise();
      taken := EnterWorkerLoop();
    }

    method Rise()
      requires Valid() && idle > 0
      modifies `idle, `arriving
      ensures Valid() && idle == old(idle) - 1 && arriving == old(arriving) + 1
    {
      idle, arriving := idle - 1, arriving + 1;
    }

    method Finish(ghost i: nat, c: Class, canSpawn: bool) returns (taken: Option<Job>, failedJob: Option<Job>)
      requires Valid() && i < |running| && running[i].klass == c
      modifies this
      ensures Valid() && Abs() == FinishSpec(old(Abs()), i, canSpawn)
    {
      Return(i, c);
      ReleaseKeepsThread(Abs(), c, canSpawn);
      failedJob := Promote(c, canSpawn);
      taken := EnterWorkerLoop();
    }

    /** shutdown() up to the wait for the threads; `pending` are the jobs to fail, in the order they are failed. */
    method Shutdown() returns (pending: seq<Job>)
      requires Valid()
      modifies this
      ensures Valid() && Abs() == ShutdownSpec(old(Abs()))
      ensures multiset(pending) == if old(stopping) then multiset{} else Members(old(admission))
    {
      if stopping { return []; }
      failed := PerClass(failed.generic + admission.generic, failed.file + admission.file,
                         failed.resolver + admission.resolver);
      stopping := true;
      assert Valid();
      pending := DetachAll();
    }

    method DetachAll() returns (pending: seq<Job>)
      requires Valid()
      modifies `admission, `classWaiting, `admissionQueued
      ensures Valid() && admission == PerClass([], [], []) && multiset(pending) == Members(old(admission))
    {
      pending := Detach(Generic, []);
      pending := Detach(File, pending);
      pending := Detach(Resolver, pending);
      admissionQueued := 0;
    }

    /** Moves one admission list onto the stack of jobs to fail. */
    method Detach(c: Class, pending: seq<Job>) returns (more: seq<Job>)
      modifies `admission, `classWaiting
      ensures admission == old(admission).With(c, []) && classWaiting == old(classWaiting).With(c, 0)
      ensures multiset(more) == multiset(pending) + multiset(old(admission.Get(c)))
    {
      more := pending;
      var list := admission.Get(c);
      var i := 0;
      while i < |list|
        invariant 0 <= i <= |list| && multiset(more) == multiset(pending) + multiset(list[..i])
      {
        assert list[..i + 1] == list[..i] + [list[i]];
        more := [list[i]] + more;
        i := i + 1;
      }
      assert list[..i] == list;
      admission := admission.With(c, []);
      classWaiting := classWaiting.With(c, 0);
    }
  }
}
