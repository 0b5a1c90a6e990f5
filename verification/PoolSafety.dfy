/** Every interleaving of the pool keeps the invariant. */
module PoolSafety {
  import opened Basics
  import opened Pool

  lemma InitOk(s: State)
    requires Init(s)
    ensures Inv(s)
  {
    assert MutexOk(s);
    assert QueueOk(s);
    assert WakeOk(s) && CloseOk(s);
    forall i | 0 <= i < |s.workers| ensures WorkerOk(s, i) {}
    forall j | 0 <= j < |s.clients| ensures ClientOk(s, j) {}
  }

  /** The oldest task is in the queue once, and not among those taken. */
  lemma QueueHead(s: State)
    requires QueueOk(s) && s.queue != []
    ensures forall k :: 1 <= k < |s.queue| ==> s.queue[k] != s.queue[0]
    ensures forall u :: u in s.queue[1..] <==> u in s.queue && u != s.queue[0]
  {
    var n := |s.started|;
    forall k | 1 <= k < |s.queue| ensures s.queue[k] != s.queue[0] {
      assert s.submitted[n] == s.queue[0] && s.submitted[n + k] == s.queue[k];
    }
  }

  lemma WAcquireOk(s: State, s': State, i: nat)
    requires Inv(s) && WAcquire(s, s', i)
    ensures Inv(s')
  {
    forall u | 0 <= u < |s'.tasks| ensures TaskOk(s', u) { if u < |s.tasks| { assert TaskOk(s, u); } }
    forall a | 0 <= a < |s'.workers| ensures WorkerOk(s', a) { assert WorkerOk(s, a); }
    forall b | 0 <= b < |s'.clients| ensures ClientOk(s', b) { assert ClientOk(s, b); }
  }

  lemma WCheckOk(s: State, s': State, i: nat)
    requires Inv(s) && WCheck(s, s', i)
    ensures Inv(s')
  {
    hide Inv;
    if s.queue == [] { WRestOk(s, s', i); } else { WTakeOk(s, s', i); }
  }

  lemma WRestOk(s: State, s': State, i: nat)
    requires Inv(s) && WCheck(s, s', i) && s.queue == []
    ensures Inv(s')
  {
    if s.closer.Some? { assert ClientOk(s, s.closer.value); }
    forall u | 0 <= u < |s'.tasks| ensures TaskOk(s', u) { if u < |s.tasks| { assert TaskOk(s, u); } }
    forall a | 0 <= a < |s'.workers| ensures WorkerOk(s', a) { assert WorkerOk(s, a); }
    forall b | 0 <= b < |s'.clients| ensures ClientOk(s', b) { assert ClientOk(s, b); }
  }

  lemma WTakeOk(s: State, s': State, i: nat)
    requires Inv(s) && WCheck(s, s', i) && s.queue != []
    ensures Inv(s')
  {
    var t := s.queue[0];
    QueueHead(s);
    assert TaskOk(s, t);
    assert s.started + s.queue == s.started + [t] + s.queue[1..];
    forall u | 0 <= u < |s'.tasks| ensures TaskOk(s', u) { if u < |s.tasks| { assert TaskOk(s, u); } }
    forall a | 0 <= a < |s'.workers| ensures WorkerOk(s', a) { assert WorkerOk(s, a); }
    forall b | 0 <= b < |s'.clients| ensures ClientOk(s', b) { assert ClientOk(s, b); }
  }

  lemma WRunOk(s: State, s': State, i: nat)
    requires Inv(s) && WRun(s, s', i)
    ensures Inv(s')
  {
    var t := s.workers[i].t;
    assert WorkerOk(s, i) && TaskOk(s, t);
    forall u | 0 <= u < |s'.tasks| ensures TaskOk(s', u) { if u < |s.tasks| { assert TaskOk(s, u); } }
    forall a | 0 <= a < |s'.workers| ensures WorkerOk(s', a) { assert WorkerOk(s, a); }
    forall b | 0 <= b < |s'.clients| ensures ClientOk(s', b) { assert ClientOk(s, b); }
  }

  lemma WRelockOk(s: State, s': State, i: nat)
    requires Inv(s) && WRelock(s, s', i)
    ensures Inv(s')
  {
    forall u | 0 <= u < |s'.tasks| ensures TaskOk(s', u) { if u < |s.tasks| { assert TaskOk(s, u); } }
    forall a | 0 <= a < |s'.workers| ensures WorkerOk(s', a) { assert WorkerOk(s, a); }
    forall b | 0 <= b < |s'.clients| ensures ClientOk(s', b) { assert ClientOk(s, b); }
  }

  lemma WFinishOk(s: State, s': State, i: nat)
    requires Inv(s) && WFinish(s, s', i)
    ensures Inv(s')
  {
    var t := s.workers[i].t;
    assert WorkerOk(s, i) && TaskOk(s, t);
    assert forall k :: 0 <= k < |s.queue| ==> s.queue[k] != t;
    forall u | 0 <= u < |s'.tasks| ensures TaskOk(s', u) { if u < |s.tasks| { assert TaskOk(s, u); } }
    forall a | 0 <= a < |s'.workers| ensures WorkerOk(s', a) { assert WorkerOk(s, a); }
    forall b | 0 <= b < |s'.clients| ensures ClientOk(s', b) { assert ClientOk(s, b); }
  }

  lemma WAnnounceOk(s: State, s': State, i: nat)
    requires Inv(s) && WAnnounce(s, s', i)
    ensures Inv(s')
  {
    forall u | 0 <= u < |s'.tasks| ensures TaskOk(s', u) { if u < |s.tasks| { assert TaskOk(s, u); } }
    forall a | 0 <= a < |s'.workers| ensures WorkerOk(s', a) { assert WorkerOk(s, a); }
    forall b | 0 <= b < |s'.clients| ensures ClientOk(s', b) { assert ClientOk(s, b); }
  }

  lemma WSpuriousOk(s: State, s': State, i: nat)
    requires Inv(s) && WSpurious(s, s', i)
    ensures Inv(s')
  {
    forall u | 0 <= u < |s'.tasks| ensures TaskOk(s', u) { if u < |s.tasks| { assert TaskOk(s, u); } }
    forall a | 0 <= a < |s'.workers| ensures WorkerOk(s', a) { assert WorkerOk(s, a); }
    forall b | 0 <= b < |s'.clients| ensures ClientOk(s', b) { assert ClientOk(s, b); }
  }

  lemma CBeginSubmitOk(s: State, s': State, j: nat, fn: int -> int, arg: int)
    requires Inv(s) && CBeginSubmit(s, s', j, fn, arg)
    ensures Inv(s')
  {
    forall u | 0 <= u < |s'.tasks| ensures TaskOk(s', u) { if u < |s.tasks| { assert TaskOk(s, u); } }
    forall a | 0 <= a < |s'.workers| ensures WorkerOk(s', a) { assert WorkerOk(s, a); }
    forall b | 0 <= b < |s'.clients| ensures ClientOk(s', b) { assert ClientOk(s, b); }
  }

  lemma CSubLockOk(s: State, s': State, j: nat)
    requires Inv(s) && CSubLock(s, s', j)
    ensures Inv(s')
  {
    forall u | 0 <= u < |s'.tasks| ensures TaskOk(s', u) { if u < |s.tasks| { assert TaskOk(s, u); } }
    forall a | 0 <= a < |s'.workers| ensures WorkerOk(s', a) { assert WorkerOk(s, a); }
    forall b | 0 <= b < |s'.clients| ensures ClientOk(s', b) { assert ClientOk(s, b); }
  }

  lemma CEnqueueOk(s: State, s': State, j: nat)
    requires Inv(s) && CEnqueue(s, s', j)
    ensures Inv(s')
  {
    var t := s.clients[j].t;
    assert ClientOk(s, j) && TaskOk(s, t);
    assert s.started + s.queue + [t] == s.started + (s.queue + [t]);
    assert forall k :: 0 <= k < |s.started| ==> s.started[k] in s.submitted;
    forall u | 0 <= u < |s'.tasks| ensures TaskOk(s', u) { if u < |s.tasks| { assert TaskOk(s, u); } }
    forall a | 0 <= a < |s'.workers| ensures WorkerOk(s', a) { assert WorkerOk(s, a); }
    forall b | 0 <= b < |s'.clients| ensures ClientOk(s', b) { assert ClientOk(s, b); }
  }

  lemma CSignalOk(s: State, s': State, j: nat, w: nat)
    requires Inv(s) && CSignal(s, s', j, w)
    ensures Inv(s')
  {
    assert ClientOk(s, j);
    if s.workers[w].Asleep? {
      assert Awake(s'.workers[w]);
    } else {
      assert WorkerOk(s, 0) && Awake(s'.workers[0]);
    }
    forall u | 0 <= u < |s'.tasks| ensures TaskOk(s', u) { if u < |s.tasks| { assert TaskOk(s, u); } }
    forall a | 0 <= a < |s'.workers| ensures WorkerOk(s', a) { assert WorkerOk(s, a); }
    forall b | 0 <= b < |s'.clients| ensures ClientOk(s', b) { assert ClientOk(s, b); }
  }

  lemma CBeginJoinOk(s: State, s': State, j: nat, t: nat)
    requires Inv(s) && CBeginJoin(s, s', j, t)
    ensures Inv(s')
  {
    assert TaskOk(s, t);
    forall u | 0 <= u < |s'.tasks| ensures TaskOk(s', u) { if u < |s.tasks| { assert TaskOk(s, u); } }
    forall a | 0 <= a < |s'.workers| ensures WorkerOk(s', a) { assert WorkerOk(s, a); }
    forall b | 0 <= b < |s'.clients| ensures ClientOk(s', b) { assert ClientOk(s, b); }
  }

  lemma CJoinLockOk(s: State, s': State, j: nat)
    requires Inv(s) && CJoinLock(s, s', j)
    ensures Inv(s')
  {
    forall u | 0 <= u < |s'.tasks| ensures TaskOk(s', u) { if u < |s.tasks| { assert TaskOk(s, u); } }
    forall a | 0 <= a < |s'.workers| ensures WorkerOk(s', a) { assert WorkerOk(s, a); }
    forall b | 0 <= b < |s'.clients| ensures ClientOk(s', b) { assert ClientOk(s, b); }
  }

  lemma CJoinCheckOk(s: State, s': State, j: nat)
    requires Inv(s) && CJoinCheck(s, s', j)
    ensures Inv(s')
  {
    forall u | 0 <= u < |s'.tasks| ensures TaskOk(s', u) { if u < |s.tasks| { assert TaskOk(s, u); } }
    forall a | 0 <= a < |s'.workers| ensures WorkerOk(s', a) { assert WorkerOk(s, a); }
    forall b | 0 <= b < |s'.clients| ensures ClientOk(s', b) { assert ClientOk(s, b); }
  }

  lemma CJoinReadOk(s: State, s': State, j: nat)
    requires Inv(s) && CJoinRead(s, s', j)
    ensures Inv(s')
  {
    assert ClientOk(s, j) && TaskOk(s, s.clients[j].t);
    forall u | 0 <= u < |s'.tasks| ensures TaskOk(s', u) { if u < |s.tasks| { assert TaskOk(s, u); } }
    forall a | 0 <= a < |s'.workers| ensures WorkerOk(s', a) { assert WorkerOk(s, a); }
    forall b | 0 <= b < |s'.clients| ensures ClientOk(s', b) { assert ClientOk(s, b); }
  }

  lemma CSpuriousOk(s: State, s': State, j: nat)
    requires Inv(s) && CSpurious(s, s', j)
    ensures Inv(s')
  {
    forall u | 0 <= u < |s'.tasks| ensures TaskOk(s', u) { if u < |s.tasks| { assert TaskOk(s, u); } }
    forall a | 0 <= a < |s'.workers| ensures WorkerOk(s', a) { assert WorkerOk(s, a); }
    forall b | 0 <= b < |s'.clients| ensures ClientOk(s', b) { assert ClientOk(s, b); }
  }

  lemma CBeginDestroyOk(s: State, s': State, j: nat)
    requires Inv(s) && CBeginDestroy(s, s', j)
    ensures Inv(s')
  {
    assert s.queue != [] ==> TaskOk(s, s.queue[0]);
    forall u | 0 <= u < |s'.tasks| ensures TaskOk(s', u) { if u < |s.tasks| { assert TaskOk(s, u); } }
    forall a | 0 <= a < |s'.workers| ensures WorkerOk(s', a) { assert WorkerOk(s, a); }
    forall b | 0 <= b < |s'.clients| ensures ClientOk(s', b) { assert ClientOk(s, b); }
  }

  lemma CDesLockOk(s: State, s': State, j: nat)
    requires Inv(s) && CDesLock(s, s', j)
    ensures Inv(s')
  {
    forall u | 0 <= u < |s'.tasks| ensures TaskOk(s', u) { if u < |s.tasks| { assert TaskOk(s, u); } }
    forall a | 0 <= a < |s'.workers| ensures WorkerOk(s', a) { assert WorkerOk(s, a); }
    forall b | 0 <= b < |s'.clients| ensures ClientOk(s', b) { assert ClientOk(s, b); }
  }

  lemma CShutdownOk(s: State, s': State, j: nat)
    requires Inv(s) && CShutdown(s, s', j)
    ensures Inv(s')
  {
    assert ClientOk(s, j);
    forall u | 0 <= u < |s'.tasks| ensures TaskOk(s', u) { if u < |s.tasks| { assert TaskOk(s, u); } }
    forall a | 0 <= a < |s'.workers| ensures WorkerOk(s', a) { assert WorkerOk(s, a); }
    forall b | 0 <= b < |s'.clients| ensures ClientOk(s', b) { assert ClientOk(s, b); }
  }

  lemma CBroadcastOk(s: State, s': State, j: nat)
    requires Inv(s) && CBroadcast(s, s', j)
    ensures Inv(s')
  {
    forall u | 0 <= u < |s'.tasks| ensures TaskOk(s', u) { if u < |s.tasks| { assert TaskOk(s, u); } }
    forall a | 0 <= a < |s'.workers| ensures WorkerOk(s', a) { assert WorkerOk(s, a); }
    forall b | 0 <= b < |s'.clients| ensures ClientOk(s', b) { assert ClientOk(s, b); }
  }

  lemma CReapOk(s: State, s': State, j: nat)
    requires Inv(s) && CReap(s, s', j)
    ensures Inv(s')
  {
    forall u | 0 <= u < |s'.tasks| ensures TaskOk(s', u) { if u < |s.tasks| { assert TaskOk(s, u); } }
    forall a | 0 <= a < |s'.workers| ensures WorkerOk(s', a) { assert WorkerOk(s, a); }
    forall b | 0 <= b < |s'.clients| ensures ClientOk(s', b) { assert ClientOk(s, b); }
  }

  // ---- every step, every run ----

  lemma WorkerStepOk(s: State, s': State, i: nat)
    requires Inv(s) && WorkerStep(s, s', i)
    ensures Inv(s')
  {
    hide Inv, WAcquire, WCheck, WRun, WRelock, WFinish, WAnnounce;
    if WAcquire(s, s', i) { WAcquireOk(s, s', i); }
    else if WCheck(s, s', i) { WCheckOk(s, s', i); }
    else if WRun(s, s', i) { WRunOk(s, s', i); }
    else if WRelock(s, s', i) { WRelockOk(s, s', i); }
    else if WFinish(s, s', i) { WFinishOk(s, s', i); }
    else { WAnnounceOk(s, s', i); }
  }

  lemma ClientStepOk(s: State, s': State, j: nat, w: nat)
    requires Inv(s) && ClientStep(s, s', j, w)
    ensures Inv(s')
  {
    hide Inv, CSubLock, CEnqueue, CSignal, CJoinLock, CJoinCheck, CJoinRead, CDesLock, CShutdown, CBroadcast, CReap;
    if CSubLock(s, s', j) { CSubLockOk(s, s', j); }
    else if CEnqueue(s, s', j) { CEnqueueOk(s, s', j); }
    else if CSignal(s, s', j, w) { CSignalOk(s, s', j, w); }
    else if CJoinLock(s, s', j) { CJoinLockOk(s, s', j); }
    else if CJoinCheck(s, s', j) { CJoinCheckOk(s, s', j); }
    else if CJoinRead(s, s', j) { CJoinReadOk(s, s', j); }
    else if CDesLock(s, s', j) { CDesLockOk(s, s', j); }
    else if CShutdown(s, s', j) { CShutdownOk(s, s', j); }
    else if CBroadcast(s, s', j) { CBroadcastOk(s, s', j); }
    else { CReapOk(s, s', j); }
  }

  lemma ProgressOk(s: State, s': State)
    requires Inv(s) && Progress(s, s')
    ensures Inv(s')
  {
    hide Inv, WorkerStep, ClientStep;
    if i :| WorkerStep(s, s', i) {
      WorkerStepOk(s, s', i);
    } else {
      var j, w :| ClientStep(s, s', j, w);
      ClientStepOk(s, s', j, w);
    }
  }

  lemma NextOk(s: State, s': State)
    requires Inv(s) && Next(s, s')
    ensures Inv(s')
  {
    hide Inv, Progress, CBeginSubmit, CBeginJoin, CBeginDestroy, WSpurious, CSpurious;
    if Progress(s, s') {
      ProgressOk(s, s');
    } else if Begins(s, s') {
      if j, fn, arg :| CBeginSubmit(s, s', j, fn, arg) {
        CBeginSubmitOk(s, s', j, fn, arg);
      } else if j, t :| CBeginJoin(s, s', j, t) {
        CBeginJoinOk(s, s', j, t);
      } else {
        var j :| CBeginDestroy(s, s', j);
        CBeginDestroyOk(s, s', j);
      }
    } else if i :| WSpurious(s, s', i) {
      WSpuriousOk(s, s', i);
    } else {
      var j :| CSpurious(s, s', j);
      CSpuriousOk(s, s', j);
    }
  }

  lemma {:induction false} RunOk(run: seq<State>, k: nat)
    requires Run(run) && k < |run|
    ensures Inv(run[k])
  {
    hide Inv, Next, Init;
    if k == 0 {
      InitOk(run[0]);
    } else {
      RunOk(run, k - 1);
      assert Next(run[k - 1], run[k - 1 + 1]);
      NextOk(run[k - 1], run[k]);
    }
  }

  // ---- what the invariant says ----

  ghost predicate WithWorker(s: State, t: nat) {
    exists i :: 0 <= i < |s.workers| && WorksOn(s.workers[i], t)
      && forall h :: 0 <= h < |s.workers| && WorksOn(s.workers[h], t) ==> h == i
  }

  ghost predicate WithNoWorker(s: State, t: nat) {
    forall i :: 0 <= i < |s.workers| ==> !WorksOn(s.workers[i], t)
  }

  /** Queued, or with exactly one worker, or done. */
  ghost predicate InOnePlace(s: State, t: nat) {
    t < |s.tasks|
    && (if t in s.queue then !s.tasks[t].done && WithNoWorker(s, t)
        else if s.tasks[t].done then WithNoWorker(s, t)
        else WithWorker(s, t))
    && s.tasks[t].runs <= 1 && (s.tasks[t].done ==> s.tasks[t].runs == 1)
  }

  /** At every point of every run, a submitted task is queued, or with exactly one worker, or done, and
      only one of these; it runs once. */
  lemma ExactlyOnePlace(run: seq<State>, k: nat, t: nat)
    requires Run(run) && k < |run| && t in run[k].submitted
    ensures InOnePlace(run[k], t)
  {
    hide Run;
    RunOk(run, k);
    var s := run[k];
    SubmittedTask(s, t);
    assert TaskOk(s, t);
    forall i | 0 <= i < |s.workers| && WorksOn(s.workers[i], t) ensures s.tasks[t].place == AtWorker(i) { assert WorkerOk(s, i); }
  }

  lemma SubmittedTask(s: State, t: nat)
    requires QueueOk(s) && t in s.submitted
    ensures t < |s.tasks| && !s.tasks[t].place.AtClient? && (t in s.queue <==> s.tasks[t].place.Queued?)
  {
    if t in s.queue {
      var k :| 0 <= k < |s.queue| && s.queue[k] == t;
    } else {
      assert t in s.started;
      var k :| 0 <= k < |s.started| && s.started[k] == t;
    }
  }

  /** Tasks are taken in the order they were submitted. */
  lemma FirstInFirstOut(run: seq<State>, k: nat)
    requires Run(run) && k < |run|
    ensures run[k].started <= run[k].submitted && run[k].submitted == run[k].started + run[k].queue
  {
    hide Run;
    RunOk(run, k);
  }

  /** A join returns the result of its own task. */
  lemma JoinReturnsOwnResult(run: seq<State>, k: nat, t: nat)
    requires Run(run) && k < |run| && t in run[k].returned
    ensures t < |run[k].tasks| && run[k].returned[t] == run[k].tasks[t].fn(run[k].tasks[t].arg)
  {
    hide Run;
    RunOk(run, k);
    assert TaskOk(run[k], t);
  }

  ghost predicate SameWork(s: State, s': State, t: nat) {
    t < |s.tasks| && t < |s'.tasks| && s'.tasks[t].fn == s.tasks[t].fn && s'.tasks[t].arg == s.tasks[t].arg
  }

  lemma WorkerSameWork(s: State, s': State, i: nat, t: nat)
    requires WorkerStep(s, s', i) && t < |s.tasks|
    ensures SameWork(s, s', t)
  {
    hide WakeJoiners;
  }

  lemma ClientSameWork(s: State, s': State, j: nat, w: nat, t: nat)
    requires ClientStep(s, s', j, w) && t < |s.tasks|
    ensures SameWork(s, s', t)
  {
    hide WakeWorkers;
  }

  /** No step changes what a task runs, or on what. */
  lemma NextSameWork(s: State, s': State, t: nat)
    requires Next(s, s') && t < |s.tasks|
    ensures SameWork(s, s', t)
  {
    hide WorkerStep, ClientStep;
    if i :| WorkerStep(s, s', i) {
      WorkerSameWork(s, s', i, t);
    } else if j, w :| ClientStep(s, s', j, w) {
      ClientSameWork(s, s', j, w, t);
    } else if j, fn, arg :| CBeginSubmit(s, s', j, fn, arg) {
    } else if j, u :| CBeginJoin(s, s', j, u) {
    } else if j :| CBeginDestroy(s, s', j) {
    }
  }

  lemma {:induction false} RunSameWork(run: seq<State>, k: nat, m: nat, t: nat)
    requires Run(run) && k <= m < |run| && t < |run[k].tasks|
    ensures SameWork(run[k], run[m], t)
    decreases m
  {
    hide Next, Init;
    if k < m {
      RunSameWork(run, k, m - 1, t);
      assert Next(run[m - 1], run[m - 1 + 1]);
      NextSameWork(run[m - 1], run[m], t);
    }
  }

  /** What a join returns is the submitted function on the submitted argument, however long ago and by
      whatever steps between. */
  lemma JoinReturnsSubmitted(run: seq<State>, k: nat, j: nat, fn: int -> int, arg: int, m: nat)
    requires Run(run) && k < m < |run| && CBeginSubmit(run[k], run[k + 1], j, fn, arg)
    requires |run[k].tasks| in run[m].returned
    ensures run[m].returned[|run[k].tasks|] == fn(arg)
  {
    hide Run;
    var t := |run[k].tasks|;
    RunSameWork(run, k + 1, m, t);
    JoinReturnsOwnResult(run, m, t);
  }

  /** Nobody holds a freed task: no worker, no client, and not the queue. */
  lemma FreeIsSafe(run: seq<State>, k: nat, t: nat)
    requires Run(run) && k < |run| && t < |run[k].tasks| && run[k].tasks[t].freed
    ensures t !in run[k].queue
    ensures forall i :: 0 <= i < |run[k].workers| ==> !WorksOn(run[k].workers[i], t)
    ensures forall j :: 0 <= j < |run[k].clients| ==> !Joins(run[k].clients[j], t) && !Submits(run[k].clients[j], t)
  {
    hide Run;
    RunOk(run, k);
    var s := run[k];
    assert TaskOk(s, t);
    forall i | 0 <= i < |s.workers| ensures !WorksOn(s.workers[i], t) { assert WorkerOk(s, i); }
    forall j | 0 <= j < |s.clients| ensures !Joins(s.clients[j], t) && !Submits(s.clients[j], t) { assert ClientOk(s, j); }
  }

  /** A worker leaves only once the pool is shutting down and the queue is empty. */
  lemma ExitDrained(run: seq<State>, k: nat, i: nat)
    requires Run(run) && k < |run| && i < |run[k].workers| && run[k].workers[i].Exited?
    ensures run[k].shutdown && run[k].queue == []
  {
    hide Run;
    RunOk(run, k);
    assert WorkerOk(run[k], i);
  }

  /** When destroying the pool has ended, every submitted task has been run, also those submitted and not
      yet started when it began. */
  lemma DestroyDrains(run: seq<State>, k: nat, j: nat, t: nat)
    requires Run(run) && k < |run| && j < |run[k].clients| && run[k].clients[j].Gone? && t in run[k].submitted
    ensures t < |run[k].tasks| && run[k].tasks[t].done && HasResult(run[k].tasks[t])
  {
    hide Run;
    RunOk(run, k);
    var s := run[k];
    SubmittedTask(s, t);
    assert ClientOk(s, j) && TaskOk(s, t) && WorkerOk(s, 0);
  }

  /** No lost wake-up: while a task waits, some worker is not asleep, or its signal is about to come. */
  lemma NoLostWakeup(run: seq<State>, k: nat)
    requires Run(run) && k < |run| && run[k].queue != []
    ensures SomeAwake(run[k].workers) || Signalling(run[k])
  {
    hide Run;
    RunOk(run, k);
  }
}
