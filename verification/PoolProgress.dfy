/** The pool never stops short: while anything is unfinished some running thread has a step, and only so
    many steps can be taken before everything is finished. */
module PoolProgress {
  import opened Basics
  import opened Pool
  import opened PoolSafety

  /** Nothing is left to do: every submitted task is done, no client is inside a call, and a pool being
      destroyed has been. */
  ghost predicate Quiet(s: State) {
    && (forall t :: t in s.submitted ==> t < |s.tasks| && s.tasks[t].done)
    && (forall j :: 0 <= j < |s.clients| ==> s.clients[j].Idle? || s.clients[j].Gone?)
  }

  ghost predicate CanStep(s: State) {
    exists s' :: Progress(s, s')
  }

  // ---- a thread inside a critical section, or with the mutex free, has a step ----

  lemma WorkerCan(s: State, s': State, i: nat)
    requires WorkerStep(s, s', i)
    ensures CanStep(s)
  {
    hide WorkerStep;
    assert Progress(s, s');
  }

  lemma ClientCan(s: State, s': State, j: nat, w: nat)
    requires ClientStep(s, s', j, w)
    ensures CanStep(s)
  {
    hide ClientStep;
    assert Progress(s, s');
  }

  /** Whoever holds the mutex can go on. */
  lemma HolderCan(s: State)
    requires Inv(s) && s.mutex.Some?
    ensures CanStep(s)
  {
    hide CanStep;
    match s.mutex.value
    case Worker(i) => WorkerHolderCan(s, i);
    case Client(j) => ClientHolderCan(s, j);
  }

  lemma WorkerHolderCan(s: State, i: nat)
    requires Inv(s) && s.mutex == Some(Worker(i))
    ensures CanStep(s)
  {
    hide CanStep;
    assert WorkerOk(s, i);
    match s.workers[i]
    case Check =>
      WorkerCan(s, if s.queue == [] then SetW(s, i, if s.shutdown then Exited else Asleep, None) else Took(s, i), i);
    case Finish(t) =>
      WorkerCan(s, SetW(s, i, Announce, s.mutex).(tasks := s.tasks[t := s.tasks[t].(done := true, place := Finished)]), i);
    case Announce => WorkerCan(s, SetW(s, i, Lock, None).(clients := WakeJoiners(s.clients)), i);
    case _ =>
  }

  /** Whom a signal wakes. */
  lemma SleeperOrNone(s: State) returns (w: nat)
    requires |s.workers| >= 1
    ensures w < |s.workers| && (s.workers[w].Asleep? || forall i :: 0 <= i < |s.workers| ==> !s.workers[i].Asleep?)
  {
    if i :| 0 <= i < |s.workers| && s.workers[i].Asleep? { w := i; } else { w := 0; }
  }

  lemma ClientHolderCan(s: State, j: nat)
    requires Inv(s) && s.mutex == Some(Client(j))
    ensures CanStep(s)
  {
    hide CanStep;
    assert ClientOk(s, j);
    match s.clients[j]
    case SubHold(t) =>
      ClientCan(s, SetC(s, j, SubSignal, s.mutex).(queue := s.queue + [t], submitted := s.submitted + [t],
                                                    tasks := s.tasks[t := s.tasks[t].(place := Queued)]), j, 0);
    case SubSignal =>
      var w := SleeperOrNone(s);
      ClientCan(s, SetC(s, j, Idle, None).(workers := if s.workers[w].Asleep? then s.workers[w := Woken] else s.workers), j, w);
    case JoinCheck(t) => ClientCan(s, SetC(s, j, if s.tasks[t].done then JoinRead(t) else JoinAsleep(t), None), j, 0);
    case DesHold => ClientCan(s, SetC(s, j, DesBroadcast, s.mutex).(shutdown := true), j, 0);
    case DesBroadcast => ClientCan(s, SetC(s, j, DesWait, None).(workers := WakeWorkers(s.workers)), j, 0);
    case _ =>
  }

  /** With the mutex free, a worker that is neither asleep nor gone can go on. */
  lemma AwakeCan(s: State, i: nat)
    requires Inv(s) && s.mutex.None? && i < |s.workers| && Awake(s.workers[i])
    ensures CanStep(s)
  {
    hide CanStep;
    assert WorkerOk(s, i);
    match s.workers[i]
    case Lock => WorkerCan(s, SetW(s, i, Check, Some(Worker(i))), i);
    case Woken => WorkerCan(s, SetW(s, i, Check, Some(Worker(i))), i);
    case Running(t) =>
      var k := s.tasks[t];
      WorkerCan(s, SetW(s, i, Ready(t), s.mutex).(tasks := s.tasks[t := k.(result := Some(k.fn(k.arg)), runs := k.runs + 1)]), i);
    case Ready(t) => WorkerCan(s, SetW(s, i, Finish(t), Some(Worker(i))), i);
    case _ =>
  }

  /** With the mutex free, an unfinished task has a worker that can go on. */
  lemma UnfinishedCan(s: State, t: nat)
    requires Inv(s) && s.mutex.None? && t in s.submitted && !(t < |s.tasks| && s.tasks[t].done)
    ensures CanStep(s)
  {
    hide CanStep;
    SubmittedTask(s, t);
    assert TaskOk(s, t);
    if s.tasks[t].place.Queued? {
      var i :| 0 <= i < |s.workers| && Awake(s.workers[i]);
      AwakeCan(s, i);
    } else {
      AwakeCan(s, s.tasks[t].place.i);
    }
  }

  /** With the mutex free, a client inside a call can go on, or is waiting for an unfinished task, or for
      workers that can. */
  lemma ClientCanGoOn(s: State, j: nat)
    requires Inv(s) && s.mutex.None? && j < |s.clients| && !s.clients[j].Idle? && !s.clients[j].Gone?
    ensures CanStep(s)
  {
    hide CanStep;
    assert ClientOk(s, j);
    match s.clients[j]
    case SubLock(t) => ClientCan(s, SetC(s, j, SubHold(t), Some(Client(j))), j, 0);
    case JoinLock(t) => ClientCan(s, SetC(s, j, JoinCheck(t), Some(Client(j))), j, 0);
    case JoinWoken(t) => ClientCan(s, SetC(s, j, JoinCheck(t), Some(Client(j))), j, 0);
    case JoinAsleep(t) => UnfinishedCan(s, t);
    case JoinRead(t) =>
      assert TaskOk(s, t);
      ClientCan(s, SetC(s, j, Idle, s.mutex).(tasks := s.tasks[t := s.tasks[t].(freed := true)],
                                               returned := s.returned[t := s.tasks[t].result.value]), j, 0);
    case DesLock => ClientCan(s, SetC(s, j, DesHold, Some(Client(j))), j, 0);
    case DesWait =>
      if i :| 0 <= i < |s.workers| && !s.workers[i].Exited? {
        AwakeCan(s, i);
      } else {
        ClientCan(s, SetC(s, j, Gone, s.mutex), j, 0);
      }
    case _ =>
  }

  /** While a submitted task is unfinished, or a client is inside a call, some thread has a step. */
  lemma NeverStuck(s: State)
    requires Inv(s) && !Quiet(s)
    ensures CanStep(s)
  {
    hide Inv, CanStep;
    if s.mutex.Some? {
      HolderCan(s);
    } else if t :| t in s.submitted && !(t < |s.tasks| && s.tasks[t].done) {
      UnfinishedCan(s, t);
    } else {
      var j :| 0 <= j < |s.clients| && !s.clients[j].Idle? && !s.clients[j].Gone?;
      ClientCanGoOn(s, j);
    }
  }

  // ---- a measure of the work left ----

  function WWeight(pc: WPc, m: nat): nat {
    match pc
    case Asleep => 0
    case Exited => 0
    case Check => 1
    case Lock => 2
    case Woken => 2
    case Announce => 3 * m + 3
    case Finish(_) => 3 * m + 4
    case Ready(_) => 3 * m + 5
    case Running(_) => 3 * m + 6
  }

  function CWeight(pc: CPc, n: nat, m: nat): nat {
    match pc
    case Idle => 0
    case Gone => 0
    case JoinAsleep(_) => 0
    case JoinRead(_) => 1
    case JoinCheck(_) => 2
    case JoinLock(_) => 3
    case JoinWoken(_) => 3
    case SubSignal => 3
    case SubHold(_) => 3 * m + 10
    case SubLock(_) => 3 * m + 11
    case DesWait => 1
    case DesBroadcast => 2 * n + 2
    case DesHold => 2 * n + 3
    case DesLock => 2 * n + 4
  }

  function WSum(ws: seq<WPc>, m: nat): nat {
    if ws == [] then 0 else WWeight(ws[0], m) + WSum(ws[1..], m)
  }

  function CSum(cs: seq<CPc>, n: nat, m: nat): nat {
    if cs == [] then 0 else CWeight(cs[0], n, m) + CSum(cs[1..], n, m)
  }

  /** Steps left before the pool is quiet: each thread's way to the end of what it is doing, each queued
      task's run, and the wake-ups still to be caused. */
  function WorkLeft(s: State): nat {
    WSum(s.workers, |s.clients|) + CSum(s.clients, |s.workers|, |s.clients|) + |s.queue| * (3 * |s.clients| + 6)
  }

  lemma {:induction false} WSumUpdate(ws: seq<WPc>, i: nat, pc: WPc, m: nat)
    requires i < |ws|
    ensures WSum(ws[i := pc], m) + WWeight(ws[i], m) == WSum(ws, m) + WWeight(pc, m)
  {
    if i > 0 {
      WSumUpdate(ws[1..], i - 1, pc, m);
      assert ws[i := pc][1..] == ws[1..][i - 1 := pc];
    }
  }

  lemma {:induction false} CSumUpdate(cs: seq<CPc>, j: nat, pc: CPc, n: nat, m: nat)
    requires j < |cs|
    ensures CSum(cs[j := pc], n, m) + CWeight(cs[j], n, m) == CSum(cs, n, m) + CWeight(pc, n, m)
  {
    if j > 0 {
      CSumUpdate(cs[1..], j - 1, pc, n, m);
      assert cs[j := pc][1..] == cs[1..][j - 1 := pc];
    }
  }

  lemma {:induction false} WakeJoinersCost(cs: seq<CPc>, n: nat, m: nat)
    ensures CSum(WakeJoiners(cs), n, m) <= CSum(cs, n, m) + 3 * |cs|
  {
    if cs != [] {
      WakeJoinersCost(cs[1..], n, m);
      assert WakeJoiners(cs)[1..] == WakeJoiners(cs[1..]);
    }
  }

  lemma {:induction false} WakeWorkersCost(ws: seq<WPc>, m: nat)
    ensures WSum(WakeWorkers(ws), m) <= WSum(ws, m) + 2 * |ws|
  {
    if ws != [] {
      WakeWorkersCost(ws[1..], m);
      assert WakeWorkers(ws)[1..] == WakeWorkers(ws[1..]);
    }
  }

  lemma QueueWeight(n: nat, m: nat)
    ensures (n + 1) * (3 * m + 6) == n * (3 * m + 6) + 3 * m + 6
  {}

  /** A worker moves to `pc`; the queue and the clients are as they were. */
  lemma WorkerMoves(s: State, s': State, i: nat)
    requires i < |s.workers| == |s'.workers| && s'.workers == s.workers[i := s'.workers[i]]
    requires s'.clients == s.clients && |s'.queue| == |s.queue|
    ensures WorkLeft(s') + WWeight(s.workers[i], |s.clients|) == WorkLeft(s) + WWeight(s'.workers[i], |s.clients|)
  {
    hide WSum, CSum;
    WSumUpdate(s.workers, i, s'.workers[i], |s.clients|);
  }

  lemma TakeDrops(s: State, i: nat)
    requires i < |s.workers| && s.workers[i].Check? && s.queue != []
    ensures WorkLeft(Took(s, i)) < WorkLeft(s)
  {
    hide WSum, CSum;
    WSumUpdate(s.workers, i, Running(s.queue[0]), |s.clients|);
    QueueWeight(|s.queue| - 1, |s.clients|);
  }

  lemma AnnounceDrops(s: State, s': State, i: nat)
    requires WAnnounce(s, s', i)
    ensures WorkLeft(s') < WorkLeft(s)
  {
    hide WSum, CSum;
    WSumUpdate(s.workers, i, Lock, |s.clients|);
    WakeJoinersCost(s.clients, |s.workers|, |s.clients|);
  }

  lemma WorkerStepDrops(s: State, s': State, i: nat)
    requires WorkerStep(s, s', i)
    ensures WorkLeft(s') < WorkLeft(s)
  {
    hide WorkLeft;
    if WAnnounce(s, s', i) {
      AnnounceDrops(s, s', i);
    } else if WCheck(s, s', i) && s.queue != [] {
      TakeDrops(s, i);
    } else {
      WorkerMoves(s, s', i);
    }
  }

  /** A client moves to `pc`; the queue and the workers are as they were. */
  lemma ClientMoves(s: State, s': State, j: nat)
    requires j < |s.clients| == |s'.clients| && s'.clients == s.clients[j := s'.clients[j]]
    requires s'.workers == s.workers && |s'.queue| == |s.queue|
    ensures WorkLeft(s') + CWeight(s.clients[j], |s.workers|, |s.clients|)
         == WorkLeft(s) + CWeight(s'.clients[j], |s.workers|, |s.clients|)
  {
    hide WSum, CSum;
    CSumUpdate(s.clients, j, s'.clients[j], |s.workers|, |s.clients|);
  }

  lemma EnqueueDrops(s: State, s': State, j: nat)
    requires CEnqueue(s, s', j)
    ensures WorkLeft(s') < WorkLeft(s)
  {
    hide WSum, CSum;
    CSumUpdate(s.clients, j, SubSignal, |s.workers|, |s.clients|);
    QueueWeight(|s.queue|, |s.clients|);
  }

  lemma SignalDrops(s: State, s': State, j: nat, w: nat)
    requires CSignal(s, s', j, w)
    ensures WorkLeft(s') < WorkLeft(s)
  {
    hide WSum, CSum;
    CSumUpdate(s.clients, j, Idle, |s.workers|, |s.clients|);
    WSumUpdate(s.workers, w, Woken, |s.clients|);
  }

  lemma BroadcastDrops(s: State, s': State, j: nat)
    requires CBroadcast(s, s', j)
    ensures WorkLeft(s') < WorkLeft(s)
  {
    hide WSum, CSum;
    CSumUpdate(s.clients, j, DesWait, |s.workers|, |s.clients|);
    WakeWorkersCost(s.workers, |s.clients|);
  }

  lemma MoveDrops(s: State, s': State, j: nat)
    requires CSubLock(s, s', j) || CJoinLock(s, s', j) || CJoinCheck(s, s', j) || CJoinRead(s, s', j)
      || CDesLock(s, s', j) || CShutdown(s, s', j) || CReap(s, s', j)
    ensures WorkLeft(s') < WorkLeft(s)
  {
    hide WorkLeft;
    ClientMoves(s, s', j);
  }

  lemma ClientStepDrops(s: State, s': State, j: nat, w: nat)
    requires ClientStep(s, s', j, w)
    ensures WorkLeft(s') < WorkLeft(s)
  {
    hide WorkLeft, CSubLock, CEnqueue, CSignal, CJoinLock, CJoinCheck, CJoinRead, CDesLock, CShutdown, CBroadcast, CReap;
    if CEnqueue(s, s', j) {
      EnqueueDrops(s, s', j);
    } else if CSignal(s, s', j, w) {
      SignalDrops(s, s', j, w);
    } else if CBroadcast(s, s', j) {
      BroadcastDrops(s, s', j);
    } else {
      MoveDrops(s, s', j);
    }
  }

  /** Every step other than a new call or a spurious wake-up leaves less to do. */
  lemma ProgressDrops(s: State, s': State)
    requires Progress(s, s')
    ensures WorkLeft(s') < WorkLeft(s)
  {
    hide WorkerStep, ClientStep, WorkLeft;
    if i :| WorkerStep(s, s', i) {
      WorkerStepDrops(s, s', i);
    } else {
      var j, w :| ClientStep(s, s', j, w);
      ClientStepDrops(s, s', j, w);
    }
  }

  // ---- liveness ----

  ghost predicate Progressing(run: seq<State>) {
    |run| > 0 && forall k :: 0 <= k < |run| - 1 ==> Progress(run[k], run[k + 1])
  }

  /** Left alone, a pool takes no more steps than the work it has left ... */
  lemma {:induction false} RunsAreShort(run: seq<State>)
    requires Progressing(run)
    ensures |run| - 1 + WorkLeft(run[|run| - 1]) <= WorkLeft(run[0])
    decreases |run|
  {
    hide Progress, WorkLeft;
    if |run| > 1 {
      var k := |run| - 2;
      RunsAreShort(run[..|run| - 1]);
      assert Progress(run[k], run[k + 1]);
      ProgressDrops(run[k], run[k + 1]);
    }
  }

  /** ... and where no thread has a step left, every submitted task is done and every call has returned. */
  lemma StopsQuiet(s: State)
    requires Inv(s) && !CanStep(s)
    ensures Quiet(s)
  {
    hide Inv, CanStep, Quiet;
    if !Quiet(s) { NeverStuck(s); }
  }

  /** From every point of every run the pool can be run to quiet, whatever steps it takes on the way. */
  lemma {:induction false} Drains(s: State) returns (run: seq<State>)
    requires Inv(s)
    ensures Progressing(run) && run[0] == s && Inv(run[|run| - 1]) && Quiet(run[|run| - 1])
    decreases WorkLeft(s)
  {
    hide Inv, Progress, WorkLeft, Quiet;
    if s' :| Progress(s, s') {
      ProgressOk(s, s');
      ProgressDrops(s, s');
      var rest := Drains(s');
      run := [s] + rest;
    } else {
      StopsQuiet(s);
      run := [s];
    }
  }
}
