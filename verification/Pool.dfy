/** The worker pool as interleaved steps of workers and clients over a mutex, two condition variables
    and a first-in first-out queue. */
module Pool {
  import opened Basics

  /** Where a task is: with the client that submits it, in the queue, with one worker, or done. This and
      the joining client are auxiliary: no step looks at them. */
  datatype Place = AtClient(j: nat) | Queued | AtWorker(i: nat) | Finished

  /** A task: what it runs, what it has produced, and what has happened to it. */
  datatype Task = Task(
    fn: int -> int, arg: int, result: Option<int>, runs: nat, done: bool, claimed: bool, freed: bool,
    place: Place, joiner: Option<nat>)

  /** Where a worker stands. It holds the mutex at `Check`, `Finish` and `Announce`. */
  datatype WPc =
    | Lock
    | Check
    | Asleep
    | Woken
    | Running(t: nat)
    | Ready(t: nat)
    | Finish(t: nat)
    | Announce
    | Exited

  /** Where a client stands. It holds the mutex at `SubHold`, `SubSignal`, `JoinCheck`, `DesHold` and
      `DesBroadcast`. */
  datatype CPc =
    | Idle
    | SubLock(t: nat)
    | SubHold(t: nat)
    | SubSignal
    | JoinLock(t: nat)
    | JoinCheck(t: nat)
    | JoinAsleep(t: nat)
    | JoinWoken(t: nat)
    | JoinRead(t: nat)
    | DesLock
    | DesHold
    | DesBroadcast
    | DesWait
    | Gone

  datatype Who = Worker(i: nat) | Client(j: nat)

  datatype State = State(
    workers: seq<WPc>, clients: seq<CPc>, tasks: seq<Task>, mutex: Option<Who>, queue: seq<nat>,
    shutdown: bool, closer: Option<nat>,
    submitted: seq<nat>, started: seq<nat>, returned: map<nat, int>)

  // ---- worker steps ----

  function SetW(s: State, i: nat, pc: WPc, mutex: Option<Who>): State
    requires i < |s.workers|
  {
    s.(workers := s.workers[i := pc], mutex := mutex)
  }

  ghost predicate WAcquire(s: State, s': State, i: nat) {
    i < |s.workers| && (s.workers[i].Lock? || s.workers[i].Woken?) && s.mutex.None?
    && s' == SetW(s, i, Check, Some(Worker(i)))
  }

  function Took(s: State, i: nat): State
    requires i < |s.workers| && s.queue != []
  {
    var t := s.queue[0];
    SetW(s, i, Running(t), None).(
      queue := s.queue[1..], started := s.started + [t],
      tasks := if t < |s.tasks| then s.tasks[t := s.tasks[t].(place := AtWorker(i))] else s.tasks)
  }

  /** Under the mutex: sleep, leave, or take the oldest task. */
  ghost predicate WCheck(s: State, s': State, i: nat) {
    i < |s.workers| && s.workers[i].Check? && s.mutex == Some(Worker(i))
    && s' == if s.queue == [] then SetW(s, i, if s.shutdown then Exited else Asleep, None)
             else Took(s, i)
  }

  /** Run a task and write its result, without the mutex. */
  ghost predicate WRun(s: State, s': State, i: nat) {
    i < |s.workers| && s.workers[i].Running? && s.workers[i].t < |s.tasks|
    && var t := s.workers[i].t; var k := s.tasks[t];
    s' == SetW(s, i, Ready(t), s.mutex).(tasks := s.tasks[t := k.(result := Some(k.fn(k.arg)), runs := k.runs + 1)])
  }

  ghost predicate WRelock(s: State, s': State, i: nat) {
    i < |s.workers| && s.workers[i].Ready? && s.mutex.None?
    && s' == SetW(s, i, Finish(s.workers[i].t), Some(Worker(i)))
  }

  ghost predicate WFinish(s: State, s': State, i: nat) {
    i < |s.workers| && s.workers[i].Finish? && s.mutex == Some(Worker(i)) && s.workers[i].t < |s.tasks|
    && var t := s.workers[i].t;
    s' == SetW(s, i, Announce, s.mutex).(tasks := s.tasks[t := s.tasks[t].(done := true, place := Finished)])
  }

  function WakeJoiners(cs: seq<CPc>): seq<CPc> {
    seq(|cs|, j requires 0 <= j < |cs| => if cs[j].JoinAsleep? then JoinWoken(cs[j].t) else cs[j])
  }

  /** Broadcast that a task is done, and unlock. */
  ghost predicate WAnnounce(s: State, s': State, i: nat) {
    i < |s.workers| && s.workers[i].Announce? && s.mutex == Some(Worker(i))
    && s' == SetW(s, i, Lock, None).(clients := WakeJoiners(s.clients))
  }

  ghost predicate WSpurious(s: State, s': State, i: nat) {
    i < |s.workers| && s.workers[i].Asleep? && s' == SetW(s, i, Woken, s.mutex)
  }

  // ---- client steps ----

  function SetC(s: State, j: nat, pc: CPc, mutex: Option<Who>): State
    requires j < |s.clients|
  {
    s.(clients := s.clients[j := pc], mutex := mutex)
  }

  /** A client makes a task; submissions stop once the pool is being destroyed. */
  ghost predicate CBeginSubmit(s: State, s': State, j: nat, fn: int -> int, arg: int) {
    j < |s.clients| && s.clients[j].Idle? && s.closer.None?
    && s' == SetC(s, j, SubLock(|s.tasks|), s.mutex).(tasks := s.tasks + [Task(fn, arg, None, 0, false, false, false, AtClient(j), None)])
  }

  ghost predicate CSubLock(s: State, s': State, j: nat) {
    j < |s.clients| && s.clients[j].SubLock? && s.mutex.None?
    && s' == SetC(s, j, SubHold(s.clients[j].t), Some(Client(j)))
  }

  ghost predicate CEnqueue(s: State, s': State, j: nat) {
    j < |s.clients| && s.clients[j].SubHold? && s.mutex == Some(Client(j)) && s.clients[j].t < |s.tasks|
    && var t := s.clients[j].t;
    s' == SetC(s, j, SubSignal, s.mutex).(queue := s.queue + [t], submitted := s.submitted + [t],
                                           tasks := s.tasks[t := s.tasks[t].(place := Queued)])
  }

  /** Signal wakes one sleeping worker, if there is one, and unlock. */
  ghost predicate CSignal(s: State, s': State, j: nat, w: nat) {
    j < |s.clients| && s.clients[j].SubSignal? && s.mutex == Some(Client(j)) && w < |s.workers|
    && (s.workers[w].Asleep? || forall i :: 0 <= i < |s.workers| ==> !s.workers[i].Asleep?)
    && s' == SetC(s, j, Idle, None).(workers := if s.workers[w].Asleep? then s.workers[w := Woken] else s.workers)
  }

  /** A client starts to wait for a submitted task nobody else waits for. */
  ghost predicate CBeginJoin(s: State, s': State, j: nat, t: nat) {
    j < |s.clients| && s.clients[j].Idle? && t in s.submitted && t < |s.tasks| && !s.tasks[t].claimed && s.closer.None?
    && s' == SetC(s, j, JoinLock(t), s.mutex).(tasks := s.tasks[t := s.tasks[t].(claimed := true, joiner := Some(j))])
  }

  ghost predicate CJoinLock(s: State, s': State, j: nat) {
    j < |s.clients| && (s.clients[j].JoinLock? || s.clients[j].JoinWoken?) && s.mutex.None?
    && s' == SetC(s, j, JoinCheck(s.clients[j].t), Some(Client(j)))
  }

  ghost predicate CJoinCheck(s: State, s': State, j: nat) {
    j < |s.clients| && s.clients[j].JoinCheck? && s.mutex == Some(Client(j)) && s.clients[j].t < |s.tasks|
    && var t := s.clients[j].t;
    s' == SetC(s, j, if s.tasks[t].done then JoinRead(t) else JoinAsleep(t), None)
  }

  /** Read the result and free its task, without the mutex. */
  ghost predicate CJoinRead(s: State, s': State, j: nat) {
    j < |s.clients| && s.clients[j].JoinRead? && s.clients[j].t < |s.tasks| && s.tasks[s.clients[j].t].result.Some?
    && var t := s.clients[j].t;
    s' == SetC(s, j, Idle, s.mutex).(tasks := s.tasks[t := s.tasks[t].(freed := true)],
                                      returned := s.returned[t := s.tasks[t].result.value])
  }

  ghost predicate CSpurious(s: State, s': State, j: nat) {
    j < |s.clients| && s.clients[j].JoinAsleep? && s' == SetC(s, j, JoinWoken(s.clients[j].t), s.mutex)
  }

  /** The pool is destroyed while no client is inside a call; tasks may still be waiting or running. */
  ghost predicate CBeginDestroy(s: State, s': State, j: nat) {
    j < |s.clients| && (forall k :: 0 <= k < |s.clients| ==> s.clients[k].Idle?) && s.closer.None?
    && s' == SetC(s, j, DesLock, s.mutex).(closer := Some(j))
  }

  ghost predicate CDesLock(s: State, s': State, j: nat) {
    j < |s.clients| && s.clients[j].DesLock? && s.mutex.None? && s' == SetC(s, j, DesHold, Some(Client(j)))
  }

  ghost predicate CShutdown(s: State, s': State, j: nat) {
    j < |s.clients| && s.clients[j].DesHold? && s.mutex == Some(Client(j))
    && s' == SetC(s, j, DesBroadcast, s.mutex).(shutdown := true)
  }

  function WakeWorkers(ws: seq<WPc>): seq<WPc> {
    seq(|ws|, i requires 0 <= i < |ws| => if ws[i].Asleep? then Woken else ws[i])
  }

  ghost predicate CBroadcast(s: State, s': State, j: nat) {
    j < |s.clients| && s.clients[j].DesBroadcast? && s.mutex == Some(Client(j))
    && s' == SetC(s, j, DesWait, None).(workers := WakeWorkers(s.workers))
  }

  ghost predicate CReap(s: State, s': State, j: nat) {
    j < |s.clients| && s.clients[j].DesWait? && (forall i :: 0 <= i < |s.workers| ==> s.workers[i].Exited?)
    && s' == SetC(s, j, Gone, s.mutex)
  }

  // ---- runs ----

  /** The steps a thread takes once it is running: no spurious wake-up, no new client call. */
  ghost predicate WorkerStep(s: State, s': State, i: nat) {
    WAcquire(s, s', i) || WCheck(s, s', i) || WRun(s, s', i) || WRelock(s, s', i) || WFinish(s, s', i) || WAnnounce(s, s', i)
  }

  ghost predicate ClientStep(s: State, s': State, j: nat, w: nat) {
    CSubLock(s, s', j) || CEnqueue(s, s', j) || CSignal(s, s', j, w) || CJoinLock(s, s', j) || CJoinCheck(s, s', j)
    || CJoinRead(s, s', j) || CDesLock(s, s', j) || CShutdown(s, s', j) || CBroadcast(s, s', j) || CReap(s, s', j)
  }

  ghost predicate Progress(s: State, s': State) {
    (exists i :: WorkerStep(s, s', i)) || exists j, w :: ClientStep(s, s', j, w)
  }

  ghost predicate Begins(s: State, s': State) {
    (exists j, fn, arg :: CBeginSubmit(s, s', j, fn, arg)) || (exists j, t :: CBeginJoin(s, s', j, t))
    || exists j :: CBeginDestroy(s, s', j)
  }

  ghost predicate Spurious(s: State, s': State) {
    (exists i :: WSpurious(s, s', i)) || exists j :: CSpurious(s, s', j)
  }

  ghost predicate Next(s: State, s': State) {
    Progress(s, s') || Begins(s, s') || Spurious(s, s')
  }

  /** A pool with at least one thread, all of them about to take the mutex. */
  predicate Init(s: State) {
    && |s.workers| >= 1 && (forall i :: 0 <= i < |s.workers| ==> s.workers[i].Lock?)
    && (forall j :: 0 <= j < |s.clients| ==> s.clients[j].Idle?)
    && s.tasks == [] && s.mutex.None? && s.queue == [] && !s.shutdown && s.closer.None?
    && s.submitted == [] && s.started == [] && s.returned == map[]
  }

  ghost predicate Run(run: seq<State>) {
    |run| > 0 && Init(run[0]) && forall k :: 0 <= k < |run| - 1 ==> Next(run[k], run[k + 1])
  }

  // ---- the invariant ----

  predicate WHolds(pc: WPc) {
    pc.Check? || pc.Finish? || pc.Announce?
  }

  predicate CHolds(pc: CPc) {
    pc.SubHold? || pc.SubSignal? || pc.JoinCheck? || pc.DesHold? || pc.DesBroadcast?
  }

  /** The mutex belongs to the one thread that stands inside a critical section. */
  ghost predicate MutexOk(s: State) {
    && (forall i :: 0 <= i < |s.workers| ==> (WHolds(s.workers[i]) <==> s.mutex == Some(Worker(i))))
    && (forall j :: 0 <= j < |s.clients| ==> (CHolds(s.clients[j]) <==> s.mutex == Some(Client(j))))
    && (s.mutex.Some? && s.mutex.value.Worker? ==> s.mutex.value.i < |s.workers|)
    && (s.mutex.Some? && s.mutex.value.Client? ==> s.mutex.value.j < |s.clients|)
  }

  predicate WorksOn(pc: WPc, t: nat) {
    (pc.Running? || pc.Ready? || pc.Finish?) && pc.t == t
  }

  predicate Submits(pc: CPc, t: nat) {
    (pc.SubLock? || pc.SubHold?) && pc.t == t
  }

  predicate Joins(pc: CPc, t: nat) {
    (pc.JoinLock? || pc.JoinCheck? || pc.JoinAsleep? || pc.JoinWoken? || pc.JoinRead?) && pc.t == t
  }

  predicate Closes(pc: CPc) {
    pc.DesLock? || pc.DesHold? || pc.DesBroadcast? || pc.DesWait? || pc.Gone?
  }

  /** The result a task owes. */
  predicate HasResult(k: Task) {
    k.result == Some(k.fn(k.arg)) && k.runs == 1
  }

  predicate Untouched(k: Task) {
    k.result.None? && k.runs == 0 && !k.done
  }

  /** A task is where it says, as far along as that means, and freed only when done and joined. */
  ghost predicate TaskOk(s: State, t: nat)
    requires t < |s.tasks|
  {
    var k := s.tasks[t];
    && (match k.place
        case AtClient(j) => j < |s.clients| && Submits(s.clients[j], t) && t !in s.submitted && Untouched(k)
        case Queued => t in s.queue && Untouched(k)
        case AtWorker(i) =>
          i < |s.workers| && WorksOn(s.workers[i], t) && t in s.started && !k.done
          && if s.workers[i].Running? then Untouched(k) else HasResult(k)
        case Finished => t in s.started && k.done && HasResult(k))
    && (k.freed ==> k.done && k.claimed) && (k.claimed <==> k.joiner.Some?)
    && (t in s.returned <==> k.freed) && (k.freed ==> s.returned[t] == k.fn(k.arg))
  }

  /** A worker's task is at that worker; it has left only from an empty queue after shutdown. */
  ghost predicate WorkerOk(s: State, i: nat)
    requires i < |s.workers|
  {
    var pc := s.workers[i];
    && (pc.Running? || pc.Ready? || pc.Finish? ==> pc.t < |s.tasks| && s.tasks[pc.t].place == AtWorker(i))
    && (pc.Exited? ==> s.shutdown && s.queue == [])
  }

  /** A broadcast that a task is done is still to come. */
  predicate Announcing(s: State) {
    s.mutex.Some? && s.mutex.value.Worker? && s.mutex.value.i < |s.workers| && s.workers[s.mutex.value.i].Announce?
  }

  /** A signal that a task is queued is still to come. */
  predicate Signalling(s: State) {
    s.mutex.Some? && s.mutex.value.Client? && s.mutex.value.j < |s.clients| && s.clients[s.mutex.value.j].SubSignal?
  }

  /** A client's task is its own to submit, or its own to join; a client asleep on a finished task has
      its broadcast still to come. */
  ghost predicate ClientOk(s: State, j: nat)
    requires j < |s.clients|
  {
    var pc := s.clients[j];
    && (pc.SubLock? || pc.SubHold? ==> pc.t < |s.tasks| && s.tasks[pc.t].place == AtClient(j))
    && (pc.JoinLock? || pc.JoinCheck? || pc.JoinAsleep? || pc.JoinWoken? || pc.JoinRead? ==>
          pc.t < |s.tasks| && pc.t in s.submitted && s.tasks[pc.t].joiner == Some(j) && !s.tasks[pc.t].freed)
    && (pc.JoinRead? ==> s.tasks[pc.t].done)
    && (pc.JoinAsleep? && s.tasks[pc.t].done ==> Announcing(s))
    && (Closes(pc) <==> s.closer == Some(j)) && (s.closer.Some? && !Closes(pc) ==> pc.Idle?)
    && (pc.DesBroadcast? || pc.DesWait? || pc.Gone? ==> s.shutdown)
  }

  /** First in, first out: what was taken and what waits is what was submitted, in order. */
  ghost predicate QueueOk(s: State) {
    && s.submitted == s.started + s.queue && Distinct(s.submitted)
    && (forall k :: 0 <= k < |s.queue| ==> s.queue[k] < |s.tasks| && s.tasks[s.queue[k]].place.Queued?)
    && (forall k :: 0 <= k < |s.started| ==>
          s.started[k] < |s.tasks| && (s.tasks[s.started[k]].place.AtWorker? || s.tasks[s.started[k]].place.Finished?))
  }

  /** A worker that will look at the queue again. */
  predicate Awake(pc: WPc) {
    !pc.Asleep? && !pc.Exited?
  }

  predicate SomeAwake(ws: seq<WPc>) {
    exists i :: 0 <= i < |ws| && Awake(ws[i])
  }

  /** No lost wake-up: a waiting task has an awake worker, or its signal is still to come. */
  ghost predicate WakeOk(s: State) {
    |s.workers| >= 1 && (s.queue != [] ==> SomeAwake(s.workers) || Signalling(s))
  }

  /** Destruction: one client at it, after the broadcast nobody sleeps, and at its end everybody has left. */
  ghost predicate CloseOk(s: State) {
    && (s.shutdown ==> s.closer.Some?)
    && (s.closer.Some? ==> s.closer.value < |s.clients| && Closes(s.clients[s.closer.value]))
    && (s.closer.Some? && (s.clients[s.closer.value].DesWait? || s.clients[s.closer.value].Gone?) ==>
          forall i :: 0 <= i < |s.workers| ==> !s.workers[i].Asleep?)
    && (s.closer.Some? && s.clients[s.closer.value].Gone? ==> forall i :: 0 <= i < |s.workers| ==> s.workers[i].Exited?)
    && (forall t :: t in s.returned ==> t < |s.tasks|)
  }

  ghost predicate Inv(s: State) {
    && MutexOk(s) && QueueOk(s) && WakeOk(s) && CloseOk(s)
    && (forall t :: 0 <= t < |s.tasks| ==> TaskOk(s, t))
    && (forall i :: 0 <= i < |s.workers| ==> WorkerOk(s, i))
    && (forall j :: 0 <= j < |s.clients| ==> ClientOk(s, j))
  }
}
