/** The pool's queue as it is kept: a head, a tail, and a link from each task. */
module TaskQueue {
  import opened Basics
  import opened Pool

  type Links = map<nat, Option<nat>>

  /** Task `i` links to the one behind it, the last to none. */
  predicate LinkOk(next: Links, ts: seq<nat>, i: nat)
    requires i < |ts|
  {
    ts[i] in next && next[ts[i]] == if i + 1 < |ts| then Some(ts[i + 1]) else None
  }

  predicate Linked(next: Links, ts: seq<nat>) {
    forall i :: 0 <= i < |ts| ==> LinkOk(next, ts, i)
  }

  lemma LinkedSnoc(next: Links, ts: seq<nat>, t: nat)
    requires Linked(next, ts) && Distinct(ts) && t !in ts
    ensures Linked(if ts == [] then next[t := None] else next[t := None][ts[|ts| - 1] := Some(t)], ts + [t])
  {
    var now := if ts == [] then next[t := None] else next[t := None][ts[|ts| - 1] := Some(t)];
    forall i | 0 <= i < |ts + [t]| ensures LinkOk(now, ts + [t], i) {
      if i < |ts| { assert LinkOk(next, ts, i); }
    }
  }

  lemma LinkedTail(next: Links, ts: seq<nat>)
    requires Linked(next, ts) && ts != []
    ensures Linked(next, ts[1..]) && ts[0] in next
    ensures next[ts[0]] == if |ts| > 1 then Some(ts[1]) else None
  {
    assert LinkOk(next, ts, 0);
    forall i | 0 <= i < |ts[1..]| ensures LinkOk(next, ts[1..], i) { assert LinkOk(next, ts, i + 1); }
  }

  class Queue {
    var head: Option<nat>
    var tail: Option<nat>
    /** Each task's link to the one behind it. */
    var next: Links
    ghost var tasks: seq<nat>

    ghost predicate Valid()
      reads this
    {
      && Distinct(tasks) && Linked(next, tasks)
      && head == (if tasks == [] then None else Some(tasks[0]))
      && tail == (if tasks == [] then None else Some(tasks[|tasks| - 1]))
    }

    constructor ()
      ensures Valid() && tasks == []
    {
      head, tail, next, tasks := None, None, map[], [];
    }

    method Enqueue(t: nat)
      requires Valid() && t !in tasks
      modifies this
      ensures Valid() && tasks == old(tasks) + [t]
    {
      hide Linked;
      LinkedSnoc(next, tasks, t);
      next := next[t := None];
      if tail.Some? {
        next := next[tail.value := Some(t)];
      } else {
        head := Some(t);
      }
      tail := Some(t);
      tasks := tasks + [t];
    }

    /** Take the oldest task. */
    method Dequeue() returns (t: nat)
      requires Valid() && tasks != []
      modifies this
      ensures Valid() && old(tasks) == [t] + tasks
    {
      hide Linked;
      LinkedTail(next, tasks);
      t := head.value;
      head := next[t];
      if head.None? {
        tail := None;
      }
      tasks := tasks[1..];
    }
  }

  // ---- the linked queue is the pool's ----

  /** Linking in the task a client enqueues. */
  method EnqueueStep(q: Queue, t: nat, ghost s: State, ghost s': State, ghost j: nat)
    requires q.Valid() && q.tasks == s.queue && Inv(s) && CEnqueue(s, s', j) && t == s.clients[j].t
    modifies q
    ensures q.Valid() && q.tasks == s'.queue
  {
    assert ClientOk(s, j) && TaskOk(s, t);
    q.Enqueue(t);
  }

  /** Unlinking the task a worker takes. */
  method DequeueStep(q: Queue, ghost s: State, ghost s': State, ghost i: nat) returns (t: nat)
    requires q.Valid() && q.tasks == s.queue && WCheck(s, s', i) && s.queue != []
    modifies q
    ensures q.Valid() && q.tasks == s'.queue && s'.workers[i] == Running(t)
  {
    t := q.Dequeue();
  }
}
