/** The session worker pool (backend/core/worker.go): one FIFO queue and one consumer per session, a global
    quota of running bodies, cancellation and close.

    Every method is one critical section or one channel operation; any order of calls is an interleaving
    of submitters, consumers, cancellers and the closer. Where each goroutine stands is kept in `Phase`,
    `Cancelling` and `Consumer`. */
module WorkerPool {
  import opened Wrappers

  type TaskId = nat

  /** Where a task stands on its way through Submit, the queue, consume and runTask. */
  datatype Phase =
    | Admitted   // in the task table, not yet appended to its queue
    | Queued
    | Dropped    // removed from the queue by a cancel
    | Popped     // taken by the consumer
    | Unmarked   // found not cancelled, about to look at the close channel
    | Passed     // found not closed either, waiting for a slot
    | Holding    // holds a slot, cancel handle not registered
    | Running    // handle registered, body running
    | Releasing  // body over, or found cancelled while holding the slot
    | Leaving    // no slot, still in the task table unless cancelled
    | Settling   // out of the task table
    | Over

  datatype Cancelling = Untouched | Matched | Marked

  datatype Consumer = Starting | Waiting | Draining | Busy(id: TaskId) | Between | Exited

  /** `tracked` is membership of the task table; `notified` says the body's context was cancelled;
      `posted` that the submitter delivered its wake token; `doomed` that the cancel mark came before the
      cancel handle; `closes` counts how often the done channel was closed; `ticket` is the place in the
      order of queue appends. */
  datatype Task = Task(owner: string, session: string, phase: Phase, cancelling: Cancelling, tracked: bool,
                       ticket: nat, posted: bool, ran: bool, ended: bool, notified: bool, doomed: bool, closes: nat)

  datatype SubmitError = NilTask | NilSession | PoolClosed

  datatype Match = ByOwner(owner: string) | BySession(session: string)

  /** The task moved on to another phase. */
  function At(t: Task, p: Phase): Task {
    t.(phase := p)
  }

  lemma AtKeeps(t: Task, p: Phase)
    ensures At(t, p).phase == p && At(t, p).session == t.session && At(t, p).ticket == t.ticket
    ensures At(t, p).posted == t.posted && At(t, p).ran == t.ran && At(t, p).ended == t.ended
  {
  }

  predicate Cancelled(t: Task) {
    t.cancelling == Marked
  }

  predicate HoldsSlot(p: Phase) {
    p == Holding || p == Running || p == Releasing
  }

  predicate OnConsumer(p: Phase) {
    p == Popped || p == Unmarked || p == Passed || HoldsSlot(p) || p == Leaving || p == Settling
  }

  predicate Served(p: Phase) {
    OnConsumer(p) || p == Over
  }

  /** One task in any reachable state. */
  predicate TaskOk(t: Task, closed: bool) {
    && (t.tracked <==> t.cancelling == Untouched && t.phase != Settling && t.phase != Over)
    && (t.phase == Running <==> t.ran && !t.ended)
    && (t.ran ==> t.phase == Running || t.phase == Releasing || t.phase == Leaving || t.phase == Settling || t.phase == Over)
    && (t.ended ==> t.ran) && (t.notified ==> t.ran)
    && (t.doomed ==> Cancelled(t) && !t.ran)
    && (Cancelled(t) && !t.ran ==> t.doomed || t.phase == Leaving || t.phase == Settling || t.phase == Over)
    && (Cancelled(t) && t.phase == Running ==> t.notified)
    && (Served(t.phase) && !t.ran && t.phase != Popped && t.phase != Unmarked && t.phase != Passed && t.phase != Holding ==> Cancelled(t) || closed)
    && (t.phase == Dropped ==> t.cancelling != Untouched)
    && t.closes == (if Cancelled(t) || t.phase == Over then 1 else 0)
    && (t.phase == Admitted ==> !t.posted)
  }

  /** What the done signal means: it is closed at most once; on an open pool an uncancelled task's signal
      closes only after its body ran to the end; a task cancelled before its handle was registered never
      runs; a task cancelled while running had its context cancelled. */
  lemma DoneMeans(t: Task, closed: bool)
    requires TaskOk(t, closed)
    ensures t.closes <= 1
    ensures t.closes == 1 && !Cancelled(t) && !closed ==> t.ran && t.ended
    ensures t.doomed ==> !t.ran
    ensures Cancelled(t) && t.ran && !t.ended ==> t.notified
    ensures t.ran && !t.ended && t.closes == 1 ==> Cancelled(t)
  {
  }

  // ---------------------------------------------------------------- invariants of the whole pool

  ghost predicate TasksOk(tasks: map<TaskId, Task>, closed: bool) {
    forall id <- tasks.Keys :: TaskOk(tasks[id], closed)
  }

  /** Tickets order the appends; two appended tasks never share one. */
  ghost predicate TicketsOk(tasks: map<TaskId, Task>, next: nat, last: map<string, int>) {
    && (forall s <- last.Keys :: last[s] < next)
    && (forall id <- tasks.Keys :: tasks[id].phase != Admitted ==> tasks[id].ticket < next)
    && (forall a <- tasks.Keys, b <- tasks.Keys ::
          a != b && tasks[a].phase != Admitted && tasks[b].phase != Admitted ==> tasks[a].ticket != tasks[b].ticket)
  }

  /** A queue lists the queued tasks of its session in ticket order, all behind what was already served. */
  ghost predicate QueueOk(s: string, q: seq<TaskId>, tasks: map<TaskId, Task>, last: int) {
    && (forall i :: 0 <= i < |q| ==> q[i] in tasks && tasks[q[i]].session == s && tasks[q[i]].phase == Queued && tasks[q[i]].ticket > last)
    && (forall i, j :: 0 <= i < j < |q| ==> tasks[q[i]].ticket < tasks[q[j]].ticket)
  }

  ghost predicate QueuesOk(queues: map<string, seq<TaskId>>, tasks: map<TaskId, Task>, last: map<string, int>) {
    && last.Keys == queues.Keys
    && (forall s <- queues.Keys :: QueueOk(s, queues[s], tasks, last[s]))
    && (forall id <- tasks.Keys ::
          && tasks[id].session in queues
          && (tasks[id].phase == Queued ==> id in queues[tasks[id].session])
          && (Served(tasks[id].phase) ==> tasks[id].ticket <= last[tasks[id].session]))
  }

  /** A consumer works on one task at a time, the last one it took. */
  ghost predicate ConsumersOk(consumers: map<string, Consumer>, tasks: map<TaskId, Task>, last: map<string, int>) {
    && (forall s <- consumers.Keys :: consumers[s].Busy? ==>
          var id := consumers[s].id;
          id in tasks && tasks[id].session == s && OnConsumer(tasks[id].phase) && s in last && tasks[id].ticket == last[s])
    && (forall id <- tasks.Keys :: OnConsumer(tasks[id].phase) ==>
          tasks[id].session in consumers && consumers[tasks[id].session] == Busy(id))
  }

  /** The slots in use are the tasks that hold one. */
  ghost predicate SlotsOk(inUse: nat, limit: nat, holders: set<TaskId>, tasks: map<TaskId, Task>) {
    && inUse == |holders| && inUse <= limit
    && holders <= tasks.Keys
    && (forall id <- tasks.Keys :: id in holders <==> HoldsSlot(tasks[id].phase))
  }

  /** `starts` lists every body that started, in order: within a session in queue order, each only after
      the previous one ended. */
  ghost predicate StartsOk(starts: seq<TaskId>, tasks: map<TaskId, Task>) {
    && (forall i :: 0 <= i < |starts| ==> starts[i] in tasks && tasks[starts[i]].ran)
    && (forall id <- tasks.Keys :: tasks[id].ran ==> id in starts)
    && (forall i, j :: 0 <= i < j < |starts| && tasks[starts[i]].session == tasks[starts[j]].session ==>
          tasks[starts[i]].ticket < tasks[starts[j]].ticket && tasks[starts[i]].ended)
  }

  /** No lost wake-up: a consumer at rest with work queued has a token, or the submitter of every queued
      task is still to deliver one. */
  ghost predicate WakeOk(consumers: map<string, Consumer>, queues: map<string, seq<TaskId>>, wake: set<string>,
                         tasks: map<TaskId, Task>)
  {
    forall s <- queues.Keys ::
      s in consumers && (consumers[s] == Starting || consumers[s] == Waiting) ==>
        forall id <- queues[s] :: id in tasks && tasks[id].posted ==> s in wake
  }

  /** Each body runs at most once. */
  lemma RunsOnce(starts: seq<TaskId>, tasks: map<TaskId, Task>)
    requires StartsOk(starts, tasks)
    ensures forall i, j :: 0 <= i < j < |starts| ==> starts[i] != starts[j]
  {
    forall i, j | 0 <= i < j < |starts| ensures starts[i] != starts[j] {
      assert tasks[starts[i]].session == tasks[starts[j]].session ==> tasks[starts[i]].ticket < tasks[starts[j]].ticket;
    }
  }

  /** One body of a session at a time: of two running tasks of one session, both are the same. */
  lemma OneAtATime(consumers: map<string, Consumer>, tasks: map<TaskId, Task>, last: map<string, int>, a: TaskId, b: TaskId)
    requires ConsumersOk(consumers, tasks, last) && a in tasks && b in tasks
    requires tasks[a].phase == Running && tasks[b].phase == Running && tasks[a].session == tasks[b].session
    ensures a == b
  {
    assert consumers[tasks[a].session] == Busy(a) && consumers[tasks[b].session] == Busy(b);
  }

  function RunningTasks(tasks: map<TaskId, Task>): set<TaskId> {
    set id | id in tasks && tasks[id].phase == Running
  }

  /** At most `limit` bodies run at once. */
  lemma Quota(inUse: nat, limit: nat, holders: set<TaskId>, tasks: map<TaskId, Task>)
    requires SlotsOk(inUse, limit, holders, tasks)
    ensures |RunningTasks(tasks)| <= limit
  {
    assert RunningTasks(tasks) <= holders;
    SubsetSize(RunningTasks(tasks), holders);
  }

  lemma {:induction false} SubsetSize(a: set<TaskId>, b: set<TaskId>)
    requires a <= b
    ensures |a| <= |b|
    decreases |a|
  {
    if a != {} {
      var x :| x in a;
      SubsetSize(a - {x}, b - {x});
    }
  }

  // ---------------------------------------------------------------- what a step leaves alone

  /** Nothing a queue, a consumer, the slots or the start order look at changed in this task. */
  predicate SamePlace(t: Task, u: Task) {
    && u.session == t.session && u.ticket == t.ticket
    && (u.phase == Admitted <==> t.phase == Admitted) && (u.phase == Queued <==> t.phase == Queued)
    && (Served(u.phase) <==> Served(t.phase)) && (OnConsumer(u.phase) <==> OnConsumer(t.phase))
  }

  predicate SameRun(t: Task, u: Task) {
    u.session == t.session && u.ticket == t.ticket && u.ran == t.ran && (t.ended ==> u.ended)
  }

  lemma PlaceKept(tasks: map<TaskId, Task>, id: TaskId, u: Task, next: nat, queues: map<string, seq<TaskId>>,
                  last: map<string, int>, consumers: map<string, Consumer>)
    requires id in tasks && SamePlace(tasks[id], u)
    requires TicketsOk(tasks, next, last) && QueuesOk(queues, tasks, last) && ConsumersOk(consumers, tasks, last)
    ensures TicketsOk(tasks[id := u], next, last) && QueuesOk(queues, tasks[id := u], last) &&
            ConsumersOk(consumers, tasks[id := u], last)
  {
    hide Served, OnConsumer, QueueOk;
    forall s <- queues.Keys ensures QueueOk(s, queues[s], tasks[id := u], last[s]) {
      QueueKept(s, queues[s], tasks, id, u, last[s]);
    }
  }

  lemma QueueKept(s: string, q: seq<TaskId>, tasks: map<TaskId, Task>, id: TaskId, u: Task, last: int)
    requires id in tasks && SamePlace(tasks[id], u) && QueueOk(s, q, tasks, last)
    ensures QueueOk(s, q, tasks[id := u], last)
  {
    hide Served, OnConsumer;
  }

  lemma SlotsKept(inUse: nat, limit: nat, holders: set<TaskId>, tasks: map<TaskId, Task>, id: TaskId, u: Task)
    requires SlotsOk(inUse, limit, holders, tasks)
    requires HoldsSlot(u.phase) <==> id in tasks && HoldsSlot(tasks[id].phase)
    ensures SlotsOk(inUse, limit, holders, tasks[id := u])
  {
    hide HoldsSlot;
  }

  lemma SlotTaken(inUse: nat, limit: nat, holders: set<TaskId>, tasks: map<TaskId, Task>, id: TaskId, u: Task)
    requires SlotsOk(inUse, limit, holders, tasks) && inUse < limit && id in tasks
    requires !HoldsSlot(tasks[id].phase) && HoldsSlot(u.phase)
    ensures SlotsOk(inUse + 1, limit, holders + {id}, tasks[id := u])
  {
    hide HoldsSlot;
  }

  lemma SlotFreed(inUse: nat, limit: nat, holders: set<TaskId>, tasks: map<TaskId, Task>, id: TaskId, u: Task)
    requires SlotsOk(inUse, limit, holders, tasks) && id in tasks
    requires HoldsSlot(tasks[id].phase) && !HoldsSlot(u.phase)
    ensures inUse > 0 && SlotsOk(inUse - 1, limit, holders - {id}, tasks[id := u])
  {
    hide HoldsSlot;
  }

  lemma StartsKept(starts: seq<TaskId>, tasks: map<TaskId, Task>, id: TaskId, u: Task)
    requires StartsOk(starts, tasks)
    requires if id in tasks && tasks[id].ran then SameRun(tasks[id], u) else !u.ran
    ensures StartsOk(starts, tasks[id := u])
  {
  }

  lemma WakeKept(consumers: map<string, Consumer>, queues: map<string, seq<TaskId>>, wake: set<string>,
                 tasks: map<TaskId, Task>, id: TaskId, u: Task)
    requires WakeOk(consumers, queues, wake, tasks)
    requires if id in tasks then u.posted == tasks[id].posted else !u.posted
    ensures WakeOk(consumers, queues, wake, tasks[id := u])
  {
  }

  lemma TasksKept(tasks: map<TaskId, Task>, closed: bool, id: TaskId, u: Task)
    requires TasksOk(tasks, closed) && TaskOk(u, closed)
    ensures TasksOk(tasks[id := u], closed)
  {
    hide TaskOk;
  }

  lemma TaskIn(tasks: map<TaskId, Task>, closed: bool, id: TaskId)
    requires TasksOk(tasks, closed) && id in tasks
    ensures TaskOk(tasks[id], closed)
  {
  }

  // ---------------------------------------------------------------- what the other steps change

  /** A new task of a known session: outside every queue, consumer and slot. */
  lemma AdmitKnown(tasks: map<TaskId, Task>, id: TaskId, u: Task, next: nat, queues: map<string, seq<TaskId>>,
                   last: map<string, int>, consumers: map<string, Consumer>)
    requires id !in tasks && u.phase == Admitted && u.session in queues
    requires TicketsOk(tasks, next, last) && QueuesOk(queues, tasks, last) && ConsumersOk(consumers, tasks, last)
    ensures TicketsOk(tasks[id := u], next, last)
    ensures QueuesOk(queues, tasks[id := u], last) && ConsumersOk(consumers, tasks[id := u], last)
  {
    hide QueueOk;
    forall s <- queues.Keys ensures QueueOk(s, queues[s], tasks[id := u], last[s]) {
      QueueAdmit(s, queues[s], tasks, id, u, last[s]);
    }
  }

  /** A session seen for the first time gets an empty queue and a consumer. */
  lemma AddSession(tasks: map<TaskId, Task>, s: string, next: nat, queues: map<string, seq<TaskId>>,
                   last: map<string, int>, consumers: map<string, Consumer>)
    requires s !in queues && s !in consumers
    requires TicketsOk(tasks, next, last) && QueuesOk(queues, tasks, last) && ConsumersOk(consumers, tasks, last)
    ensures TicketsOk(tasks, next, last[s := -1])
    ensures QueuesOk(queues[s := []], tasks, last[s := -1]) && ConsumersOk(consumers[s := Starting], tasks, last[s := -1])
  {
    hide QueueOk, OnConsumer;
    QueueNone(s, tasks);
  }

  lemma QueueAdmit(s: string, q: seq<TaskId>, tasks: map<TaskId, Task>, id: TaskId, u: Task, last: int)
    requires id !in tasks && QueueOk(s, q, tasks, last)
    ensures QueueOk(s, q, tasks[id := u], last)
  {
  }

  lemma QueueNone(s: string, tasks: map<TaskId, Task>)
    ensures QueueOk(s, [], tasks, -1)
  {
  }

  /** A task joins the end of its queue with the next ticket. */
  lemma Join(tasks: map<TaskId, Task>, id: TaskId, next: nat, queues: map<string, seq<TaskId>>, last: map<string, int>,
             consumers: map<string, Consumer>)
    requires id in tasks && tasks[id].phase == Admitted
    requires TicketsOk(tasks, next, last) && QueuesOk(queues, tasks, last) && ConsumersOk(consumers, tasks, last)
    ensures var u := tasks[id].(phase := Queued, ticket := next);
            && u.session in queues
            && TicketsOk(tasks[id := u], next + 1, last)
            && QueuesOk(queues[u.session := queues[u.session] + [id]], tasks[id := u], last)
            && ConsumersOk(consumers, tasks[id := u], last)
  {
    hide QueueOk, OnConsumer, HoldsSlot, Served, TicketsOk, ConsumersOk;
    NotServed(Queued);
    NotServed(Admitted);
    var u := tasks[id].(phase := Queued, ticket := next);
    JoinTickets(tasks, id, u, next, last);
    OffConsumer(tasks, id, u, last, consumers);
    var queues2 := queues[u.session := queues[u.session] + [id]];
    forall s <- queues2.Keys ensures QueueOk(s, queues2[s], tasks[id := u], last[s]) {
      assert QueueOk(s, queues[s], tasks, last[s]);
      TicketsBelow(tasks, next, last);
      QueueJoin(s, queues[s], tasks, id, next, last[s]);
    }
  }

  lemma JoinTickets(tasks: map<TaskId, Task>, id: TaskId, u: Task, next: nat, last: map<string, int>)
    requires TicketsOk(tasks, next, last) && id in tasks && u.ticket == next
    ensures TicketsOk(tasks[id := u], next + 1, last)
  {
  }

  lemma TicketsBelow(tasks: map<TaskId, Task>, next: nat, last: map<string, int>)
    requires TicketsOk(tasks, next, last)
    ensures forall s <- last.Keys :: last[s] < next
    ensures forall x <- tasks.Keys :: tasks[x].phase != Admitted ==> tasks[x].ticket < next
  {
  }

  /** A task no consumer holds, before and after. */
  lemma OffConsumer(tasks: map<TaskId, Task>, id: TaskId, u: Task, last: map<string, int>, consumers: map<string, Consumer>)
    requires ConsumersOk(consumers, tasks, last) && id in tasks
    requires !OnConsumer(tasks[id].phase) && !OnConsumer(u.phase)
    ensures ConsumersOk(consumers, tasks[id := u], last)
  {
    hide OnConsumer;
  }

  lemma QueueJoin(s: string, q: seq<TaskId>, tasks: map<TaskId, Task>, id: TaskId, next: nat, last: int)
    requires id in tasks && tasks[id].phase == Admitted && QueueOk(s, q, tasks, last) && last < next
    requires forall x <- tasks.Keys :: tasks[x].phase != Admitted ==> tasks[x].ticket < next
    ensures var u := tasks[id].(phase := Queued, ticket := next);
            QueueOk(s, if s == u.session then q + [id] else q, tasks[id := u], last)
  {
  }

  /** The consumer takes the head of its queue. */
  lemma Take(s: string, tasks: map<TaskId, Task>, next: nat, queues: map<string, seq<TaskId>>, last: map<string, int>,
             consumers: map<string, Consumer>)
    requires s in queues && queues[s] != [] && s in consumers && !consumers[s].Busy?
    requires TicketsOk(tasks, next, last) && QueuesOk(queues, tasks, last) && ConsumersOk(consumers, tasks, last)
    ensures var id := queues[s][0];
            && id in tasks
            && var u := At(tasks[id], Popped);
            && TicketsOk(tasks[id := u], next, last[s := u.ticket])
            && QueuesOk(queues[s := queues[s][1..]], tasks[id := u], last[s := u.ticket])
            && ConsumersOk(consumers[s := Busy(id)], tasks[id := u], last[s := u.ticket])
  {
    hide QueueOk;
    assert QueueOk(s, queues[s], tasks, last[s]);
    QueueHead(s, queues[s], tasks, last[s]);
    var id := queues[s][0];
    var u := At(tasks[id], Popped);
    var queues2, last2 := queues[s := queues[s][1..]], last[s := u.ticket];
    forall x <- queues2.Keys ensures QueueOk(x, queues2[x], tasks[id := u], last2[x]) {
      if x != s {
        QueueOther(x, queues[x], tasks, id, u, last[x]);
      }
    }
    forall x <- tasks.Keys | tasks[id := u][x].phase == Queued ensures x in queues2[tasks[x].session] {
      assert x in queues[tasks[x].session];
      if tasks[x].session == s {
        assert queues[s] == [id] + queues[s][1..];
      }
    }
  }

  lemma QueueHead(s: string, q: seq<TaskId>, tasks: map<TaskId, Task>, last: int)
    requires QueueOk(s, q, tasks, last) && q != []
    ensures q[0] in tasks && tasks[q[0]].session == s && tasks[q[0]].phase == Queued && tasks[q[0]].ticket > last
    ensures QueueOk(s, q[1..], tasks[q[0] := At(tasks[q[0]], Popped)], tasks[q[0]].ticket)
  {
  }

  lemma QueueOther(s: string, q: seq<TaskId>, tasks: map<TaskId, Task>, id: TaskId, u: Task, last: int)
    requires QueueOk(s, q, tasks, last) && id in tasks && u.session == tasks[id].session && u.session != s
    ensures QueueOk(s, q, tasks[id := u], last)
  {
  }

  /** A cancel takes one task out of the middle of its queue. */
  lemma Drop(s: string, i: nat, tasks: map<TaskId, Task>, next: nat, queues: map<string, seq<TaskId>>,
             last: map<string, int>, consumers: map<string, Consumer>)
    requires s in queues && i < |queues[s]|
    requires TicketsOk(tasks, next, last) && QueuesOk(queues, tasks, last) && ConsumersOk(consumers, tasks, last)
    ensures var q := queues[s];
            && q[i] in tasks && tasks[q[i]].phase == Queued && tasks[q[i]].session == s
            && var u := At(tasks[q[i]], Dropped);
            && TicketsOk(tasks[q[i] := u], next, last)
            && QueuesOk(queues[s := q[..i] + q[i + 1..]], tasks[q[i] := u], last)
            && ConsumersOk(consumers, tasks[q[i] := u], last)
  {
    hide QueueOk, OnConsumer, HoldsSlot, Served, ConsumersOk;
    NotServed(Dropped);
    NotServed(Queued);
    assert QueueOk(s, queues[s], tasks, last[s]);
    QueueDrop(s, queues[s], i, tasks, last[s]);
    var id := queues[s][i];
    var u := At(tasks[id], Dropped);
    OffConsumer(tasks, id, u, last, consumers);
    var queues2 := queues[s := queues[s][..i] + queues[s][i + 1..]];
    forall x <- queues2.Keys ensures QueueOk(x, queues2[x], tasks[id := u], last[x]) {
      if x != s {
        QueueOther(x, queues[x], tasks, id, u, last[x]);
      }
    }
    forall x <- tasks.Keys | tasks[id := u][x].phase == Queued ensures x in queues2[tasks[x].session] {
      assert x in queues[tasks[x].session];
      if tasks[x].session == s {
        assert queues[s] == queues[s][..i] + [id] + queues[s][i + 1..];
      }
    }
  }

  lemma NotServed(p: Phase)
    requires p == Dropped || p == Queued || p == Admitted
    ensures !OnConsumer(p) && !HoldsSlot(p) && !Served(p)
  {
  }

  lemma QueueDrop(s: string, q: seq<TaskId>, i: nat, tasks: map<TaskId, Task>, last: int)
    requires QueueOk(s, q, tasks, last) && i < |q|
    ensures q[i] in tasks && tasks[q[i]].session == s && tasks[q[i]].phase == Queued
    ensures QueueOk(s, q[..i] + q[i + 1..], tasks[q[i] := At(tasks[q[i]], Dropped)], last)
  {
  }

  /** The task taken last starts its body: everything of its session started before has ended. */
  lemma Start(starts: seq<TaskId>, id: TaskId, tasks: map<TaskId, Task>, closed: bool, next: nat,
              queues: map<string, seq<TaskId>>, last: map<string, int>, consumers: map<string, Consumer>)
    requires StartsOk(starts, tasks) && TasksOk(tasks, closed) && TicketsOk(tasks, next, last)
    requires QueuesOk(queues, tasks, last) && ConsumersOk(consumers, tasks, last)
    requires id in tasks && tasks[id].phase == Holding
    ensures StartsOk(starts + [id], tasks[id := tasks[id].(phase := Running, ran := true)])
  {
    hide QueueOk;
    var after := tasks[id := tasks[id].(phase := Running, ran := true)];
    assert consumers[tasks[id].session] == Busy(id);
    TaskIn(tasks, closed, id);
    forall i | 0 <= i < |starts| && tasks[starts[i]].session == tasks[id].session
      ensures starts[i] != id && tasks[starts[i]].ticket < tasks[id].ticket && tasks[starts[i]].ended
    {
      var x := starts[i];
      TaskIn(tasks, closed, x);
    }
  }

  /** Ids are fresh, every session has one queue and one consumer, and closing shows in the flag first. */
  ghost predicate ShapeOk(seqNo: nat, tasks: map<TaskId, Task>, spawned: set<string>, queues: map<string, seq<TaskId>>,
                          consumers: map<string, Consumer>, closed: bool, closeChClosed: bool)
  {
    && (forall id <- tasks.Keys :: id <= seqNo && tasks[id].session in consumers)
    && (closeChClosed ==> closed)
    && queues.Keys == consumers.Keys
    && spawned <= consumers.Keys
    && (!closed ==> spawned == consumers.Keys)
  }

  lemma ShapeKept(seqNo: nat, tasks: map<TaskId, Task>, spawned: set<string>, queues: map<string, seq<TaskId>>,
                  consumers: map<string, Consumer>, closed: bool, closeChClosed: bool, id: TaskId, u: Task)
    requires ShapeOk(seqNo, tasks, spawned, queues, consumers, closed, closeChClosed)
    requires id in tasks && u.session == tasks[id].session
    ensures ShapeOk(seqNo, tasks[id := u], spawned, queues, consumers, closed, closeChClosed)
  {
  }

  lemma ShapeNew(seqNo: nat, tasks: map<TaskId, Task>, spawned: set<string>, queues: map<string, seq<TaskId>>,
                 consumers: map<string, Consumer>, closed: bool, closeChClosed: bool, s: string)
    requires ShapeOk(seqNo, tasks, spawned, queues, consumers, closed, closeChClosed) && !closed
    ensures s in spawned <==> s in queues
    ensures s in spawned <==> s in consumers
    ensures ShapeOk(seqNo, tasks, spawned + {s}, queues[s := []], consumers[s := Starting], closed, closeChClosed)
  {
  }

  lemma ShapeAdmit(seqNo: nat, tasks: map<TaskId, Task>, spawned: set<string>, queues: map<string, seq<TaskId>>,
                   consumers: map<string, Consumer>, closed: bool, closeChClosed: bool, u: Task)
    requires ShapeOk(seqNo, tasks, spawned, queues, consumers, closed, closeChClosed) && u.session in consumers
    ensures seqNo + 1 !in tasks
    ensures ShapeOk(seqNo + 1, tasks[seqNo + 1 := u], spawned, queues, consumers, closed, closeChClosed)
  {
  }

  // ---------------------------------------------------------------- what holds from a state on

  /** What a later state is compared by; `closed` is the close channel. */
  datatype Pool = Pool(tasks: map<TaskId, Task>, consumers: map<string, Consumer>, closed: bool)

  predicate Waits(p: Phase) {
    p == Admitted || p == Queued || p == Dropped
  }

  /** Past the last look at the close channel, body not started. */
  predicate AtDoor(p: Phase) {
    p == Passed || p == Holding
  }

  /** How one task may go on: `gone` says its session's consumer has exited. */
  predicate TaskOnward(t: Task, u: Task, gone: bool, closed: bool) {
    && u.session == t.session
    && (Cancelled(t) ==> Cancelled(u)) && (t.ran ==> u.ran)
    && (Cancelled(t) && !t.ran ==> !u.ran)
    && (gone && Waits(t.phase) ==> Waits(u.phase))
    && (closed && !t.ran && !AtDoor(t.phase) ==> !u.ran && !AtDoor(u.phase))
  }

  predicate Gone(p: Pool, s: string) {
    s in p.consumers && p.consumers[s] == Exited
  }

  /** `b` can follow `a`: every step of the pool keeps to this, and it is transitive. */
  ghost predicate Onward(a: Pool, b: Pool) {
    && a.tasks.Keys <= b.tasks.Keys && a.consumers.Keys <= b.consumers.Keys
    && (a.closed ==> b.closed && b.tasks.Keys == a.tasks.Keys)
    && (forall s <- a.consumers.Keys :: Gone(a, s) ==> Gone(b, s))
    && (forall id <- a.tasks.Keys :: TaskOnward(a.tasks[id], b.tasks[id], Gone(a, a.tasks[id].session), a.closed))
  }

  lemma OnwardSame(a: Pool)
    ensures Onward(a, a)
  {
  }

  lemma OnwardTrans(a: Pool, b: Pool, c: Pool)
    requires Onward(a, b) && Onward(b, c)
    ensures Onward(a, c)
  {
    hide TaskOnward;
    forall id <- a.tasks.Keys ensures TaskOnward(a.tasks[id], c.tasks[id], Gone(a, a.tasks[id].session), a.closed) {
      TaskOnwardTrans(a.tasks[id], b.tasks[id], c.tasks[id], Gone(a, a.tasks[id].session), a.closed,
                      Gone(b, b.tasks[id].session), b.closed);
    }
  }

  lemma TaskOnwardTrans(t: Task, u: Task, v: Task, gone: bool, closed: bool, gone2: bool, closed2: bool)
    requires TaskOnward(t, u, gone, closed) && TaskOnward(u, v, gone2, closed2)
    requires u.session == t.session ==> gone ==> gone2
    requires closed ==> closed2
    ensures TaskOnward(t, v, gone, closed)
  {
  }

  lemma TaskStep(a: Pool, id: TaskId, u: Task)
    requires id in a.tasks && TaskOnward(a.tasks[id], u, Gone(a, a.tasks[id].session), a.closed)
    ensures Onward(a, a.(tasks := a.tasks[id := u]))
  {
    hide Waits, AtDoor;
  }

  lemma NewTaskStep(a: Pool, id: TaskId, u: Task)
    requires id !in a.tasks && !a.closed
    ensures Onward(a, a.(tasks := a.tasks[id := u]))
  {
    hide Waits, AtDoor;
  }

  lemma ConsumerStep(a: Pool, s: string, c: Consumer)
    requires !Gone(a, s)
    ensures Onward(a, a.(consumers := a.consumers[s := c]))
  {
    hide Waits, AtDoor;
  }

  lemma CloseStep(a: Pool)
    ensures Onward(a, a.(closed := true))
  {
  }

  lemma KnowStep(a: Pool, s: string)
    ensures Onward(a, a)
    ensures s !in a.consumers ==> Onward(a, a.(consumers := a.consumers[s := Starting]))
  {
    if s !in a.consumers {
      ConsumerStep(a, s, Starting);
    }
  }

  lemma AppendStep(a: Pool, id: TaskId, ticket: nat)
    requires id in a.tasks && a.tasks[id].phase == Admitted
    ensures Onward(a, a.(tasks := a.tasks[id := a.tasks[id].(phase := Queued, ticket := ticket)]))
  {
    TaskStep(a, id, a.tasks[id].(phase := Queued, ticket := ticket));
  }

  lemma PostStep(a: Pool, id: TaskId)
    requires id in a.tasks
    ensures Onward(a, a.(tasks := a.tasks[id := a.tasks[id].(posted := true)]))
  {
    TaskStep(a, id, a.tasks[id].(posted := true));
  }

  lemma DropStep(a: Pool, id: TaskId)
    requires id in a.tasks && a.tasks[id].phase == Queued
    ensures Onward(a, a.(tasks := a.tasks[id := At(a.tasks[id], Dropped)]))
  {
    TaskStep(a, id, At(a.tasks[id], Dropped));
  }

  /** The body starts, or the slot is given back because the mark came first. */
  lemma DoorStep(a: Pool, id: TaskId)
    requires id in a.tasks && a.tasks[id].phase == Holding
    ensures !Cancelled(a.tasks[id]) ==>
              Onward(a, a.(tasks := a.tasks[id := a.tasks[id].(phase := Running, ran := true)]))
    ensures Cancelled(a.tasks[id]) && !a.tasks[id].ran ==> Onward(a, a.(tasks := a.tasks[id := At(a.tasks[id], Releasing)]))
  {
    if !Cancelled(a.tasks[id]) {
      TaskStep(a, id, a.tasks[id].(phase := Running, ran := true));
    } else if !a.tasks[id].ran {
      TaskStep(a, id, At(a.tasks[id], Releasing));
    }
  }

  /** A consumer that has not exited takes a queued task. */
  lemma TakeStep(a: Pool, s: string, id: TaskId)
    requires id in a.tasks && a.tasks[id].session == s && !Gone(a, s)
    requires a.tasks[id].phase == Queued && !a.tasks[id].ran
    ensures Onward(a, Pool(a.tasks[id := At(a.tasks[id], Popped)], a.consumers[s := Busy(id)], a.closed))
  {
    var b := a.(tasks := a.tasks[id := At(a.tasks[id], Popped)]);
    TaskStep(a, id, At(a.tasks[id], Popped));
    hide Onward;
    ConsumerStep(b, s, Busy(id));
    OnwardTrans(a, b, b.(consumers := b.consumers[s := Busy(id)]));
  }

  lemma SettleStep(a: Pool, id: TaskId)
    requires id in a.tasks && a.tasks[id].phase == Settling && !Gone(a, a.tasks[id].session)
    ensures Onward(a, Pool(a.tasks[id := Settled(a.tasks[id])], a.consumers[a.tasks[id].session := Between], a.closed))
  {
    var b := a.(tasks := a.tasks[id := Settled(a.tasks[id])]);
    TaskStep(a, id, Settled(a.tasks[id]));
    hide Onward;
    ConsumerStep(b, a.tasks[id].session, Between);
    OnwardTrans(a, b, b.(consumers := b.consumers[a.tasks[id].session := Between]));
  }

  lemma ConsumerOf(tasks: map<TaskId, Task>, id: TaskId, last: map<string, int>, consumers: map<string, Consumer>)
    requires ConsumersOk(consumers, tasks, last) && id in tasks && OnConsumer(tasks[id].phase)
    ensures tasks[id].session in consumers && consumers[tasks[id].session] == Busy(id)
  {
  }

  /** A task not yet taken when its session's consumer exited is never settled by the pool: its signal is
      closed exactly when a cancel marked it, and its body never runs. */
  lemma Stranded(a: Pool, later: Pool, id: TaskId)
    requires Onward(a, later) && TasksOk(later.tasks, later.closed)
    requires id in a.tasks && Waits(a.tasks[id].phase) && Gone(a, a.tasks[id].session)
    ensures id in later.tasks && !later.tasks[id].ran && Waits(later.tasks[id].phase)
    ensures later.tasks[id].closes == if Cancelled(later.tasks[id]) then 1 else 0
  {
    TaskIn(later.tasks, later.closed, id);
  }

  /** A body that starts after the close channel was closed was, at that moment, uncancelled and past the
      last look at the channel; `DoorOpens` shows that such a body does start. */
  lemma StartsAfterClose(a: Pool, later: Pool, id: TaskId)
    requires Onward(a, later) && a.closed && id in later.tasks
    ensures id in a.tasks
    ensures later.tasks[id].ran && !a.tasks[id].ran ==> AtDoor(a.tasks[id].phase) && !Cancelled(a.tasks[id])
  {
  }

  class SessionWorkerPool {
    const limit: nat
    var seqNo: nat
    var queues: map<string, seq<TaskId>>
    var spawned: set<string>
    var tasks: map<TaskId, Task>
    var closed: bool
    var closeChClosed: bool
    var consumers: map<string, Consumer>
    var wake: set<string>
    var inUse: nat
    ghost var holders: set<TaskId>
    var next: nat
    ghost var last: map<string, int>
    ghost var starts: seq<TaskId>

    ghost predicate Valid()
      reads this
    {
      && ShapeOk(seqNo, tasks, spawned, queues, consumers, closed, closeChClosed)
      && TasksOk(tasks, closeChClosed)
      && TicketsOk(tasks, next, last)
      && QueuesOk(queues, tasks, last)
      && ConsumersOk(consumers, tasks, last)
      && SlotsOk(inUse, limit, holders, tasks)
      && StartsOk(starts, tasks)
      && WakeOk(consumers, queues, wake, tasks)
    }

    ghost function Now(): Pool
      reads this`tasks, this`consumers, this`closeChClosed
    {
      Pool(tasks, consumers, closeChClosed)
    }

    /** A limit that is not positive means eight. */
    constructor (n: int)
      ensures Valid() && tasks == map[] && queues == map[] && !closed && starts == []
      ensures limit == if n <= 0 then 8 else n
      ensures consumers == map[] && wake == {} && inUse == 0 && !closeChClosed
    {
      limit := if n <= 0 then 8 else n;
      seqNo, queues, spawned, tasks, closed, closeChClosed := 0, map[], {}, map[], false, false;
      consumers, wake, inUse, holders, next, last, starts := map[], {}, 0, {}, 0, map[], [];
    }

    lemma InTable(id: TaskId)
      requires Valid() && id in tasks
      ensures TaskOk(tasks[id], closeChClosed)
    {
      hide ShapeOk, TaskOk, TicketsOk, QueuesOk, ConsumersOk, SlotsOk, StartsOk, WakeOk;
    }

    lemma InShape(s: string)
      requires Valid() && s in consumers
      ensures s in queues
    {
      hide TasksOk, TicketsOk, QueuesOk, ConsumersOk, SlotsOk, StartsOk, WakeOk;
    }

    lemma InQueue(id: TaskId)
      requires Valid() && id in tasks
      ensures tasks[id].session in queues
      ensures tasks[id].phase == Queued ==> id in queues[tasks[id].session]
    {
      hide ShapeOk, TasksOk, TicketsOk, ConsumersOk, SlotsOk, StartsOk, WakeOk;
    }

    /** A step of one task that stays where it is. */
    method Move(id: TaskId, u: Task)
      requires Valid() && id in tasks && TaskOk(u, closeChClosed)
      requires SamePlace(tasks[id], u) && HoldsSlot(u.phase) == HoldsSlot(tasks[id].phase)
      requires u.ran == tasks[id].ran && (tasks[id].ended ==> u.ended) && u.posted == tasks[id].posted
      modifies this`tasks
      ensures Valid() && tasks == old(tasks)[id := u]
    {
      hide ShapeOk, TasksOk, TaskOk, TicketsOk, QueuesOk, ConsumersOk, SlotsOk, StartsOk, WakeOk, HoldsSlot,
           OnConsumer, Served;
      ShapeKept(seqNo, tasks, spawned, queues, consumers, closed, closeChClosed, id, u);
      TasksKept(tasks, closeChClosed, id, u);
      PlaceKept(tasks, id, u, next, queues, last, consumers);
      SlotsKept(inUse, limit, holders, tasks, id, u);
      StartsKept(starts, tasks, id, u);
      WakeKept(consumers, queues, wake, tasks, id, u);
      tasks := tasks[id := u];
    }

    /** A step of one task that takes or gives back a slot. */
    method Shift(id: TaskId, u: Task, slots: nat, ghost users: set<TaskId>)
      requires Valid() && id in tasks && TaskOk(u, closeChClosed) && SamePlace(tasks[id], u)
      requires SlotsOk(slots, limit, users, tasks[id := u])
      requires u.ran == tasks[id].ran && (tasks[id].ended ==> u.ended) && u.posted == tasks[id].posted
      modifies this`tasks, this`inUse, this`holders
      ensures Valid() && tasks == old(tasks)[id := u] && inUse == slots
    {
      hide ShapeOk, TasksOk, TaskOk, TicketsOk, QueuesOk, ConsumersOk, SlotsOk, StartsOk, WakeOk, HoldsSlot,
           OnConsumer, Served;
      ShapeKept(seqNo, tasks, spawned, queues, consumers, closed, closeChClosed, id, u);
      TasksKept(tasks, closeChClosed, id, u);
      PlaceKept(tasks, id, u, next, queues, last, consumers);
      StartsKept(starts, tasks, id, u);
      WakeKept(consumers, queues, wake, tasks, id, u);
      inUse, holders := slots, users;
      tasks := tasks[id := u];
    }

    lemma Slots()
      requires Valid()
      ensures SlotsOk(inUse, limit, holders, tasks)
    {
      hide ShapeOk, TasksOk, TicketsOk, QueuesOk, ConsumersOk, SlotsOk, StartsOk, WakeOk;
    }

    /** A session seen for the first time gets its queue and its consumer. */
    method KnowSession(session: string)
      requires Valid() && !closed
      modifies this`queues, this`spawned, this`consumers, this`last
      ensures Valid() && session in queues
      ensures consumers == if session in old(consumers) then old(consumers) else old(consumers)[session := Starting]
      ensures queues == if session in old(queues) then old(queues) else old(queues)[session := []]
      ensures Onward(old(Now()), Now())
    {
      hide Onward, TaskOnward, ShapeOk, TasksOk, TicketsOk, QueuesOk, ConsumersOk, SlotsOk, StartsOk, WakeOk;
      ShapeNew(seqNo, tasks, spawned, queues, consumers, closed, closeChClosed, session);
      KnowStep(Now(), session);
      if session !in spawned {
        WakeStarts(consumers, queues, wake, tasks, session);
        AddSession(tasks, session, next, queues, last, consumers);
        queues, last := queues[session := []], last[session := -1];
        spawned := spawned + {session};
        consumers := consumers[session := Starting];
      }
    }

    /** A new task of a known session enters the table. */
    method Enter(t: Task)
      requires Valid() && !closed && t == NewTask(t.owner, t.session) && t.session in queues
      modifies this`seqNo, this`tasks
      ensures Valid() && seqNo == old(seqNo) + 1 && seqNo !in old(tasks) && tasks == old(tasks)[seqNo := t]
      ensures Onward(old(Now()), Now())
    {
      hide Onward, TaskOnward, ShapeOk, TasksOk, TaskOk, TicketsOk, QueuesOk, ConsumersOk, SlotsOk, StartsOk, WakeOk,
           HoldsSlot;
      ShapeSame(seqNo, tasks, spawned, queues, consumers, closed, closeChClosed);
      ShapeAdmit(seqNo, tasks, spawned, queues, consumers, closed, closeChClosed, t);
      NewTaskStep(Now(), seqNo + 1, t);
      seqNo := seqNo + 1;
      NewIsOk(t.owner, t.session, closeChClosed);
      TasksKept(tasks, closeChClosed, seqNo, t);
      SlotsKept(inUse, limit, holders, tasks, seqNo, t);
      StartsKept(starts, tasks, seqNo, t);
      AdmitKnown(tasks, seqNo, t, next, queues, last, consumers);
      WakeKept(consumers, queues, wake, tasks, seqNo, t);
      tasks := tasks[seqNo := t];
    }

    /** Submit, the section under the pool lock: the task enters the table, and a session seen for the first
        time gets its queue and its consumer. */
    method Submit(owner: string, session: string, isNil: bool) returns (r: Result<TaskId, SubmitError>)
      requires Valid()
      modifies this`seqNo, this`queues, this`spawned, this`tasks, this`consumers, this`last
      ensures Valid()
      ensures r == if isNil then Err(NilTask) else if session == "" then Err(NilSession) else if closed then Err(PoolClosed) else Ok(seqNo)
      ensures r.Err? ==> tasks == old(tasks) && queues == old(queues) && consumers == old(consumers)
      ensures r.Ok? ==>
                && seqNo == old(seqNo) + 1 && seqNo !in old(tasks)
                && tasks == old(tasks)[seqNo := NewTask(owner, session)]
      ensures r.Ok? ==> consumers == if session in old(consumers) then old(consumers) else old(consumers)[session := Starting]
      ensures r.Ok? ==> queues == if session in old(queues) then old(queues) else old(queues)[session := []]
      ensures Onward(old(Now()), Now())
    {
      hide Valid, Onward, TaskOnward;
      OnwardSame(Now());
      if isNil {
        return Err(NilTask);
      }
      if session == "" {
        return Err(NilSession);
      }
      if closed {
        return Err(PoolClosed);
      }
      KnowSession(session);
      ghost var known := Now();
      Enter(NewTask(owner, session));
      OnwardTrans(old(Now()), known, Now());
      return Ok(seqNo);
    }

    /** Submit, the section under the queue lock: from here the place in the queue is fixed. */
    method Append(id: TaskId)
      requires Valid() && id in tasks && tasks[id].phase == Admitted
      modifies this`queues, this`tasks, this`next
      ensures Valid() && next == old(next) + 1
      ensures tasks == old(tasks)[id := old(tasks)[id].(phase := Queued, ticket := old(next))]
      ensures tasks[id].session in old(queues)
      ensures queues == old(queues)[tasks[id].session := old(queues)[tasks[id].session] + [id]]
      ensures Onward(old(Now()), Now())
    {
      hide Onward, TaskOnward, ShapeOk, TasksOk, TicketsOk, QueuesOk, ConsumersOk, SlotsOk, StartsOk, WakeOk;
      TaskIn(tasks, closeChClosed, id);
      AppendStep(Now(), id, next);
      var u := tasks[id].(phase := Queued, ticket := next);
      ShapeKept(seqNo, tasks, spawned, queues, consumers, closed, closeChClosed, id, u);
      TasksKept(tasks, closeChClosed, id, u);
      SlotsKept(inUse, limit, holders, tasks, id, u);
      StartsKept(starts, tasks, id, u);
      Join(tasks, id, next, queues, last, consumers);
      WakeJoin(consumers, queues, wake, tasks, id, u);
      ShapeQueue(seqNo, tasks[id := u], spawned, queues, consumers, closed, closeChClosed, u.session,
                 queues[u.session] + [id]);
      tasks := tasks[id := u];
      queues := queues[u.session := queues[u.session] + [id]];
      next := next + 1;
    }

    /** Submit, last step: the wake token, dropped when one is already there. */
    method Post(id: TaskId)
      requires Valid() && id in tasks && tasks[id].phase != Admitted && !tasks[id].posted
      modifies this`wake, this`tasks
      ensures tasks == old(tasks)[id := old(tasks)[id].(posted := true)] && wake == old(wake) + {old(tasks)[id].session}
      ensures Valid()
      ensures Onward(old(Now()), Now())
    {
      hide Onward, TaskOnward, ShapeOk, TasksOk, TicketsOk, QueuesOk, ConsumersOk, SlotsOk, StartsOk, WakeOk;
      TaskIn(tasks, closeChClosed, id);
      PostStep(Now(), id);
      var u := tasks[id].(posted := true);
      ShapeKept(seqNo, tasks, spawned, queues, consumers, closed, closeChClosed, id, u);
      TasksKept(tasks, closeChClosed, id, u);
      PlaceKept(tasks, id, u, next, queues, last, consumers);
      SlotsKept(inUse, limit, holders, tasks, id, u);
      StartsKept(starts, tasks, id, u);
      WakePost(consumers, queues, wake, tasks, last, id);
      wake := wake + {u.session};
      tasks := tasks[id := u];
    }

    /** The consumer goroutine of a session begins. */
    method StartConsumer(s: string)
      requires Valid() && s in consumers && consumers[s] == Starting
      modifies this`consumers
      ensures Valid() && consumers == old(consumers)[s := Waiting]
      ensures Onward(old(Now()), Now())
    {
      hide Valid, Onward;
      SetConsumer(s, Waiting);
    }

    /** A consumer moves between its resting points. */
    method SetConsumer(s: string, c: Consumer)
      requires Valid() && s in consumers && !consumers[s].Busy? && !consumers[s].Exited? && !c.Busy?
      requires c == Starting || c == Waiting ==> consumers[s] == Starting || (s in queues && queues[s] == [])
      modifies this`consumers
      ensures Valid() && consumers == old(consumers)[s := c]
      ensures Onward(old(Now()), Now())
    {
      hide ShapeOk, TasksOk, TicketsOk, QueuesOk, ConsumersOk, SlotsOk, StartsOk, WakeOk;
      ShapeConsumer(seqNo, tasks, spawned, queues, consumers, closed, closeChClosed, s, c);
      ConsumerRests(consumers, tasks, last, s, c);
      WakeRests(consumers, queues, wake, tasks, s, c);
      consumers := consumers[s := c];
      ConsumerStep(old(Now()), s, c);
    }

    /** consume: the token arrives. */
    method Wake(s: string)
      requires Valid() && s in consumers && consumers[s] == Waiting && s in wake
      modifies this`consumers, this`wake
      ensures Valid() && consumers == old(consumers)[s := Draining] && wake == old(wake) - {s}
      ensures Onward(old(Now()), Now())
    {
      hide Onward, ShapeOk, TasksOk, TicketsOk, QueuesOk, ConsumersOk, SlotsOk, StartsOk, WakeOk;
      SetConsumer(s, Draining);
      WakeUsed(consumers, queues, wake, tasks, s);
      wake := wake - {s};
    }

    /** consume: the head of the queue, or back to waiting when there is none. */
    method Pop(s: string) returns (r: Option<TaskId>)
      requires Valid() && s in consumers && consumers[s] == Draining
      modifies this`consumers, this`queues, this`tasks, this`last
      ensures Valid() && s in old(queues)
      ensures old(queues)[s] == [] ==>
                r == None && consumers == old(consumers)[s := Waiting] && queues == old(queues) && tasks == old(tasks)
      ensures old(queues)[s] != [] ==>
                && r == Some(old(queues)[s][0]) && r.value in old(tasks)
                && queues == old(queues)[s := old(queues)[s][1..]] && consumers == old(consumers)[s := Busy(r.value)]
                && tasks == old(tasks)[r.value := At(old(tasks)[r.value], Popped)]
      ensures Onward(old(Now()), Now())
    {
      hide Valid, Onward;
      InShape(s);
      if queues[s] == [] {
        r := None;
        SetConsumer(s, Waiting);
        return;
      }
      r := Some(queues[s][0]);
      TakeHead(s);
    }

    /** The head of a queue goes to its consumer. */
    method TakeHead(s: string)
      requires Valid() && s in consumers && consumers[s] == Draining && s in queues && queues[s] != []
      modifies this`consumers, this`queues, this`tasks, this`last
      ensures Valid() && old(queues)[s][0] in old(tasks)
      ensures queues == old(queues)[s := old(queues)[s][1..]] && consumers == old(consumers)[s := Busy(old(queues)[s][0])]
      ensures tasks == old(tasks)[old(queues)[s][0] := At(old(tasks)[old(queues)[s][0]], Popped)]
      ensures Onward(old(Now()), Now())
    {
      hide Onward, TaskOnward, TasksOk, TicketsOk, QueuesOk, ConsumersOk, SlotsOk, StartsOk, WakeOk, ShapeOk;
      var id := queues[s][0];
      Take(s, tasks, next, queues, last, consumers);
      QueuesHead(queues, tasks, last, s);
      TaskIn(tasks, closeChClosed, id);
      PoppedIsOk(tasks[id], closeChClosed);
      AtKeeps(tasks[id], Popped);
      TakeStep(Now(), s, id);
      hide At, TaskOk, HoldsSlot, OnConsumer, Served, SamePlace;
      var u := At(tasks[id], Popped);
      ghost var before := tasks;
      tasks := tasks[id := u];
      TasksKept(before, closeChClosed, id, u);
      SlotsKept(inUse, limit, holders, before, id, u);
      StartsKept(starts, before, id, u);
      ShapeKept(seqNo, before, spawned, queues, consumers, closed, closeChClosed, id, u);
      ShapeTake(seqNo, tasks, spawned, queues, consumers, closed, closeChClosed, s, queues[s][1..], Busy(id));
      WakeTake(consumers, queues, wake, before, s, id, u);
      queues, last, consumers := queues[s := queues[s][1..]], last[s := u.ticket], consumers[s := Busy(id)];
    }

    /** runTask: a task already cancelled is skipped. */
    method CheckCancelled(id: TaskId)
      requires Valid() && id in tasks && tasks[id].phase == Popped
      modifies this`tasks
      ensures Valid()
      ensures tasks == old(tasks)[id := At(old(tasks)[id], if Cancelled(old(tasks)[id]) then Leaving else Unmarked)]
      ensures Onward(old(Now()), Now())
    {
      hide ShapeOk, TasksOk, TicketsOk, QueuesOk, ConsumersOk, SlotsOk, StartsOk, WakeOk;
      TaskIn(tasks, closeChClosed, id);
      Move(id, At(tasks[id], if Cancelled(tasks[id]) then Leaving else Unmarked));
      TaskStep(old(Now()), id, tasks[id]);
    }

    /** runTask: so is any task once the pool is closed. */
    method CheckClosed(id: TaskId)
      requires Valid() && id in tasks && tasks[id].phase == Unmarked
      modifies this`tasks
      ensures Valid() && tasks == old(tasks)[id := At(old(tasks)[id], if closeChClosed then Leaving else Passed)]
      ensures Onward(old(Now()), Now())
    {
      hide ShapeOk, TasksOk, TicketsOk, QueuesOk, ConsumersOk, SlotsOk, StartsOk, WakeOk;
      TaskIn(tasks, closeChClosed, id);
      Move(id, At(tasks[id], if closeChClosed then Leaving else Passed));
      TaskStep(old(Now()), id, tasks[id]);
    }

    /** runTask: takes one of the `limit` slots, waiting until one is free. */
    method Acquire(id: TaskId)
      requires Valid() && id in tasks && tasks[id].phase == Passed && inUse < limit
      modifies this`tasks, this`inUse, this`holders
      ensures Valid() && inUse == old(inUse) + 1 && tasks == old(tasks)[id := At(old(tasks)[id], Holding)]
      ensures Onward(old(Now()), Now())
    {
      hide Valid;
      InTable(id);
      Slots();
      HeldIsOk(tasks[id], closeChClosed);
      AtKeeps(tasks[id], Holding);
      hide At, TaskOk, HoldsSlot, SamePlace, SlotsOk;
      var u := At(tasks[id], Holding);
      SlotTaken(inUse, limit, holders, tasks, id, u);
      Shift(id, u, inUse + 1, holders + {id});
      TaskStep(old(Now()), id, tasks[id]);
    }

    /** runTask: registers the cancel handle and starts the body, unless the cancel mark came first. */
    method RegisterHandle(id: TaskId)
      requires Valid() && id in tasks && tasks[id].phase == Holding
      modifies this`tasks, this`starts
      ensures Valid()
      ensures Cancelled(old(tasks)[id]) ==> starts == old(starts) && tasks == old(tasks)[id := At(old(tasks)[id], Releasing)]
      ensures !Cancelled(old(tasks)[id]) ==>
                starts == old(starts) + [id] && tasks == old(tasks)[id := old(tasks)[id].(phase := Running, ran := true)]
      ensures Onward(old(Now()), Now())
    {
      hide Onward, TaskOnward, ShapeOk, TasksOk, TicketsOk, QueuesOk, ConsumersOk, SlotsOk, StartsOk, WakeOk;
      TaskIn(tasks, closeChClosed, id);
      DoorStep(Now(), id);
      if Cancelled(tasks[id]) {
        Move(id, At(tasks[id], Releasing));
        return;
      }
      var u := tasks[id].(phase := Running, ran := true);
      ShapeKept(seqNo, tasks, spawned, queues, consumers, closed, closeChClosed, id, u);
      TasksKept(tasks, closeChClosed, id, u);
      PlaceKept(tasks, id, u, next, queues, last, consumers);
      SlotsKept(inUse, limit, holders, tasks, id, u);
      WakeKept(consumers, queues, wake, tasks, id, u);
      Start(starts, id, tasks, closeChClosed, next, queues, last, consumers);
      starts := starts + [id];
      tasks := tasks[id := u];
    }

    /** Past the last look at the close channel a task starts its body as soon as a slot is free, whether or
        not the pool was closed meanwhile, unless a cancel marked it. */
    method DoorOpens(id: TaskId)
      requires Valid() && id in tasks && tasks[id].phase == Passed && inUse < limit
      modifies this`tasks, this`inUse, this`holders, this`starts
      ensures Valid() && Onward(old(Now()), Now())
      ensures id in tasks && !old(tasks)[id].ran && (tasks[id].ran <==> !Cancelled(old(tasks)[id]))
    {
      hide Valid, Onward, TaskOnward, TaskOk;
      InTable(id);
      HeldIsOk(tasks[id], closeChClosed);
      Acquire(id);
      ghost var holding := Now();
      RegisterHandle(id);
      OnwardTrans(old(Now()), holding, Now());
    }

    /** The body returns or panics. */
    method EndBody(id: TaskId)
      requires Valid() && id in tasks && tasks[id].phase == Running
      modifies this`tasks
      ensures Valid() && tasks == old(tasks)[id := old(tasks)[id].(phase := Releasing, ended := true)]
      ensures Onward(old(Now()), Now())
    {
      hide ShapeOk, TasksOk, TicketsOk, QueuesOk, ConsumersOk, SlotsOk, StartsOk, WakeOk;
      TaskIn(tasks, closeChClosed, id);
      Move(id, tasks[id].(phase := Releasing, ended := true));
      TaskStep(old(Now()), id, tasks[id]);
    }

    /** runTask: gives the slot back. */
    method Release(id: TaskId)
      requires Valid() && id in tasks && tasks[id].phase == Releasing
      modifies this`tasks, this`inUse, this`holders
      ensures Valid() && inUse == old(inUse) - 1 && tasks == old(tasks)[id := At(old(tasks)[id], Leaving)]
      ensures Onward(old(Now()), Now())
    {
      hide Valid;
      InTable(id);
      Slots();
      FreedIsOk(tasks[id], closeChClosed);
      AtKeeps(tasks[id], Leaving);
      hide At, TaskOk, HoldsSlot, SamePlace, SlotsOk;
      var u := At(tasks[id], Leaving);
      SlotFreed(inUse, limit, holders, tasks, id, u);
      Shift(id, u, inUse - 1, holders - {id});
      TaskStep(old(Now()), id, tasks[id]);
    }

    /** runTask: leaves the task table, unless a cancel removed it already. */
    method Untrack(id: TaskId)
      requires Valid() && id in tasks && tasks[id].phase == Leaving
      modifies this`tasks
      ensures Valid() && tasks == old(tasks)[id := old(tasks)[id].(phase := Settling, tracked := false)]
      ensures Onward(old(Now()), Now())
    {
      hide ShapeOk, TasksOk, TicketsOk, QueuesOk, ConsumersOk, SlotsOk, StartsOk, WakeOk;
      TaskIn(tasks, closeChClosed, id);
      Move(id, tasks[id].(phase := Settling, tracked := false));
      TaskStep(old(Now()), id, tasks[id]);
    }

    /** runTask: closes the done channel once; the consumer is free again. */
    method Settle(id: TaskId)
      requires Valid() && id in tasks && tasks[id].phase == Settling
      modifies this`tasks, this`consumers
      ensures Valid() && tasks == old(tasks)[id := Settled(old(tasks)[id])] && tasks[id].closes == 1
      ensures consumers == old(consumers)[tasks[id].session := Between]
      ensures Onward(old(Now()), Now())
    {
      hide Onward, TaskOnward, ShapeOk, TasksOk, TicketsOk, QueuesOk, ConsumersOk, SlotsOk, StartsOk, WakeOk;
      TaskIn(tasks, closeChClosed, id);
      SettledIsOk(tasks[id], closeChClosed);
      ConsumerOf(tasks, id, last, consumers);
      SettleStep(Now(), id);
      hide TaskOk, Settled, OnConsumer, HoldsSlot;
      var u := Settled(tasks[id]);
      var s := tasks[id].session;
      ghost var before := tasks;
      tasks := tasks[id := u];
      Retire(before, id, u, next, queues, last, consumers);
      ShapeKept(seqNo, before, spawned, queues, consumers, closed, closeChClosed, id, u);
      ShapeConsumer(seqNo, tasks, spawned, queues, consumers, closed, closeChClosed, s, Between);
      TasksKept(before, closeChClosed, id, u);
      SlotsKept(inUse, limit, holders, before, id, u);
      StartsKept(starts, before, id, u);
      WakeKept(consumers, queues, wake, before, id, u);
      WakeRests(consumers, queues, wake, tasks, s, Between);
      consumers := consumers[s := Between];
    }

    /** consume: after a task the close channel is looked at, and only then the queue again. */
    method NextRound(s: string)
      requires Valid() && s in consumers && consumers[s] == Between
      modifies this`consumers, this`spawned
      ensures Valid() && consumers == old(consumers)[s := if closeChClosed then Exited else Draining]
      ensures Onward(old(Now()), Now())
    {
      hide Valid, Onward;
      if closeChClosed {
        Exit(s);
      } else {
        SetConsumer(s, Draining);
      }
    }

    /** consume returns: only once the pool is closed, from the wait or after a task. */
    method Exit(s: string)
      requires Valid() && s in consumers && (consumers[s] == Waiting || consumers[s] == Between) && closeChClosed
      modifies this`consumers, this`spawned
      ensures Valid() && consumers == old(consumers)[s := Exited]
      ensures spawned == if closed then old(spawned) - {s} else old(spawned)
      ensures Onward(old(Now()), Now())
    {
      hide Onward, ShapeOk, TasksOk, TicketsOk, QueuesOk, ConsumersOk, SlotsOk, StartsOk, WakeOk;
      SetConsumer(s, Exited);
      if closed {
        ShapeExit(seqNo, tasks, spawned, queues, consumers, closeChClosed, s);
        spawned := spawned - {s};
      }
    }

    /** cancelWhere, the section under the pool lock: every tracked match leaves the table. */
    method MatchTasks(m: Match) returns (matched: set<TaskId>)
      requires Valid()
      modifies this`tasks
      ensures Valid() && tasks.Keys == old(tasks).Keys && matched <= tasks.Keys
      ensures forall id <- tasks.Keys ::
                id in matched <==> old(tasks)[id].tracked &&
                                   match m
                                   case ByOwner(owner) => old(tasks)[id].owner == owner
                                   case BySession(session) => old(tasks)[id].session == session
      ensures forall id <- tasks.Keys :: tasks[id] == if id in matched then MatchedTask(old(tasks)[id]) else old(tasks)[id]
      ensures Onward(old(Now()), Now())
    {
      hide Onward, TaskOnward, Valid, MatchedTask;
      OnwardSame(Now());
      matched := {};
      var todo := tasks.Keys;
      while todo != {}
        invariant Onward(old(Now()), Now())
        invariant Valid() && todo <= tasks.Keys == old(tasks).Keys && matched <= tasks.Keys - todo
        invariant forall id <- tasks.Keys :: id in matched <==> id !in todo && Hit(m, old(tasks)[id])
        invariant forall id <- tasks.Keys :: tasks[id] == if id in matched then MatchedTask(old(tasks)[id]) else old(tasks)[id]
        decreases |todo|
      {
        var id :| id in todo;
        todo := todo - {id};
        if Hit(m, tasks[id]) {
          matched := matched + {id};
          ghost var before := Now();
          MatchOne(m, id);
          OnwardTrans(old(Now()), before, Now());
        }
      }
    }

    method MatchOne(m: Match, id: TaskId)
      requires Valid() && id in tasks && Hit(m, tasks[id])
      modifies this`tasks
      ensures Valid() && tasks == old(tasks)[id := MatchedTask(old(tasks)[id])]
      ensures Onward(old(Now()), Now())
    {
      hide Valid, TaskOk, SamePlace, HoldsSlot;
      InTable(id);
      MatchedIsOk(tasks[id], closeChClosed);
      Move(id, MatchedTask(tasks[id]));
      TaskStep(old(Now()), id, tasks[id]);
    }

    /** cancelWhere, the section under one queue lock: the matched tasks leave the queue, the others keep
        their order. */
    method FilterQueue(s: string, matched: set<TaskId>)
      requires Valid() && s in queues && forall id <- matched :: id in tasks && tasks[id].cancelling != Untouched
      modifies this`queues, this`tasks
      ensures Valid() && s in old(queues) && queues == old(queues)[s := Kept(old(queues)[s], matched)]
      ensures tasks.Keys == old(tasks).Keys
      ensures forall id <- tasks.Keys ::
                tasks[id] == if id in matched && id in old(queues)[s] then At(old(tasks)[id], Dropped) else old(tasks)[id]
      ensures Onward(old(Now()), Now())
    {
      hide Onward, TaskOnward, Valid, Kept, Filtered;
      OnwardSame(Now());
      var i := 0;
      ghost var all := queues[s];
      ghost var done := 0;
      KeptNone(matched);
      FilteredNone(tasks, matched);
      while i < |queues[s]|
        invariant Onward(old(Now()), Now())
        invariant Valid() && queues.Keys == old(queues).Keys && s in queues && tasks.Keys == old(tasks).Keys
        invariant i <= |queues[s]| && done <= |all|
        invariant queues == old(queues)[s := queues[s]] && queues[s][i..] == all[done..]
        invariant queues[s][..i] == Kept(all[..done], matched)
        invariant forall id <- matched :: id in tasks && tasks[id].cancelling != Untouched
        invariant Filtered(old(tasks), tasks, matched, all[..done])
        decreases |queues[s]| - i
      {
        var id := queues[s][i];
        assert id == queues[s][i..][0] == all[done];
        KeptSnoc(all[..done], id, matched);
        ghost var rest := queues[s][i..];
        assert all[..done + 1] == all[..done] + [id] && all[done + 1..] == rest[1..];
        ghost var before := Now();
        var dropped := FilterStep(s, i, matched);
        OnwardTrans(old(Now()), before, Now());
        FilteredSnoc(old(tasks), before.tasks, matched, all[..done], id);
        if !dropped {
          i := i + 1;
        }
        done := done + 1;
      }
      assert all[..done] == all && queues[s][..i] == queues[s];
      FilteredAll(old(tasks), tasks, matched, all);
    }

    /** One turn of the filter: a matched task leaves, any other stays. */
    method FilterStep(s: string, i: nat, matched: set<TaskId>) returns (dropped: bool)
      requires Valid() && s in queues && i < |queues[s]|
      requires forall id <- matched :: id in tasks && tasks[id].cancelling != Untouched
      modifies this`queues, this`tasks
      ensures Valid() && dropped == (old(queues)[s][i] in matched)
      ensures !dropped ==> queues == old(queues) && tasks == old(tasks)
      ensures dropped ==>
                && queues == old(queues)[s := old(queues)[s][..i] + old(queues)[s][i + 1..]]
                && tasks == old(tasks)[old(queues)[s][i] := At(old(tasks)[old(queues)[s][i]], Dropped)]
      ensures Onward(old(Now()), Now())
    {
      hide Onward, TaskOnward, Valid, At;
      OnwardSame(Now());
      dropped := queues[s][i] in matched;
      if dropped {
        DropAt(s, i);
      }
    }

    method DropAt(s: string, i: nat)
      requires Valid() && s in queues && i < |queues[s]|
      requires queues[s][i] in tasks && tasks[queues[s][i]].cancelling != Untouched
      modifies this`queues, this`tasks
      ensures Valid() && queues == old(queues)[s := old(queues)[s][..i] + old(queues)[s][i + 1..]]
      ensures tasks == old(tasks)[old(queues)[s][i] := At(old(tasks)[old(queues)[s][i]], Dropped)]
      ensures Onward(old(Now()), Now())
    {
      hide Onward, TaskOnward, ShapeOk, TasksOk, TicketsOk, QueuesOk, ConsumersOk, SlotsOk, StartsOk, WakeOk;
      var id := queues[s][i];
      Drop(s, i, tasks, next, queues, last, consumers);
      TaskIn(tasks, closeChClosed, id);
      var u := At(tasks[id], Dropped);
      DropStep(Now(), id);
      TasksKept(tasks, closeChClosed, id, u);
      SlotsKept(inUse, limit, holders, tasks, id, u);
      StartsKept(starts, tasks, id, u);
      ShapeKept(seqNo, tasks, spawned, queues, consumers, closed, closeChClosed, id, u);
      ShapeQueue(seqNo, tasks[id := u], spawned, queues, consumers, closed, closeChClosed, s,
                 queues[s][..i] + queues[s][i + 1..]);
      WakeKept(consumers, queues, wake, tasks, id, u);
      WakeDrop(consumers, queues, wake, tasks[id := u], s, i);
      tasks := tasks[id := u];
      queues := queues[s := queues[s][..i] + queues[s][i + 1..]];
    }

    /** cancelWhere, last step for one task: the mark, the context of a running body, and the done signal. */
    method Mark(id: TaskId)
      requires Valid() && id in tasks && tasks[id].cancelling == Matched
      modifies this`tasks
      ensures Valid() && tasks == old(tasks)[id := MarkedTask(old(tasks)[id])]
      ensures old(tasks)[id].phase in {Holding, Queued, Admitted} ==> tasks[id].doomed
      ensures Onward(old(Now()), Now())
    {
      hide ShapeOk, TasksOk, TicketsOk, QueuesOk, ConsumersOk, SlotsOk, StartsOk, WakeOk;
      TaskIn(tasks, closeChClosed, id);
      Move(id, MarkedTask(tasks[id]));
      TaskStep(old(Now()), id, tasks[id]);
    }

    lemma Enqueued(s: string)
      requires Valid() && s in queues
      ensures forall id :: id in queues[s] <==> id in tasks && tasks[id].session == s && tasks[id].phase == Queued
    {
      hide ShapeOk, TasksOk, TicketsOk, ConsumersOk, SlotsOk, StartsOk, WakeOk;
    }

    /** cancelWhere, its sections under the queue locks one after the other. */
    method FilterQueues(matched: set<TaskId>)
      requires Valid() && forall id <- matched :: id in tasks && tasks[id].cancelling != Untouched
      modifies this`queues, this`tasks
      ensures Valid() && queues.Keys == old(queues).Keys && tasks.Keys == old(tasks).Keys
      ensures forall s <- queues.Keys :: queues[s] == Kept(old(queues)[s], matched)
      ensures forall id <- tasks.Keys ::
                tasks[id] == if id in matched && old(tasks)[id].phase == Queued then At(old(tasks)[id], Dropped) else old(tasks)[id]
    {
      hide Valid, Kept, SiftedQueues, SiftedTasks, Onward;
      var todo := set id <- matched :: tasks[id].session;
      forall id <- matched ensures tasks[id].session in queues {
        InQueue(id);
      }
      forall s <- queues.Keys | s !in todo ensures Kept(queues[s], matched) == queues[s] {
        Enqueued(s);
        KeptMeaning(queues[s], matched);
      }
      NoneSifted(queues, tasks, matched, todo);
      while todo != {}
        invariant Valid() && queues.Keys == old(queues).Keys && tasks.Keys == old(tasks).Keys
        invariant forall id <- matched :: id in tasks && tasks[id].cancelling != Untouched
        invariant todo <= queues.Keys && SiftedQueues(old(queues), queues, matched, todo)
        invariant SiftedTasks(old(tasks), tasks, matched, todo)
        decreases |todo|
      {
        var s :| s in todo;
        Enqueued(s);
        ghost var queues', tasks' := queues, tasks;
        FilterQueue(s, matched);
        SiftOne(old(queues), queues', queues, old(tasks), tasks', tasks, matched, todo, s);
        todo := todo - {s};
      }
      AllSifted(old(queues), queues, old(tasks), tasks, matched);
    }

    /** cancelWhere, its last steps one after the other. */
    method MarkAll(matched: set<TaskId>)
      requires Valid() && forall id <- matched :: id in tasks && tasks[id].cancelling == Matched
      modifies this`tasks
      ensures Valid() && tasks.Keys == old(tasks).Keys
      ensures forall id <- tasks.Keys :: tasks[id] == if id in matched then MarkedTask(old(tasks)[id]) else old(tasks)[id]
    {
      hide Valid, MarkedTask, Onward, TaskOnward;
      var todo := matched;
      while todo != {}
        invariant Valid() && tasks.Keys == old(tasks).Keys && todo <= matched
        invariant forall id <- tasks.Keys ::
                    tasks[id] == if id in matched && id !in todo then MarkedTask(old(tasks)[id]) else old(tasks)[id]
        decreases |todo|
      {
        var id :| id in todo;
        todo := todo - {id};
        Mark(id);
      }
    }

    /** cancelWhere when no other actor steps in between: every tracked match is cancelled
        and out of its queue; every other task keeps its record and its place, and a queue without a match is
        as it was. */
    method CancelWhere(m: Match)
      requires Valid()
      modifies this`tasks, this`queues
      ensures Valid() && queues.Keys == old(queues).Keys && tasks.Keys == old(tasks).Keys
      ensures forall id <- tasks.Keys :: Hit(m, old(tasks)[id]) ==> Aborted(old(tasks)[id], tasks[id])
      ensures forall id <- tasks.Keys :: !Hit(m, old(tasks)[id]) ==> tasks[id] == old(tasks)[id]
      ensures forall s <- queues.Keys, id :: id in queues[s] <==> id in old(queues)[s] && !Hit(m, old(tasks)[id])
      ensures forall s <- queues.Keys :: (forall id <- old(queues)[s] :: !Hit(m, old(tasks)[id])) ==>
                queues[s] == old(queues)[s]
    {
      hide Valid, Kept, MarkedTask, Aborted, TaskOk, Onward;
      forall id <- tasks.Keys | Hit(m, tasks[id]) ensures Aborted(tasks[id], CancelledTask(tasks[id])) {
        InTable(id);
        CancelledMeans(tasks[id], closeChClosed);
      }
      forall s <- queues.Keys ensures forall id <- queues[s] :: id in tasks {
        Enqueued(s);
      }
      var matched := MatchTasks(m);
      forall s <- queues.Keys
        ensures forall id :: id in Kept(queues[s], matched) <==> id in queues[s] && !Hit(m, old(tasks)[id])
        ensures (forall id <- queues[s] :: !Hit(m, old(tasks)[id])) ==> Kept(queues[s], matched) == queues[s]
      {
        KeptMeaning(queues[s], matched);
      }
      FilterQueues(matched);
      MarkAll(matched);
    }

    /** Work of other sessions is left alone, in its record and in its queue; no session is the empty one. */
    method CancelSession(session: string)
      requires Valid()
      modifies this`tasks, this`queues
      ensures Valid() && queues.Keys == old(queues).Keys && tasks.Keys == old(tasks).Keys
      ensures forall id <- tasks.Keys :: session != "" && old(tasks)[id].tracked && old(tasks)[id].session == session ==>
                Aborted(old(tasks)[id], tasks[id]) && id !in queues[session]
      ensures forall id <- tasks.Keys :: session == "" || !old(tasks)[id].tracked || old(tasks)[id].session != session ==>
                tasks[id] == old(tasks)[id]
      ensures forall s <- queues.Keys :: session == "" || s != session ==> queues[s] == old(queues)[s]
    {
      hide Valid, Aborted;
      forall s <- queues.Keys {
        Enqueued(s);
      }
      forall id <- tasks.Keys ensures tasks[id].session in queues {
        InQueue(id);
      }
      if session != "" {
        CancelWhere(BySession(session));
      }
    }

    /** Work of other owners is left alone, in its record and in its queue. */
    method CancelOwner(owner: string)
      requires Valid()
      modifies this`tasks, this`queues
      ensures Valid() && queues.Keys == old(queues).Keys && tasks.Keys == old(tasks).Keys
      ensures forall id <- tasks.Keys ::
                if old(tasks)[id].tracked && old(tasks)[id].owner == owner then Aborted(old(tasks)[id], tasks[id])
                else tasks[id] == old(tasks)[id]
      ensures forall s <- queues.Keys, id <- tasks.Keys ::
                id in queues[s] <==> id in old(queues)[s] && !(old(tasks)[id].tracked && old(tasks)[id].owner == owner)
    {
      hide Valid, Aborted;
      CancelWhere(ByOwner(owner));
    }

    /** Close: refuses new tasks first, then closes the channel the others look at; again is a no-op. */
    method BeginClose()
      requires Valid()
      modifies this`closed
      ensures Valid() && closed
      ensures Onward(old(Now()), Now())
    {
      hide TasksOk, TicketsOk, QueuesOk, ConsumersOk, SlotsOk, StartsOk, WakeOk;
      closed := true;
      OnwardSame(Now());
    }

    method FinishClose()
      requires Valid() && closed
      modifies this`closeChClosed
      ensures Valid() && closeChClosed
      ensures Onward(old(Now()), Now())
    {
      hide TasksOk, TicketsOk, QueuesOk, ConsumersOk, SlotsOk, StartsOk, WakeOk;
      TasksClose(tasks, closeChClosed);
      closeChClosed := true;
      CloseStep(old(Now()));
    }

    /** The watcher of a running body cancels its context once the pool is closed. */
    method WatcherFires(id: TaskId)
      requires Valid() && id in tasks && tasks[id].phase == Running && closeChClosed
      modifies this`tasks
      ensures Valid() && tasks == old(tasks)[id := old(tasks)[id].(notified := true)]
      ensures Onward(old(Now()), Now())
    {
      hide ShapeOk, TasksOk, TicketsOk, QueuesOk, ConsumersOk, SlotsOk, StartsOk, WakeOk;
      TaskIn(tasks, closeChClosed, id);
      Move(id, tasks[id].(notified := true));
      TaskStep(old(Now()), id, tasks[id]);
    }
  }

  /** A body that starts on a closed pool: closed between its last look at the channel and its slot. */
  method StartedAfterClose(owner: string, s: string) returns (pool: SessionWorkerPool, id: TaskId, ghost atClose: Pool)
    requires s != ""
    ensures pool.Valid() && atClose.closed && Onward(atClose, pool.Now())
    ensures id in atClose.tasks && !atClose.tasks[id].ran && id in pool.tasks && pool.tasks[id].ran
  {
    hide Onward, TaskOnward, TaskOk, ShapeOk, TasksOk, TicketsOk, QueuesOk, ConsumersOk, SlotsOk, StartsOk, WakeOk;
    pool := new SessionWorkerPool(1);
    id := TakenTask(pool, owner, s);
    pool.BeginClose();
    pool.FinishClose();
    atClose := pool.Now();
    pool.DoorOpens(id);
  }

  /** Brings the first task of a new pool past its last look at the close channel. */
  method TakenTask(pool: SessionWorkerPool, owner: string, s: string) returns (id: TaskId)
    requires pool.Valid() && !pool.closed && !pool.closeChClosed && pool.consumers == map[] && pool.wake == {} &&
             pool.queues == map[] && s != ""
    modifies pool
    ensures pool.Valid() && id in pool.tasks && pool.tasks[id].phase == Passed && !Cancelled(pool.tasks[id])
    ensures pool.inUse == old(pool.inUse)
  {
    hide Onward, TaskOnward, TaskOk, ShapeOk, TasksOk, TicketsOk, QueuesOk, ConsumersOk, SlotsOk, StartsOk, WakeOk;
    id := QueuedTask(pool, owner, s);
    pool.Post(id);
    pool.Wake(s);
    var r := pool.Pop(s);
    pool.CheckCancelled(id);
    pool.CheckClosed(id);
  }

  /** Queues the first task of a new pool, its consumer waiting for the token. */
  method QueuedTask(pool: SessionWorkerPool, owner: string, s: string) returns (id: TaskId)
    requires pool.Valid() && !pool.closed && pool.consumers == map[] && pool.queues == map[] && s != ""
    modifies pool`seqNo, pool`queues, pool`spawned, pool`tasks, pool`consumers, pool`last, pool`next
    ensures pool.Valid() && id in pool.tasks && pool.tasks[id] == NewTask(owner, s).(phase := Queued, ticket := old(pool.next))
    ensures pool.consumers == map[s := Waiting] && s in pool.queues && pool.queues[s] == [id]
  {
    hide Onward, TaskOnward, TaskOk, ShapeOk, TasksOk, TicketsOk, QueuesOk, ConsumersOk, SlotsOk, StartsOk, WakeOk;
    var r := pool.Submit(owner, s, false);
    id := r.value;
    pool.Append(id);
    pool.StartConsumer(s);
  }

  /** A task left in the queue when its consumer exits: its signal stays open, or is closed by a cancel. */
  method LeftInQueue(owner: string, s: string, cancel: bool) returns (pool: SessionWorkerPool, id: TaskId,
                     ghost exited: Pool)
    requires s != ""
    ensures pool.Valid() && Gone(exited, s) && Onward(exited, pool.Now())
    ensures id in exited.tasks && exited.tasks[id].phase == Queued && exited.tasks[id].session == s
    ensures id in pool.tasks && pool.tasks[id].closes == if cancel then 1 else 0
  {
    hide Onward, TaskOnward, TaskOk, ShapeOk, TasksOk, TicketsOk, QueuesOk, ConsumersOk, SlotsOk, StartsOk, WakeOk;
    pool := new SessionWorkerPool(1);
    id := QueuedTask(pool, owner, s);
    pool.BeginClose();
    pool.FinishClose();
    pool.Exit(s);
    exited := pool.Now();
    OnwardSame(exited);
    if cancel {
      CancelOne(pool, id);
    }
  }

  lemma UntouchedHit(t: Task, closed: bool)
    requires TaskOk(t, closed) && t.phase == Queued && t.cancelling == Untouched
    ensures Hit(BySession(t.session), t) && t.closes == 0
  {
  }

  /** A cancel of the session of a queued task, step by step. */
  method CancelOne(pool: SessionWorkerPool, id: TaskId)
    requires pool.Valid() && id in pool.tasks && pool.tasks[id].phase == Queued && pool.tasks[id].cancelling == Untouched
    modifies pool`tasks, pool`queues
    ensures pool.Valid() && id in pool.tasks && pool.tasks[id].closes == 1 && Onward(old(pool.Now()), pool.Now())
  {
    hide Onward, TaskOnward, Kept, TaskOk, ShapeOk, TasksOk, TicketsOk, QueuesOk, ConsumersOk, SlotsOk, StartsOk, WakeOk;
    var s := pool.tasks[id].session;
    pool.InQueue(id);
    pool.InTable(id);
    UntouchedHit(pool.tasks[id], pool.closeChClosed);
    var matched := pool.MatchTasks(BySession(s));
    ghost var one := pool.Now();
    pool.FilterQueue(s, matched);
    ghost var two := pool.Now();
    pool.Mark(id);
    OnwardTrans(old(pool.Now()), one, two);
    OnwardTrans(old(pool.Now()), two, pool.Now());
  }

  /** A task as Submit creates it. */
  function NewTask(owner: string, session: string): Task {
    Task(owner, session, Admitted, Untouched, true, 0, false, false, false, false, false, 0)
  }

  lemma NewIsOk(owner: string, session: string, closed: bool)
    ensures TaskOk(NewTask(owner, session), closed) && !HoldsSlot(NewTask(owner, session).phase)
  {
  }

  lemma WakeStarts(consumers: map<string, Consumer>, queues: map<string, seq<TaskId>>, wake: set<string>,
                   tasks: map<TaskId, Task>, s: string)
    requires WakeOk(consumers, queues, wake, tasks)
    ensures WakeOk(consumers[s := Starting], queues[s := []], wake, tasks)
  {
  }

  lemma ConsumerRests(consumers: map<string, Consumer>, tasks: map<TaskId, Task>, last: map<string, int>, s: string,
                      c: Consumer)
    requires ConsumersOk(consumers, tasks, last) && s in consumers && !consumers[s].Busy? && !c.Busy?
    ensures ConsumersOk(consumers[s := c], tasks, last)
  {
    hide OnConsumer;
  }

  lemma WakeRests(consumers: map<string, Consumer>, queues: map<string, seq<TaskId>>, wake: set<string>,
                  tasks: map<TaskId, Task>, s: string, c: Consumer)
    requires WakeOk(consumers, queues, wake, tasks) && s in consumers
    requires c == Starting || c == Waiting ==> consumers[s] == Starting || (s in queues && queues[s] == [])
    ensures WakeOk(consumers[s := c], queues, wake, tasks)
  {
  }

  lemma ShapeConsumer(seqNo: nat, tasks: map<TaskId, Task>, spawned: set<string>, queues: map<string, seq<TaskId>>,
                      consumers: map<string, Consumer>, closed: bool, closeChClosed: bool, s: string, c: Consumer)
    requires ShapeOk(seqNo, tasks, spawned, queues, consumers, closed, closeChClosed) && s in consumers
    ensures ShapeOk(seqNo, tasks, spawned, queues, consumers[s := c], closed, closeChClosed)
  {
  }

  lemma ShapeExit(seqNo: nat, tasks: map<TaskId, Task>, spawned: set<string>, queues: map<string, seq<TaskId>>,
                  consumers: map<string, Consumer>, closeChClosed: bool, s: string)
    requires ShapeOk(seqNo, tasks, spawned, queues, consumers, true, closeChClosed)
    ensures ShapeOk(seqNo, tasks, spawned - {s}, queues, consumers, true, closeChClosed)
  {
  }

  /** The matched tasks among `seen` were dropped, every other task is as before. */
  ghost predicate Filtered(before: map<TaskId, Task>, now: map<TaskId, Task>, matched: set<TaskId>, seen: seq<TaskId>) {
    && now.Keys == before.Keys
    && forall id <- now.Keys :: now[id] == if id in matched && id in seen then At(before[id], Dropped) else before[id]
  }

  lemma FilteredNone(tasks: map<TaskId, Task>, matched: set<TaskId>)
    ensures Filtered(tasks, tasks, matched, [])
  {
  }

  lemma FilteredSnoc(before: map<TaskId, Task>, now: map<TaskId, Task>, matched: set<TaskId>, seen: seq<TaskId>, id: TaskId)
    requires Filtered(before, now, matched, seen)
    ensures id !in matched ==> Filtered(before, now, matched, seen + [id])
    ensures id in now && id in matched ==> Filtered(before, now[id := At(now[id], Dropped)], matched, seen + [id])
  {
  }

  lemma FilteredAll(before: map<TaskId, Task>, now: map<TaskId, Task>, matched: set<TaskId>, seen: seq<TaskId>)
    requires Filtered(before, now, matched, seen)
    ensures now.Keys == before.Keys
    ensures forall id <- now.Keys :: now[id] == if id in matched && id in seen then At(before[id], Dropped) else before[id]
  {
  }

  /** The queue without the matched tasks. */
  function Kept(q: seq<TaskId>, matched: set<TaskId>): seq<TaskId> {
    if q == [] then []
    else Kept(q[..|q| - 1], matched) + if q[|q| - 1] in matched then [] else [q[|q| - 1]]
  }

  lemma KeptNone(matched: set<TaskId>)
    ensures Kept([], matched) == []
  {
  }

  /** The queues of the sessions in `todo` still hold their matched tasks. */
  ghost predicate SiftedQueues(before: map<string, seq<TaskId>>, now: map<string, seq<TaskId>>, matched: set<TaskId>,
                               todo: set<string>) {
    && now.Keys == before.Keys
    && forall s <- now.Keys :: now[s] == if s in todo then before[s] else Kept(before[s], matched)
  }

  ghost predicate SiftedTasks(before: map<TaskId, Task>, now: map<TaskId, Task>, matched: set<TaskId>, todo: set<string>) {
    && now.Keys == before.Keys
    && forall id <- now.Keys ::
         now[id] == if id in matched && before[id].phase == Queued && before[id].session !in todo then At(before[id], Dropped)
                    else before[id]
  }

  lemma NoneSifted(queues: map<string, seq<TaskId>>, tasks: map<TaskId, Task>, matched: set<TaskId>, todo: set<string>)
    requires forall id <- matched :: id in tasks && tasks[id].session in todo
    requires forall s <- queues.Keys :: s !in todo ==> Kept(queues[s], matched) == queues[s]
    ensures SiftedQueues(queues, queues, matched, todo) && SiftedTasks(tasks, tasks, matched, todo)
  {
    hide Kept;
  }

  lemma SiftOne(queues0: map<string, seq<TaskId>>, queues1: map<string, seq<TaskId>>, queues2: map<string, seq<TaskId>>,
                tasks0: map<TaskId, Task>, tasks1: map<TaskId, Task>, tasks2: map<TaskId, Task>, matched: set<TaskId>,
                todo: set<string>, s: string)
    requires SiftedQueues(queues0, queues1, matched, todo) && SiftedTasks(tasks0, tasks1, matched, todo)
    requires s in todo && s in queues1 && queues2 == queues1[s := Kept(queues1[s], matched)]
    requires forall id :: id in queues1[s] <==> id in tasks1 && tasks1[id].session == s && tasks1[id].phase == Queued
    requires tasks2.Keys == tasks1.Keys
    requires forall id <- tasks2.Keys ::
               tasks2[id] == if id in matched && id in queues1[s] then At(tasks1[id], Dropped) else tasks1[id]
    ensures SiftedQueues(queues0, queues2, matched, todo - {s}) && SiftedTasks(tasks0, tasks2, matched, todo - {s})
  {
    hide Kept;
  }

  lemma AllSifted(queues0: map<string, seq<TaskId>>, queues: map<string, seq<TaskId>>, tasks0: map<TaskId, Task>,
                  tasks: map<TaskId, Task>, matched: set<TaskId>)
    requires SiftedQueues(queues0, queues, matched, {}) && SiftedTasks(tasks0, tasks, matched, {})
    ensures queues.Keys == queues0.Keys && forall s <- queues.Keys :: queues[s] == Kept(queues0[s], matched)
    ensures tasks.Keys == tasks0.Keys
    ensures forall id <- tasks.Keys ::
              tasks[id] == if id in matched && tasks0[id].phase == Queued then At(tasks0[id], Dropped) else tasks0[id]
  {
    hide Kept, At;
  }

  /** The filter keeps exactly the unmatched tasks, and a queue without a match as it was. */
  lemma {:induction false} KeptMeaning(q: seq<TaskId>, matched: set<TaskId>)
    ensures forall id :: id in Kept(q, matched) <==> id in q && id !in matched
    ensures (forall id <- q :: id !in matched) ==> Kept(q, matched) == q
    decreases |q|
  {
    if q != [] {
      KeptMeaning(q[..|q| - 1], matched);
      assert q == q[..|q| - 1] + [q[|q| - 1]];
    }
  }

  lemma KeptSnoc(q: seq<TaskId>, id: TaskId, matched: set<TaskId>)
    ensures Kept(q + [id], matched) == Kept(q, matched) + if id in matched then [] else [id]
  {
    assert (q + [id])[..|q|] == q;
  }

  /** A task once its cancel mark is set: when no body started yet, none will. */
  function MarkedTask(t: Task): Task {
    t.(cancelling := Marked,
       notified := t.notified || t.phase == Running,
       doomed := !t.ran && t.phase != Leaving && t.phase != Settling && t.phase != Over,
       closes := if t.phase == Over then t.closes else t.closes + 1)
  }

  /** The task is in the task table and its owner, or its session, is the one being cancelled. */
  predicate Hit(m: Match, t: Task) {
    t.tracked && if m.ByOwner? then t.owner == m.owner else t.session == m.session
  }

  /** What a whole cancel makes of a task: out of the table and of its queue, its context cancelled if its
      body runs, its signal closed once; everything else as before. */
  predicate Aborted(t: Task, u: Task) {
    && !u.tracked && u.cancelling == Marked && u.closes == 1
    && u.phase == (if t.phase == Queued then Dropped else t.phase)
    && (t.phase == Running ==> u.notified) && (!t.ran && (t.phase == Queued || t.phase == Holding) ==> u.doomed)
    && u.owner == t.owner && u.session == t.session && u.ticket == t.ticket
    && u.posted == t.posted && u.ran == t.ran && u.ended == t.ended
  }

  /** A task a cancel took out of the task table. */
  function MatchedTask(t: Task): Task {
    t.(cancelling := Matched, tracked := false)
  }

  function CancelledTask(t: Task): Task {
    var u := MatchedTask(t);
    MarkedTask(if u.phase == Queued then At(u, Dropped) else u)
  }

  lemma CancelledMeans(t: Task, closed: bool)
    requires TaskOk(t, closed) && t.tracked
    ensures Aborted(t, CancelledTask(t))
  {
  }

  lemma MatchedIsOk(t: Task, closed: bool)
    requires TaskOk(t, closed) && t.tracked
    ensures TaskOk(MatchedTask(t), closed) && SamePlace(t, MatchedTask(t)) && !Cancelled(t)
  {
  }

  lemma PoppedIsOk(t: Task, closed: bool)
    requires TaskOk(t, closed) && t.phase == Queued
    ensures TaskOk(At(t, Popped), closed) && !HoldsSlot(t.phase) && !HoldsSlot(Popped) && !t.ran
  {
  }

  lemma HeldIsOk(t: Task, closed: bool)
    requires TaskOk(t, closed) && t.phase == Passed
    ensures TaskOk(At(t, Holding), closed) && SamePlace(t, At(t, Holding))
    ensures !HoldsSlot(t.phase) && HoldsSlot(Holding) && !t.ran
  {
  }

  lemma FreedIsOk(t: Task, closed: bool)
    requires TaskOk(t, closed) && t.phase == Releasing
    ensures TaskOk(At(t, Leaving), closed) && SamePlace(t, At(t, Leaving))
    ensures HoldsSlot(t.phase) && !HoldsSlot(Leaving)
  {
  }

  function Settled(t: Task): Task {
    t.(phase := Over, closes := if Cancelled(t) then t.closes else t.closes + 1)
  }

  lemma SettledIsOk(t: Task, closed: bool)
    requires TaskOk(t, closed) && t.phase == Settling
    ensures TaskOk(Settled(t), closed) && OnConsumer(t.phase) && !HoldsSlot(t.phase) && !HoldsSlot(Over)
    ensures Settled(t).phase == Over && Settled(t).closes == 1 && Settled(t).session == t.session &&
            Settled(t).ticket == t.ticket
    ensures Settled(t).ran == t.ran && Settled(t).ended == t.ended && Settled(t).posted == t.posted
  {
  }

  lemma TasksClose(tasks: map<TaskId, Task>, closed: bool)
    requires TasksOk(tasks, closed)
    ensures TasksOk(tasks, true)
  {
  }

  lemma ShapeSame(seqNo: nat, tasks: map<TaskId, Task>, spawned: set<string>, queues: map<string, seq<TaskId>>,
                  consumers: map<string, Consumer>, closed: bool, closeChClosed: bool)
    requires ShapeOk(seqNo, tasks, spawned, queues, consumers, closed, closeChClosed)
    ensures queues.Keys == consumers.Keys && (closeChClosed ==> closed)
  {
  }

  lemma ShapeQueue(seqNo: nat, tasks: map<TaskId, Task>, spawned: set<string>, queues: map<string, seq<TaskId>>,
                   consumers: map<string, Consumer>, closed: bool, closeChClosed: bool, s: string, q: seq<TaskId>)
    requires ShapeOk(seqNo, tasks, spawned, queues, consumers, closed, closeChClosed) && s in queues
    ensures ShapeOk(seqNo, tasks, spawned, queues[s := q], consumers, closed, closeChClosed)
  {
  }

  lemma ShapeTake(seqNo: nat, tasks: map<TaskId, Task>, spawned: set<string>, queues: map<string, seq<TaskId>>,
                  consumers: map<string, Consumer>, closed: bool, closeChClosed: bool, s: string, q: seq<TaskId>, c: Consumer)
    requires ShapeOk(seqNo, tasks, spawned, queues, consumers, closed, closeChClosed) && s in queues
    ensures ShapeOk(seqNo, tasks, spawned, queues[s := q], consumers[s := c], closed, closeChClosed)
  {
  }

  lemma QueuesHead(queues: map<string, seq<TaskId>>, tasks: map<TaskId, Task>, last: map<string, int>, s: string)
    requires QueuesOk(queues, tasks, last) && s in queues && queues[s] != []
    ensures queues[s][0] in tasks && tasks[queues[s][0]].session == s && tasks[queues[s][0]].phase == Queued
  {
  }

  lemma WakeJoin(consumers: map<string, Consumer>, queues: map<string, seq<TaskId>>, wake: set<string>,
                 tasks: map<TaskId, Task>, id: TaskId, u: Task)
    requires WakeOk(consumers, queues, wake, tasks) && id in tasks && u.posted == tasks[id].posted && !u.posted &&
             u.session in queues
    ensures WakeOk(consumers, queues[u.session := queues[u.session] + [id]], wake, tasks[id := u])
  {
  }

  /** A token for the session covers the task whose submitter delivers it. */
  lemma WakePost(consumers: map<string, Consumer>, queues: map<string, seq<TaskId>>, wake: set<string>,
                 tasks: map<TaskId, Task>, last: map<string, int>, id: TaskId)
    requires WakeOk(consumers, queues, wake, tasks) && QueuesOk(queues, tasks, last) && id in tasks
    ensures WakeOk(consumers, queues, wake + {tasks[id].session}, tasks[id := tasks[id].(posted := true)])
  {
    forall s <- queues.Keys, x <- queues[s] | s in consumers && (consumers[s] == Starting || consumers[s] == Waiting) && x == id
      ensures s == tasks[id].session
    {
      assert QueueOk(s, queues[s], tasks, last[s]);
    }
  }

  lemma WakeUsed(consumers: map<string, Consumer>, queues: map<string, seq<TaskId>>, wake: set<string>,
                 tasks: map<TaskId, Task>, s: string)
    requires WakeOk(consumers, queues, wake, tasks) && s in consumers && consumers[s] == Draining
    ensures WakeOk(consumers, queues, wake - {s}, tasks)
  {
  }

  lemma WakeTake(consumers: map<string, Consumer>, queues: map<string, seq<TaskId>>, wake: set<string>,
                 tasks: map<TaskId, Task>, s: string, id: TaskId, u: Task)
    requires WakeOk(consumers, queues, wake, tasks) && id in tasks && u.posted == tasks[id].posted && s in queues &&
             queues[s] != []
    ensures WakeOk(consumers[s := Busy(id)], queues[s := queues[s][1..]], wake, tasks[id := u])
  {
  }

  lemma WakeDrop(consumers: map<string, Consumer>, queues: map<string, seq<TaskId>>, wake: set<string>,
                 tasks: map<TaskId, Task>, s: string, i: nat)
    requires WakeOk(consumers, queues, wake, tasks) && s in queues && i < |queues[s]|
    ensures WakeOk(consumers, queues[s := queues[s][..i] + queues[s][i + 1..]], wake, tasks)
  {
  }

  /** The task a consumer finished is over and the consumer holds none. */
  lemma Retire(tasks: map<TaskId, Task>, id: TaskId, u: Task, next: nat, queues: map<string, seq<TaskId>>,
               last: map<string, int>, consumers: map<string, Consumer>)
    requires id in tasks && OnConsumer(tasks[id].phase) && u.phase == Over
    requires u.session == tasks[id].session && u.ticket == tasks[id].ticket
    requires TicketsOk(tasks, next, last) && QueuesOk(queues, tasks, last) && ConsumersOk(consumers, tasks, last)
    ensures TicketsOk(tasks[id := u], next, last) && QueuesOk(queues, tasks[id := u], last)
    ensures u.session in consumers && ConsumersOk(consumers[u.session := Between], tasks[id := u], last)
  {
    hide QueueOk, ConsumersOk;
    forall s <- queues.Keys ensures QueueOk(s, queues[s], tasks[id := u], last[s]) {
      QueueRetire(s, queues[s], tasks, id, u, last[s]);
    }
    ConsumerRetires(tasks, id, u, last, consumers);
  }

  lemma ConsumerRetires(tasks: map<TaskId, Task>, id: TaskId, u: Task, last: map<string, int>,
                        consumers: map<string, Consumer>)
    requires id in tasks && OnConsumer(tasks[id].phase) && u.phase == Over && u.session == tasks[id].session
    requires ConsumersOk(consumers, tasks, last)
    ensures u.session in consumers && ConsumersOk(consumers[u.session := Between], tasks[id := u], last)
  {
    forall x <- tasks.Keys | x != id && OnConsumer(tasks[x].phase) ensures tasks[x].session != u.session {
      assert consumers[tasks[x].session] == Busy(x) && consumers[tasks[id].session] == Busy(id);
    }
  }

  lemma QueueRetire(s: string, q: seq<TaskId>, tasks: map<TaskId, Task>, id: TaskId, u: Task, last: int)
    requires QueueOk(s, q, tasks, last) && id in tasks && OnConsumer(tasks[id].phase)
    ensures QueueOk(s, q, tasks[id := u], last)
  {
  }
}
