/**
 The endpoint's three read-write locks and the order its tasks take them in. A
 lock serves its waiters first come first served, so a reader waits behind a
 queued writer. Tasks run lock programs, any number of them, interleaved in any
 way.
 */
module StratumLocks {
  import opened Prelude

  type TaskId = nat

  datatype LockName = JobsLock | SeenLock | SessionsLock

  datatype Mode = Shared | Exclusive

  datatype Op = Acquire(lock: LockName, mode: Mode) | Release(lock: LockName) | Work

  type Program = seq<Op>

  // ---------------------------------------------------------------------------
  // The programs
  // ---------------------------------------------------------------------------

  // A broadcast: the eviction's guard goes before the table is read.
  const BROADCAST: Program := [
    Acquire(JobsLock, Exclusive), Acquire(SeenLock, Exclusive), Work, Release(SeenLock),
    Acquire(SessionsLock, Shared), Work, Release(SessionsLock), Release(JobsLock)]

  // A pause, which empties the table.
  const PAUSE: Program := [
    Acquire(JobsLock, Exclusive), Acquire(SeenLock, Exclusive), Work, Release(SeenLock),
    Acquire(SessionsLock, Exclusive), Work, Release(SessionsLock), Release(JobsLock)]

  // A login lists its session and queues its reply under the jobs guard.
  const LOGIN: Program := [
    Acquire(JobsLock, Shared), Acquire(SessionsLock, Exclusive), Work, Release(SessionsLock), Work,
    Release(JobsLock)]

  // A login without a job, or a submit of an unknown one.
  const LOOKUP: Program := [
    Acquire(JobsLock, Shared), Work, Release(JobsLock)]

  // A submit whose session is gone.
  const LOST: Program := [
    Acquire(JobsLock, Shared), Work, Release(JobsLock), Acquire(SessionsLock, Shared), Work,
    Release(SessionsLock)]

  // A submit that reaches the duplicate set.
  const SUBMIT: Program := [
    Acquire(JobsLock, Shared), Work, Release(JobsLock), Acquire(SessionsLock, Shared), Work,
    Release(SessionsLock), Acquire(SeenLock, Exclusive), Work, Release(SeenLock), Work]

  // The end of a connection.
  const LEAVE: Program := [
    Acquire(SessionsLock, Exclusive), Work, Release(SessionsLock)]

  const ENDPOINT: seq<Program> := [BROADCAST, PAUSE, LOGIN, LOOKUP, LOST, SUBMIT, LEAVE]

  function Rank(lock: LockName): nat {
    match lock
    case JobsLock => 0
    case SeenLock => 1
    case SessionsLock => 2
  }

  // How a lock is held after the first n operations.
  function Holds(program: Program, n: nat, lock: LockName): Option<Mode>
    requires n <= |program|
  {
    if n == 0 then None
    else
      match program[n - 1]
      case Acquire(l, mode) => if l == lock then Some(mode) else Holds(program, n - 1, lock)
      case Release(l) => if l == lock then None else Holds(program, n - 1, lock)
      case Work => Holds(program, n - 1, lock)
  }

  // Locks are taken in rank order, and none is held at the end.
  ghost predicate Ordered(program: Program) {
    && (forall i, lock :: 0 <= i < |program| && program[i].Acquire? && Holds(program, i, lock).Some?
          ==> Rank(lock) < Rank(program[i].lock))
    && AllFree(program, |program|)
  }

  predicate AllFree(program: Program, n: nat)
    requires n <= |program|
  {
    Holds(program, n, JobsLock).None? && Holds(program, n, SeenLock).None? && Holds(program, n, SessionsLock).None?
  }

  // ---------------------------------------------------------------------------
  // The tasks
  // ---------------------------------------------------------------------------

  /** A task `at` an operation of its program, in the queue of a lock or not. */
  datatype Task = Task(program: Program, at: nat, queued: bool)

  datatype State = State(tasks: map<TaskId, Task>, queue: map<LockName, seq<TaskId>>)

  const Init: State := State(map[], map[JobsLock := [], SeenLock := [], SessionsLock := []])

  // A task that starts a program, asks for a lock, goes on with anything else;
  // and a lock that serves the head of its queue.
  datatype Action = Begin(t: TaskId, i: nat) | Request(t: TaskId) | Advance(t: TaskId) | Grant(lock: LockName)

  predicate Busy(s: State, t: TaskId) {
    t in s.tasks && s.tasks[t].at < |s.tasks[t].program|
  }

  // What a busy task does next.
  function Next(s: State, t: TaskId): Op
    requires Busy(s, t)
  {
    s.tasks[t].program[s.tasks[t].at]
  }

  function Held(s: State, t: TaskId, lock: LockName): Option<Mode> {
    if t in s.tasks && s.tasks[t].at <= |s.tasks[t].program|
    then Holds(s.tasks[t].program, s.tasks[t].at, lock) else None
  }

  predicate Conflict(held: Option<Mode>, mode: Mode) {
    held.Some? && (held.value.Exclusive? || mode.Exclusive?)
  }

  predicate Waits(s: State, t: TaskId, lock: LockName) {
    Busy(s, t) && s.tasks[t].queued && Next(s, t).Acquire? && Next(s, t).lock == lock
  }

  // The head of the lock's queue may have it.
  ghost predicate CanGrant(s: State, lock: LockName) {
    && lock in s.queue && s.queue[lock] != [] && Waits(s, s.queue[lock][0], lock)
    && (forall u :: u in s.tasks ==> !Conflict(Held(s, u, lock), Next(s, s.queue[lock][0]).mode))
  }

  ghost function Step(programs: seq<Program>, s: State, a: Action): State {
    match a
    case Begin(t, i) =>
      if Busy(s, t) || i >= |programs| then s else s.(tasks := s.tasks[t := Task(programs[i], 0, false)])
    case Request(t) =>
      if !(Busy(s, t) && Next(s, t).Acquire? && !s.tasks[t].queued && Next(s, t).lock in s.queue) then s
      else
        var lock := Next(s, t).lock;
        s.(tasks := s.tasks[t := s.tasks[t].(queued := true)], queue := s.queue[lock := s.queue[lock] + [t]])
    case Advance(t) =>
      if !(Busy(s, t) && !Next(s, t).Acquire?) then s else s.(tasks := s.tasks[t := Moved(s.tasks[t])])
    case Grant(lock) =>
      if !CanGrant(s, lock) then s
      else
        var t := s.queue[lock][0];
        s.(tasks := s.tasks[t := Moved(s.tasks[t])], queue := s.queue[lock := s.queue[lock][1..]])
  }

  function Moved(task: Task): Task {
    Task(task.program, task.at + 1, false)
  }

  ghost function Run(programs: seq<Program>, schedule: seq<Action>): State {
    if schedule == [] then Init
    else Step(programs, Run(programs, schedule[..|schedule| - 1]), schedule[|schedule| - 1])
  }

  // ---------------------------------------------------------------------------
  // The invariant
  // ---------------------------------------------------------------------------

  ghost predicate TasksInv(programs: seq<Program>, s: State) {
    forall t :: t in s.tasks ==> s.tasks[t].program in programs && s.tasks[t].at <= |s.tasks[t].program|
  }

  // A queue holds exactly the tasks that wait for its lock, each once.
  ghost predicate QueueInv(s: State) {
    && (forall lock: LockName :: lock in s.queue)
    && (forall lock, i :: lock in s.queue && 0 <= i < |s.queue[lock]| ==> Waits(s, s.queue[lock][i], lock))
    && (forall lock, i, j :: lock in s.queue && 0 <= i < j < |s.queue[lock]| ==> s.queue[lock][i] != s.queue[lock][j])
    && (forall t :: t in s.tasks && s.tasks[t].queued ==>
          Busy(s, t) && Next(s, t).Acquire? && Next(s, t).lock in s.queue && t in s.queue[Next(s, t).lock])
  }

  // Two tasks that hold the same lock share it.
  ghost predicate Excludes(s: State) {
    forall t, u, lock :: t in s.tasks && u in s.tasks && t != u && Held(s, t, lock).Some? && Held(s, u, lock).Some? ==>
      Held(s, t, lock).value.Shared? && Held(s, u, lock).value.Shared?
  }

  ghost predicate Inv(programs: seq<Program>, s: State) {
    TasksInv(programs, s) && QueueInv(s) && Excludes(s)
  }

  lemma BeginKeeps(programs: seq<Program>, s: State, t: TaskId, i: nat)
    requires Inv(programs, s)
    ensures Inv(programs, Step(programs, s, Begin(t, i)))
  {
    if !Busy(s, t) && i < |programs| {
      var s' := Step(programs, s, Begin(t, i));
      assert forall lock :: Held(s', t, lock).None?;
      assert forall u, lock :: u != t ==> Held(s', u, lock) == Held(s, u, lock);
      assert forall lock, k :: lock in s.queue && 0 <= k < |s.queue[lock]| ==> s.queue[lock][k] != t;
    }
  }

  lemma RequestKeeps(programs: seq<Program>, s: State, t: TaskId)
    requires Inv(programs, s)
    ensures Inv(programs, Step(programs, s, Request(t)))
  {
    var s' := Step(programs, s, Request(t));
    assert forall u, lock :: Held(s', u, lock) == Held(s, u, lock);
    RequestKeepsQueue(programs, s, t);
  }

  lemma RequestKeepsQueue(programs: seq<Program>, s: State, t: TaskId)
    requires QueueInv(s)
    ensures QueueInv(Step(programs, s, Request(t)))
  {
    var s' := Step(programs, s, Request(t));
    if Busy(s, t) && Next(s, t).Acquire? && !s.tasks[t].queued {
      var lock := Next(s, t).lock;
      assert forall l, i :: l in s.queue && 0 <= i < |s.queue[l]| ==> s.queue[l][i] != t;
      assert s'.queue[lock][|s.queue[lock]|] == t;
      assert forall u :: u in s.queue[lock] ==> u in s'.queue[lock];
    }
  }

  lemma AdvanceKeeps(programs: seq<Program>, s: State, t: TaskId)
    requires Inv(programs, s)
    ensures Inv(programs, Step(programs, s, Advance(t)))
  {
    var s' := Step(programs, s, Advance(t));
    assert forall u, lock :: Held(s', u, lock).Some? ==> Held(s', u, lock) == Held(s, u, lock);
  }

  // The one served was in no other place of any queue.
  lemma ServedOnce(s: State, lock: LockName)
    requires QueueInv(s) && CanGrant(s, lock)
    ensures
      forall l, i :: l in s.queue && 0 <= i < |s.queue[l]| && s.queue[l][i] == s.queue[lock][0] ==> l == lock && i == 0
  {
    forall l, i | l in s.queue && 0 <= i < |s.queue[l]| && s.queue[l][i] == s.queue[lock][0]
      ensures l == lock && i == 0
    {
      assert Waits(s, s.queue[l][i], l) && Waits(s, s.queue[lock][0], lock);
    }
  }

  lemma GrantKeepsWaiters(programs: seq<Program>, s: State, lock: LockName)
    requires QueueInv(s) && CanGrant(s, lock)
    ensures
      var s' := Step(programs, s, Grant(lock));
      && (forall l, i :: l in s'.queue && 0 <= i < |s'.queue[l]| ==> Waits(s', s'.queue[l][i], l))
      && (forall l, i, j :: l in s'.queue && 0 <= i < j < |s'.queue[l]| ==> s'.queue[l][i] != s'.queue[l][j])
  {
    ServedOnce(s, lock);
    var s' := Step(programs, s, Grant(lock));
    forall l, i | l in s'.queue && 0 <= i < |s'.queue[l]| ensures Waits(s', s'.queue[l][i], l) {
      var k := if l == lock then i + 1 else i;
      assert s'.queue[l][i] == s.queue[l][k];
      assert Waits(s, s.queue[l][k], l);
    }
  }

  lemma GrantKeepsQueue(programs: seq<Program>, s: State, lock: LockName)
    requires QueueInv(s)
    ensures QueueInv(Step(programs, s, Grant(lock)))
  {
    if CanGrant(s, lock) {
      GrantKeepsWaiters(programs, s, lock);
      var q := s.queue[lock];
      assert forall u :: u in q && u != q[0] ==> u in q[1..];
    }
  }

  lemma GrantExcludes(programs: seq<Program>, s: State, lock: LockName)
    requires Inv(programs, s)
    ensures Excludes(Step(programs, s, Grant(lock)))
  {
    if CanGrant(s, lock) {
      var s' := Step(programs, s, Grant(lock));
      var t := s.queue[lock][0];
      assert forall u, l :: u in s'.tasks && (u != t || l != lock) ==> Held(s', u, l) == Held(s, u, l);
      assert Held(s', t, lock) == Some(Next(s, t).mode);
      forall a, b, l | a in s'.tasks && b in s'.tasks && a != b && Held(s', a, l).Some?
        ensures !Conflict(Held(s', b, l), Held(s', a, l).value)
      {
        if l == lock && (a == t || b == t) {
          assert !Conflict(Held(s, if a == t then b else a, lock), Next(s, t).mode);
        } else {
          assert !Conflict(Held(s, b, l), Held(s, a, l).value);
        }
      }
    }
  }

  lemma GrantKeeps(programs: seq<Program>, s: State, lock: LockName)
    requires Inv(programs, s)
    ensures Inv(programs, Step(programs, s, Grant(lock)))
  {
    GrantKeepsQueue(programs, s, lock);
    GrantExcludes(programs, s, lock);
  }

  lemma {:induction false} Invariant(programs: seq<Program>, schedule: seq<Action>)
    ensures Inv(programs, Run(programs, schedule))
  {
    if schedule == [] {
      forall lock: LockName ensures lock in Init.queue {
        match lock {
          case JobsLock | SeenLock | SessionsLock =>
        }
      }
    } else {
      var s := Run(programs, schedule[..|schedule| - 1]);
      Invariant(programs, schedule[..|schedule| - 1]);
      match schedule[|schedule| - 1] {
        case Begin(t, i) => BeginKeeps(programs, s, t, i);
        case Request(t) => RequestKeeps(programs, s, t);
        case Advance(t) => AdvanceKeeps(programs, s, t);
        case Grant(lock) => GrantKeeps(programs, s, lock);
      }
    }
  }

  // In every state a lock somebody waits for serves the head of its queue unless
  // a task holds it and one of the two wants it alone, and then it waits.
  lemma {:induction false} GrantedIff(programs: seq<Program>, schedule: seq<Action>, lock: LockName)
    ensures
      var s := Run(programs, schedule);
      lock in s.queue && (s.queue[lock] != [] ==>
        var head := s.queue[lock][0];
        Waits(s, head, lock) &&
        var t, mode := Step(programs, s, Grant(lock)), Next(s, head).mode;
        if forall u :: u in s.tasks && Held(s, u, lock).Some? ==> Held(s, u, lock).value.Shared? && mode.Shared?
        then Held(t, head, lock) == Some(mode) && t.queue[lock] == s.queue[lock][1..]
        else t == s)
  {
    Invariant(programs, schedule);
  }

  // ---------------------------------------------------------------------------
  // No deadlock
  // ---------------------------------------------------------------------------

  // Somebody is busy, every busy task waits in a queue, and no queue can be
  // served.
  ghost predicate Stuck(s: State) {
    && (exists t :: Busy(s, t))
    && (forall t :: Busy(s, t) ==> s.tasks[t].queued)
    && (forall lock :: !CanGrant(s, lock))
  }

  // A lock that cannot be served is held by a task that waits for a higher one.
  lemma WaitsHigher(programs: seq<Program>, s: State, lock: LockName) returns (higher: LockName)
    requires forall i :: 0 <= i < |programs| ==> Ordered(programs[i])
    requires Inv(programs, s) && Stuck(s) && lock in s.queue && s.queue[lock] != []
    ensures Rank(higher) > Rank(lock) && higher in s.queue && s.queue[higher] != []
  {
    var head := s.queue[lock][0];
    assert Waits(s, head, lock) && !CanGrant(s, lock);
    assert exists u :: u in s.tasks && Conflict(Held(s, u, lock), Next(s, head).mode);
    var u :| u in s.tasks && Conflict(Held(s, u, lock), Next(s, head).mode);
    var task := s.tasks[u];
    var k :| 0 <= k < |programs| && programs[k] == task.program;
    assert Ordered(programs[k]) && AllFree(task.program, |task.program|);
    assert Busy(s, u);
    higher := Next(s, u).lock;
  }

  // Programs that take their locks in order never stand still together, in any
  // interleaving of any number of tasks.
  lemma {:induction false} OrderedNeverStuck(programs: seq<Program>, schedule: seq<Action>)
    requires forall i :: 0 <= i < |programs| ==> Ordered(programs[i])
    ensures !Stuck(Run(programs, schedule))
  {
    Invariant(programs, schedule);
    var s := Run(programs, schedule);
    if Stuck(s) {
      var t :| Busy(s, t);
      var first := WaitsHigher(programs, s, Next(s, t).lock);
      var second := WaitsHigher(programs, s, first);
      var third := WaitsHigher(programs, s, second);
      assert false;
    }
  }

  lemma BroadcastIsOrdered()
    ensures Ordered(BROADCAST)
  {
    assert Holds(BROADCAST, 1, SeenLock).None? && Holds(BROADCAST, 1, SessionsLock).None?;
    assert Holds(BROADCAST, 4, SessionsLock).None?;
    assert AllFree(BROADCAST, 8);
  }

  lemma PauseIsOrdered()
    ensures Ordered(PAUSE)
  {
    assert Holds(PAUSE, 1, SeenLock).None? && Holds(PAUSE, 1, SessionsLock).None?;
    assert Holds(PAUSE, 4, SessionsLock).None?;
    assert AllFree(PAUSE, 8);
  }

  lemma LoginIsOrdered()
    ensures Ordered(LOGIN)
  {
    assert Holds(LOGIN, 1, SessionsLock).None?;
    assert AllFree(LOGIN, 6);
  }

  lemma LookupIsOrdered()
    ensures Ordered(LOOKUP)
  {
    assert AllFree(LOOKUP, 3);
  }

  lemma LostIsOrdered()
    ensures Ordered(LOST)
  {
    assert Holds(LOST, 3, SessionsLock).None?;
    assert AllFree(LOST, 6);
  }

  lemma SubmitIsOrdered()
    ensures Ordered(SUBMIT)
  {
    assert Holds(SUBMIT, 3, SessionsLock).None?;
    assert Holds(SUBMIT, 6, SeenLock).None? && Holds(SUBMIT, 6, SessionsLock).None?;
    assert AllFree(SUBMIT, 10);
  }

  lemma LeaveIsOrdered()
    ensures Ordered(LEAVE)
  {
    assert AllFree(LEAVE, 3);
  }

  lemma EndpointIsOrdered()
    ensures forall i :: 0 <= i < |ENDPOINT| ==> Ordered(ENDPOINT[i])
  {
    BroadcastIsOrdered();
    PauseIsOrdered();
    LoginIsOrdered();
    LookupIsOrdered();
    LostIsOrdered();
    SubmitIsOrdered();
    LeaveIsOrdered();
  }

  // The endpoint never deadlocks on its locks, and no lock is held in conflict.
  lemma {:induction false} EndpointNeverStuck(schedule: seq<Action>)
    ensures !Stuck(Run(ENDPOINT, schedule)) && Excludes(Run(ENDPOINT, schedule))
  {
    EndpointIsOrdered();
    OrderedNeverStuck(ENDPOINT, schedule);
    Invariant(ENDPOINT, schedule);
  }

  // ---------------------------------------------------------------------------
  // Without the order
  // ---------------------------------------------------------------------------

  // A program that takes the session table before the jobs.
  const REVERSED: Program := [
    Acquire(SessionsLock, Exclusive), Acquire(JobsLock, Exclusive), Release(JobsLock), Release(SessionsLock)]

  ghost predicate Reached(programs: seq<Program>, s: State) {
    exists schedule :: Run(programs, schedule) == s
  }

  lemma Then(programs: seq<Program>, s: State, a: Action)
    requires Reached(programs, s)
    ensures Reached(programs, Step(programs, s, a))
  {
    var schedule :| Run(programs, schedule) == s;
    assert (schedule + [a])[..|schedule + [a]| - 1] == schedule;
    assert Run(programs, schedule + [a]) == Step(programs, s, a);
  }

  function Queues(jobs: seq<TaskId>, sessions: seq<TaskId>): map<LockName, seq<TaskId>> {
    map[JobsLock := jobs, SeenLock := [], SessionsLock := sessions]
  }

  // A task that starts program i and asks for its first lock.
  lemma AsksFirst(programs: seq<Program>, s: State, t: TaskId, i: nat) returns (s': State)
    requires Reached(programs, s) && s.queue == Queues([], []) && t !in s.tasks && i < |programs|
    requires |programs[i]| > 0 && programs[i][0].Acquire?
    ensures Reached(programs, s') && s'.tasks == s.tasks[t := Task(programs[i], 0, true)]
    ensures var lock := programs[i][0].lock;
      lock in s.queue && s.queue[lock] == [] && s'.queue == s.queue[lock := [t]]
  {
    var lock := programs[i][0].lock;
    assert lock in s.queue && s.queue[lock] == [] by {
      match lock {
        case JobsLock | SeenLock | SessionsLock =>
      }
    }
    Then(programs, s, Begin(t, i));
    var begun := Step(programs, s, Begin(t, i));
    Then(programs, begun, Request(t));
    s' := Step(programs, begun, Request(t));
    assert s.queue[lock] + [t] == [t];
  }

  // And is served it.
  lemma TakesFirst(programs: seq<Program>, s: State, t: TaskId, i: nat) returns (s': State)
    requires Reached(programs, s) && s.queue == Queues([], []) && t !in s.tasks && i < |programs|
    requires |programs[i]| > 0 && programs[i][0].Acquire?
    requires forall u :: u in s.tasks ==> Held(s, u, programs[i][0].lock).None?
    ensures Reached(programs, s') && s'.queue == s.queue
    ensures s'.tasks == s.tasks[t := Task(programs[i], 1, false)]
  {
    var lock := programs[i][0].lock;
    var asked := AsksFirst(programs, s, t, i);
    assert asked.queue[lock] == [t] && Waits(asked, t, lock);
    assert forall u :: u in asked.tasks ==> Held(asked, u, lock).None?;
    assert CanGrant(asked, lock);
    Then(programs, asked, Grant(lock));
    s' := Step(programs, asked, Grant(lock));
    assert [t][1..] == [] && lock in s.queue && s.queue[lock] == [];
    assert s'.queue == s.queue;
  }

  // One such program beside a login is enough: each holds what the other waits
  // for.
  lemma OutOfOrderSticks()
    ensures exists schedule :: Stuck(Run([LOGIN, REVERSED], schedule))
  {
    var programs := [LOGIN, REVERSED];
    assert Run(programs, []) == Init;
    var s := TakesFirst(programs, Init, 0, 0);
    assert Holds(LOGIN, 1, SessionsLock).None?;
    s := TakesFirst(programs, s, 1, 1);
    s := BothAsk(s);
    var schedule :| Run(programs, schedule) == s;
    assert Stuck(Run(programs, schedule));
  }

  lemma BothAsk(s: State) returns (s': State)
    requires Reached([LOGIN, REVERSED], s) && s.queue == Queues([], [])
    requires s.tasks == map[0 := Task(LOGIN, 1, false), 1 := Task(REVERSED, 1, false)]
    ensures Reached([LOGIN, REVERSED], s') && Stuck(s')
  {
    var programs := [LOGIN, REVERSED];
    assert Next(s, 0) == Acquire(SessionsLock, Exclusive);
    Then(programs, s, Request(0));
    var asked := Step(programs, s, Request(0));
    assert s.queue[SessionsLock] + [0] == [0] && asked.queue[SessionsLock] == [0];
    assert asked.queue == Queues([], [0]);
    assert Next(asked, 1) == Acquire(JobsLock, Exclusive);
    Then(programs, asked, Request(1));
    s' := Step(programs, asked, Request(1));
    assert asked.queue[JobsLock] + [1] == [1] && s'.queue[JobsLock] == [1];
    assert s'.queue == Queues([1], [0]);
    assert s'.tasks == map[0 := Task(LOGIN, 1, true), 1 := Task(REVERSED, 1, true)];
    BothWait(s');
  }

  lemma BothWait(s: State)
    requires s.queue == Queues([1], [0])
    requires s.tasks == map[0 := Task(LOGIN, 1, true), 1 := Task(REVERSED, 1, true)]
    ensures Stuck(s)
  {
    assert Busy(s, 0);
    assert Held(s, 0, JobsLock) == Some(Shared) && Held(s, 1, SessionsLock) == Some(Exclusive);
    assert Next(s, 0) == Acquire(SessionsLock, Exclusive) && Next(s, 1) == Acquire(JobsLock, Exclusive);
    forall lock ensures !CanGrant(s, lock) {
      match lock {
        case JobsLock => assert Conflict(Held(s, 0, JobsLock), Next(s, s.queue[JobsLock][0]).mode);
        case SeenLock =>
        case SessionsLock => assert Conflict(Held(s, 1, SessionsLock), Next(s, s.queue[SessionsLock][0]).mode);
      }
    }
  }
}
