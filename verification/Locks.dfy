/** The lock protocol of checker/monitor.go, checker/diagnosis.go, checker/access_check.go and
    subscription_update.go.  Every operation is a program of lock and semaphore operations, some of
    which fork workers and join them; programs interleave freely. */
module Locks {
  datatype Option<+T> = None | Some(value: T)

  /** The locks and semaphores.  Leaves protect single maps or counters and are never held across
      another acquisition, but for the two that guard writing a snapshot. */
  datatype Resource =
    | ManualPriority
    | Updater
    | CheckCycle
    | Runtime
    | ProxyLock(key: nat)
    | ProbeSemaphore
    | Diagnostics
    | Slots
    | Persist
    | Leaf(name: nat)

  /** The acquisition order. */
  function Rank(r: Resource): int {
    match r
    case ManualPriority => 0
    case Updater => 1
    case CheckCycle => 2
    case Runtime => 3
    case ProxyLock(_) => 4
    case ProbeSemaphore => 5
    case Diagnostics => 6
    case Slots => 7
    case Persist => 8
    case Leaf(_) => 9
  }

  /** Writers and mutexes, readers, and tokens of a semaphore. */
  datatype Mode = Exclusive | Shared | Token

  predicate IsSemaphore(r: Resource) { r == ProbeSemaphore || r == Diagnostics || r == Slots }

  /** Resolve looks the targets up in the current proxy set, Use dials the local port of one of
      them, Restart stops and starts Xray, Replace installs a new proxy set. */
  datatype Op =
    | Take(r: Resource, mode: Mode)
    | Give(r: Resource)
    | Fork(workers: seq<seq<Op>>)
    | Join
    | Resolve
    | Use
    | Restart
    | Replace

  type Held = map<Resource, Mode>

  datatype Thread = Thread(todo: seq<Op>, held: Held)

  /** An operation under way: its own thread, the workers it waits for, and the version of the proxy
      set in which it resolved its targets. */
  datatype Task = Task(main: Thread, workers: seq<Thread>, version: Option<nat>)

  /** `capacity` of the semaphores; it is positive. */
  datatype State = State(tasks: seq<Task>, current: nat, capacity: map<Resource, nat>)

  // ---- disciplined programs ----

  /** What a program has acquired, and whether its targets are resolved. */
  datatype Context = Context(held: Held, resolved: bool)

  predicate Above(held: Held, r: Resource) { forall h :: h in held ==> Rank(h) < Rank(r) }

  predicate HeldAs(held: Held, r: Resource, mode: Mode) { r in held && held[r] == mode }

  predicate MayTake(held: Held, r: Resource, mode: Mode) { Above(held, r) && (mode == Token <==> IsSemaphore(r)) }

  /** Whether a worker may do this next; `base` is what the operation that forked it holds. */
  predicate WorkerMay(base: Held, c: Context, op: Op) {
    match op
    case Take(r, mode) => Above(base, r) && MayTake(c.held, r, mode)
    case Give(r) => r in c.held
    case Use => c.resolved
    case _ => false
  }

  function After(c: Context, op: Op): Context {
    match op
    case Take(r, mode) => c.(held := c.held[r := mode])
    case Give(r) => Context(c.held - {r}, c.resolved && r != Runtime)
    case Resolve => c.(resolved := true)
    case _ => c
  }

  /** A worker's program obeys the order and ends with nothing held. */
  predicate Walks(base: Held, c: Context, todo: seq<Op>)
    decreases |todo|
  {
    if todo == [] then c.held == map[]
    else WorkerMay(base, c, todo[0]) && Walks(base, After(c, todo[0]), todo[1..])
  }

  predicate AllWalk(c: Context, programs: seq<seq<Op>>) {
    forall i :: 0 <= i < |programs| ==> Walks(c.held, Context(map[], c.resolved), programs[i])
  }

  /** Whether an operation's own thread may do this next. */
  predicate MainMay(c: Context, op: Op) {
    match op
    case Take(r, mode) => MayTake(c.held, r, mode)
    case Give(r) => r in c.held
    case Fork(programs) => AllWalk(c, programs)
    case Join => false
    case Resolve => HeldAs(c.held, Runtime, Shared)
    case Use => c.resolved
    case Restart => HeldAs(c.held, Runtime, Exclusive)
    case Replace => HeldAs(c.held, Runtime, Exclusive)
  }

  /** An operation's program obeys the order; `end` is what it holds at its end. */
  predicate Leads(c: Context, todo: seq<Op>, end: Context)
    decreases |todo|
  {
    if todo == [] then c == end
    else MainMay(c, todo[0]) && Leads(After(c, todo[0]), todo[1..], end)
  }

  const NOTHING: Context := Context(map[], false)

  lemma {:induction false} LeadsOn(c: Context, a: seq<Op>, middle: Context, b: seq<Op>, end: Context)
    requires Leads(c, a, middle) && Leads(middle, b, end)
    ensures Leads(c, a + b, end)
    decreases |a|
  {
    if a == [] {
      assert a + b == b;
    } else {
      LeadsOn(After(c, a[0]), a[1..], middle, b, end);
      assert (a + b)[0] == a[0] && (a + b)[1..] == a[1..] + b;
    }
  }

  // ---- steps ----

  datatype ThreadID = Main(t: nat) | Worker(t: nat, w: nat)

  predicate IsThread(s: State, id: ThreadID) {
    id.t < |s.tasks| && (id.Worker? ==> id.w < |s.tasks[id.t].workers|)
  }

  function ThreadOf(s: State, id: ThreadID): Thread
    requires IsThread(s, id)
  {
    if id.Main? then s.tasks[id.t].main else s.tasks[id.t].workers[id.w]
  }

  function HeldBy(s: State, id: ThreadID): Held
    requires IsThread(s, id)
  {
    ThreadOf(s, id).held
  }

  function Threads(s: State): set<ThreadID> {
    (set t | 0 <= t < |s.tasks| :: Main(t)) +
    (set t, w | 0 <= t < |s.tasks| && 0 <= w < |s.tasks[t].workers| :: Worker(t, w))
  }

  function Holders(s: State, r: Resource): set<ThreadID> {
    set id | id in Threads(s) && IsThread(s, id) && r in HeldBy(s, id)
  }

  predicate WantsToWrite(s: State, id: ThreadID, r: Resource)
    requires IsThread(s, id)
  {
    var todo := ThreadOf(s, id).todo;
    todo != [] && todo[0] == Take(r, Exclusive)
  }

  predicate Writes(s: State, id: ThreadID, r: Resource)
    requires IsThread(s, id)
  {
    HeldAs(HeldBy(s, id), r, Exclusive)
  }

  /** A reader waits for writers that hold the lock and for writers that wait for it. */
  predicate Grantable(s: State, r: Resource, mode: Mode) {
    match mode
    case Exclusive => forall id :: id in Threads(s) && IsThread(s, id) ==> r !in HeldBy(s, id)
    case Shared => forall id :: id in Threads(s) && IsThread(s, id) ==> !Writes(s, id, r) && !WantsToWrite(s, id, r)
    case Token => r in s.capacity && |Holders(s, r)| < s.capacity[r]
  }

  predicate Joinable(task: Task) { forall w :: 0 <= w < |task.workers| ==> task.workers[w].todo == [] }

  predicate CanStep(s: State, id: ThreadID)
    requires IsThread(s, id)
  {
    var todo := ThreadOf(s, id).todo;
    todo != [] &&
    match todo[0]
    case Take(r, mode) => Grantable(s, r, mode)
    case Join => id.Main? ==> Joinable(s.tasks[id.t])
    case _ => true
  }

  /** The thread after its next operation. */
  function Advanced(thread: Thread): Thread
    requires thread.todo != []
  {
    match thread.todo[0]
    case Take(r, mode) => Thread(thread.todo[1..], thread.held[r := mode])
    case Give(r) => Thread(thread.todo[1..], thread.held - {r})
    case Fork(_) => Thread([Join] + thread.todo[1..], thread.held)
    case _ => Thread(thread.todo[1..], thread.held)
  }

  function Spawned(programs: seq<seq<Op>>): seq<Thread> {
    seq(|programs|, i requires 0 <= i < |programs| => Thread(programs[i], map[]))
  }

  /** What the next operation of an operation's own thread makes of its task. */
  function AdvancedTask(task: Task, current: nat): Task
    requires task.main.todo != []
  {
    var op := task.main.todo[0];
    Task(Advanced(task.main),
         if op.Fork? then Spawned(op.workers) else if op == Join then [] else task.workers,
         if op == Resolve then Some(current) else if op == Give(Runtime) then None else task.version)
  }

  function Next(s: State, id: ThreadID): State
    requires IsThread(s, id) && CanStep(s, id)
  {
    var task := s.tasks[id.t];
    if id.Main? then
      s.(tasks := s.tasks[id.t := AdvancedTask(task, s.current)],
         current := if task.main.todo[0] == Replace then s.current + 1 else s.current)
    else
      s.(tasks := s.tasks[id.t := task.(workers := task.workers[id.w := Advanced(task.workers[id.w])])])
  }

  // ---- what every reachable state satisfies ----

  predicate MainSound(task: Task) {
    var c := Context(task.main.held, task.version.Some?);
    if task.main.todo != [] && task.main.todo[0] == Join then Leads(c, task.main.todo[1..], NOTHING)
    else task.workers == [] && Leads(c, task.main.todo, NOTHING)
  }

  predicate WorkerSound(task: Task, worker: Thread) {
    Walks(task.main.held, Context(worker.held, task.version.Some?), worker.todo) && forall r :: r in worker.held ==> Above(task.main.held, r)
  }

  /** The rest of every thread's program is disciplined, and resolved targets are current. */
  predicate TaskSound(task: Task, current: nat) {
    && MainSound(task)
    && (forall w :: 0 <= w < |task.workers| ==> WorkerSound(task, task.workers[w]))
    && (task.version.Some? ==> HeldAs(task.main.held, Runtime, Shared) && task.version == Some(current))
  }

  predicate AllSound(s: State) {
    forall t :: 0 <= t < |s.tasks| ==> TaskSound(s.tasks[t], s.current)
  }

  predicate Separate(s: State, i: ThreadID, j: ThreadID, r: Resource)
    requires IsThread(s, i) && IsThread(s, j)
  {
    !IsSemaphore(r) && Writes(s, i, r) ==> r !in HeldBy(s, j)
  }

  /** A lock held by a writer is held by nobody else. */
  ghost predicate Exclusion(s: State) {
    forall i, j, r :: IsThread(s, i) && IsThread(s, j) && i != j ==> Separate(s, i, j, r)
  }

  lemma ThreadsAre(s: State, id: ThreadID)
    ensures id in Threads(s) <==> IsThread(s, id)
  {
  }

  lemma NeverJoinFirst(c: Context, todo: seq<Op>, end: Context)
    requires Leads(c, todo, end)
    ensures todo != [] ==> todo[0] != Join
  {
  }

  /** The context of a task's own thread. */
  function ContextOf(task: Task): Context { Context(task.main.held, task.version.Some?) }

  lemma AdvanceContext(task: Task, current: nat)
    requires task.main.todo != []
    ensures var n := AdvancedTask(task, current); var op := task.main.todo[0];
            && ContextOf(n) == (if op == Join || op.Fork? then ContextOf(task) else After(ContextOf(task), op))
            && n.main.todo == (if op.Fork? then [Join] + task.main.todo[1..] else task.main.todo[1..])
  {
  }

  lemma MainAdvances(task: Task, current: nat)
    requires MainSound(task) && task.main.todo != []
    ensures MainSound(AdvancedTask(task, current))
  {
    var op, rest := task.main.todo[0], task.main.todo[1..];
    AdvanceContext(task, current);
    if op == Join {
      NeverJoinFirst(ContextOf(task), rest, NOTHING);
    } else if op.Fork? {
      assert ([Join] + rest)[1..] == rest;
    } else {
      NeverJoinFirst(After(ContextOf(task), op), rest, NOTHING);
    }
  }

  lemma ForkedAreSound(task: Task, current: nat)
    requires MainSound(task) && task.main.todo != [] && task.main.todo[0].Fork?
    ensures var n := AdvancedTask(task, current);
            forall w :: 0 <= w < |n.workers| ==> WorkerSound(n, n.workers[w])
  {
    AdvanceContext(task, current);
    assert AllWalk(ContextOf(task), task.main.todo[0].workers);
  }

  lemma SoundAdvance(task: Task, current: nat)
    requires TaskSound(task, current) && task.main.todo != [] && task.main.todo[0] != Replace
    ensures TaskSound(AdvancedTask(task, current), current)
  {
    MainAdvances(task, current);
    if task.main.todo[0].Fork? {
      ForkedAreSound(task, current);
    }
    assert task.main.todo[0] != Join && !task.main.todo[0].Fork? ==> MainMay(ContextOf(task), task.main.todo[0]);
    hide MainSound;
  }

  lemma SoundReplace(task: Task, current: nat)
    requires TaskSound(task, current) && task.main.todo != [] && task.main.todo[0] == Replace
    ensures TaskSound(AdvancedTask(task, current), current + 1)
    ensures HeldAs(task.main.held, Runtime, Exclusive)
  {
    MainAdvances(task, current);
    assert MainMay(ContextOf(task), Replace);
    hide MainSound;
  }

  lemma SoundWorker(task: Task, current: nat, w: nat)
    requires TaskSound(task, current) && w < |task.workers| && task.workers[w].todo != []
    ensures TaskSound(task.(workers := task.workers[w := Advanced(task.workers[w])]), current)
  {
    var n := task.(workers := task.workers[w := Advanced(task.workers[w])]);
    assert WorkerSound(task, task.workers[w]);
    forall i | 0 <= i < |n.workers| ensures WorkerSound(n, n.workers[i]) {
      assert WorkerSound(task, task.workers[i]);
    }
  }

  lemma OthersStaySound(s: State, n: State, t: nat)
    requires AllSound(s) && t < |s.tasks| == |n.tasks| && TaskSound(n.tasks[t], n.current)
    requires forall i :: 0 <= i < |s.tasks| && i != t ==> n.tasks[i] == s.tasks[i]
    requires n.current == s.current || forall i :: 0 <= i < |s.tasks| && i != t ==> s.tasks[i].version.None?
    ensures AllSound(n)
  {
    forall i | 0 <= i < |n.tasks| ensures TaskSound(n.tasks[i], n.current) {
      if i != t {
        assert TaskSound(s.tasks[i], s.current);
      }
    }
  }

  /** Nobody else is in the middle of using the proxy set when it is replaced. */
  lemma ReplacedAlone(s: State, t: nat)
    requires AllSound(s) && Exclusion(s) && t < |s.tasks| && HeldAs(s.tasks[t].main.held, Runtime, Exclusive)
    ensures forall i :: 0 <= i < |s.tasks| && i != t ==> s.tasks[i].version.None?
  {
    forall i | 0 <= i < |s.tasks| && i != t ensures s.tasks[i].version.None? {
      assert TaskSound(s.tasks[i], s.current);
      assert IsThread(s, Main(t)) && IsThread(s, Main(i)) && Main(t) != Main(i);
      assert Separate(s, Main(t), Main(i), Runtime);
    }
  }

  lemma AllSoundStep(s: State, id: ThreadID)
    requires AllSound(s) && Exclusion(s) && IsThread(s, id) && CanStep(s, id)
    ensures AllSound(Next(s, id))
  {
    var task := s.tasks[id.t];
    assert TaskSound(task, s.current);
    hide Exclusion;
    match id
    case Main(t) =>
      if task.main.todo[0] == Replace {
        SoundReplace(task, s.current);
        ReplacedAlone(s, t);
      } else {
        SoundAdvance(task, s.current);
      }
    case Worker(t, w) => SoundWorker(task, s.current, w);
    hide TaskSound;
    OthersStaySound(s, Next(s, id), id.t);
  }

  function HeldAfter(held: Held, op: Op): Held {
    match op
    case Take(r, mode) => held[r := mode]
    case Give(r) => held - {r}
    case _ => held
  }

  /** What a thread takes next is above all that it and the operation that forked it hold. */
  lemma TakesInOrder(s: State, id: ThreadID)
    requires AllSound(s) && IsThread(s, id) && ThreadOf(s, id).todo != [] && ThreadOf(s, id).todo[0].Take?
    ensures var op := ThreadOf(s, id).todo[0];
            MayTake(HeldBy(s, id), op.r, op.mode) && (id.Worker? ==> Above(s.tasks[id.t].main.held, op.r))
  {
    assert TaskSound(s.tasks[id.t], s.current);
    if id.Worker? {
      assert WorkerSound(s.tasks[id.t], s.tasks[id.t].workers[id.w]);
    }
  }

  /** The threads of the next state that were not there before hold nothing, and only the thread
      that stepped holds more than before: what it took. */
  lemma HoldsLess(s: State, id: ThreadID, i: ThreadID)
    requires IsThread(s, id) && CanStep(s, id) && IsThread(Next(s, id), i)
    ensures i != id ==> (IsThread(s, i) && HeldBy(Next(s, id), i) == HeldBy(s, i)) || HeldBy(Next(s, id), i) == map[]
    ensures i == id ==> HeldBy(Next(s, id), id) == HeldAfter(HeldBy(s, id), ThreadOf(s, id).todo[0])
  {
  }

  lemma ExclusionStep(s: State, id: ThreadID)
    requires AllSound(s) && Exclusion(s) && IsThread(s, id) && CanStep(s, id)
    ensures Exclusion(Next(s, id))
  {
    var n := Next(s, id);
    forall i, j, r | IsThread(n, i) && IsThread(n, j) && i != j ensures Separate(n, i, j, r) {
      if !IsSemaphore(r) {
        SeparateAfter(s, id, i, j, r);
      }
    }
  }

  lemma GrantedApart(s: State, id: ThreadID, other: ThreadID)
    requires IsThread(s, id) && IsThread(s, other) && CanStep(s, id) && ThreadOf(s, id).todo[0].Take?
    ensures var op := ThreadOf(s, id).todo[0];
            && (op.mode == Exclusive ==> op.r !in HeldBy(s, other))
            && (op.mode == Shared ==> !Writes(s, other, op.r))
  {
    ThreadsAre(s, other);
  }

  /** A thread that takes what it may take stays apart from another one. */
  lemma TakerApart(taker: Held, other: Held, op: Op, r: Resource)
    requires !IsSemaphore(r) && !(HeldAs(taker, r, Exclusive) && r in other) && !(HeldAs(other, r, Exclusive) && r in taker)
    requires op.Take? ==> (op.mode == Token <==> IsSemaphore(op.r))
    requires op.Take? && op.mode == Exclusive ==> op.r !in other
    requires op.Take? && op.mode == Shared ==> !HeldAs(other, op.r, Exclusive)
    ensures !(HeldAs(HeldAfter(taker, op), r, Exclusive) && r in other) && !(HeldAs(other, r, Exclusive) && r in HeldAfter(taker, op))
  {
  }

  lemma StepperApart(s: State, id: ThreadID, other: ThreadID, r: Resource)
    requires AllSound(s) && Exclusion(s) && IsThread(s, id) && CanStep(s, id) && IsThread(s, other) && other != id && !IsSemaphore(r)
    ensures var held := HeldAfter(HeldBy(s, id), ThreadOf(s, id).todo[0]);
            !(HeldAs(held, r, Exclusive) && r in HeldBy(s, other)) && !(Writes(s, other, r) && r in held)
  {
    assert Separate(s, id, other, r) && Separate(s, other, id, r);
    if ThreadOf(s, id).todo[0].Take? {
      TakesInOrder(s, id);
      GrantedApart(s, id, other);
    }
    hide AllSound, Exclusion, CanStep;
    TakerApart(HeldBy(s, id), HeldBy(s, other), ThreadOf(s, id).todo[0], r);
  }

  lemma SeparateAfter(s: State, id: ThreadID, i: ThreadID, j: ThreadID, r: Resource)
    requires AllSound(s) && Exclusion(s) && IsThread(s, id) && CanStep(s, id) && i != j && !IsSemaphore(r)
    requires IsThread(Next(s, id), i) && IsThread(Next(s, id), j)
    ensures Separate(Next(s, id), i, j, r)
  {
    HoldsLess(s, id, i);
    HoldsLess(s, id, j);
    if IsThread(s, i) && IsThread(s, j) {
      assert Separate(s, i, j, r);
      if i == id {
        StepperApart(s, id, j, r);
      } else if j == id {
        StepperApart(s, id, i, r);
      }
    }
    hide AllSound, Exclusion, CanStep, Next;
  }

  ghost predicate Sound(s: State) {
    AllSound(s) && Exclusion(s) && forall r :: IsSemaphore(r) ==> r in s.capacity && s.capacity[r] > 0
  }

  /** A new operation starts, or a thread takes its next step if it can. */
  datatype Event = Arrive(program: seq<Op>) | Step(id: ThreadID)

  function Do(s: State, e: Event): State {
    match e
    case Arrive(program) =>
      if Leads(NOTHING, program, NOTHING) then s.(tasks := s.tasks + [Task(Thread(program, map[]), [], None)]) else s
    case Step(id) => if IsThread(s, id) && CanStep(s, id) then Next(s, id) else s
  }

  function Run(s: State, events: seq<Event>): State {
    if events == [] then s else Do(Run(s, events[..|events| - 1]), events[|events| - 1])
  }

  lemma ArriveIsSound(s: State, program: seq<Op>)
    requires Sound(s) && Leads(NOTHING, program, NOTHING)
    ensures Sound(Do(s, Arrive(program)))
  {
    var task := Task(Thread(program, map[]), [], None);
    var n := Do(s, Arrive(program));
    NeverJoinFirst(NOTHING, program, NOTHING);
    assert TaskSound(task, s.current);
    forall t | 0 <= t < |n.tasks| ensures TaskSound(n.tasks[t], n.current) {
      assert t < |s.tasks| ==> TaskSound(s.tasks[t], s.current);
    }
    forall i, j, r | IsThread(n, i) && IsThread(n, j) && i != j ensures Separate(n, i, j, r) {
      assert IsThread(s, i) && IsThread(s, j) ==> Separate(s, i, j, r);
    }
  }

  lemma DoIsSound(s: State, e: Event)
    requires Sound(s)
    ensures Sound(Do(s, e))
  {
    match e
    case Arrive(program) =>
      if Leads(NOTHING, program, NOTHING) {
        ArriveIsSound(s, program);
      }
    case Step(id) =>
      if IsThread(s, id) && CanStep(s, id) {
        AllSoundStep(s, id);
        ExclusionStep(s, id);
        hide AllSound, Exclusion;
      }
  }

  lemma {:induction false} RunIsSound(s: State, events: seq<Event>)
    requires Sound(s)
    ensures Sound(Run(s, events))
  {
    if events != [] {
      hide Sound, Do;
      RunIsSound(s, events[..|events| - 1]);
      DoIsSound(Run(s, events[..|events| - 1]), events[|events| - 1]);
    }
  }

  predicate AboutTo(s: State, id: ThreadID, op: Op) {
    IsThread(s, id) && ThreadOf(s, id).todo != [] && ThreadOf(s, id).todo[0] == op
  }

  function Idle(current: nat, capacity: map<Resource, nat>): State { State([], current, capacity) }

  ghost predicate Positive(capacity: map<Resource, nat>) {
    forall r :: IsSemaphore(r) ==> r in capacity && capacity[r] > 0
  }

  lemma IdleIsSound(current: nat, capacity: map<Resource, nat>)
    requires Positive(capacity)
    ensures Sound(Idle(current, capacity))
  {
  }

  /** Whatever operations run: whoever dials the local port of a binding has looked it up in the
      proxy set that is still current, and nobody restarts Xray or replaces the set meanwhile. */
  lemma UseIsCurrent(current: nat, capacity: map<Resource, nat>, events: seq<Event>, user: ThreadID)
    requires Positive(capacity) && AboutTo(Run(Idle(current, capacity), events), user, Use)
    ensures var s := Run(Idle(current, capacity), events);
            && s.tasks[user.t].version == Some(s.current)
            && forall other :: !AboutTo(s, other, Restart) && !AboutTo(s, other, Replace)
  {
    var s := Run(Idle(current, capacity), events);
    IdleIsSound(current, capacity);
    RunIsSound(Idle(current, capacity), events);
    hide Run;
    assert TaskSound(s.tasks[user.t], s.current);
    if user.Worker? {
      assert WorkerSound(s.tasks[user.t], s.tasks[user.t].workers[user.w]);
    }
    assert s.tasks[user.t].version.Some?;
    forall other | AboutTo(s, other, Restart) || AboutTo(s, other, Replace) ensures false {
      RestarterAlone(s, other, user.t);
    }
  }

  lemma WorkerOps(s: State, id: ThreadID)
    requires AllSound(s) && IsThread(s, id) && id.Worker? && ThreadOf(s, id).todo != []
    ensures var op := ThreadOf(s, id).todo[0]; op.Take? || op.Give? || op.Use?
  {
    assert TaskSound(s.tasks[id.t], s.current);
    assert WorkerSound(s.tasks[id.t], s.tasks[id.t].workers[id.w]);
  }

  /** Who restarts Xray or replaces the proxy set holds the runtime lock alone. */
  lemma RestarterAlone(s: State, other: ThreadID, t: nat)
    requires AllSound(s) && Exclusion(s) && t < |s.tasks| && (AboutTo(s, other, Restart) || AboutTo(s, other, Replace))
    ensures s.tasks[t].version.None?
  {
    assert TaskSound(s.tasks[other.t], s.current) && TaskSound(s.tasks[t], s.current);
    if other.Worker? {
      WorkerOps(s, other);
    } else {
      assert HeldAs(s.tasks[other.t].main.held, Runtime, Exclusive);
      assert IsThread(s, Main(t)) && IsThread(s, other);
      assert Main(t) != other ==> Separate(s, other, Main(t), Runtime);
    }
  }

  /** While Xray is restarted or the proxy set replaced, no operation has resolved targets: no check
      set, diagnosis or access check is between looking its bindings up and finishing with them. */
  lemma RestartExcludesChecks(current: nat, capacity: map<Resource, nat>, events: seq<Event>, restarter: ThreadID)
    requires Positive(capacity)
    requires AboutTo(Run(Idle(current, capacity), events), restarter, Restart) || AboutTo(Run(Idle(current, capacity), events), restarter, Replace)
    ensures forall t :: 0 <= t < |Run(Idle(current, capacity), events).tasks| ==> Run(Idle(current, capacity), events).tasks[t].version.None?
  {
    var s := Run(Idle(current, capacity), events);
    IdleIsSound(current, capacity);
    RunIsSound(Idle(current, capacity), events);
    hide Run;
    forall t | 0 <= t < |s.tasks| ensures s.tasks[t].version.None? {
      RestarterAlone(s, restarter, t);
    }
  }

  /** The step replaces the proxy set. */
  predicate Replaces(s: State, e: Event) {
    e.Step? && IsThread(s, e.id) && CanStep(s, e.id) && e.id.Main? && ThreadOf(s, e.id).todo[0] == Replace
  }

  function Replacements(s: State, events: seq<Event>): nat {
    if events == [] then 0
    else Replacements(s, events[..|events| - 1]) + (if Replaces(Run(s, events[..|events| - 1]), events[|events| - 1]) then 1 else 0)
  }

  /** The version of the proxy set counts its replacements, so that a set once replaced is never the
      current one again. */
  lemma {:induction false} VersionCounts(s: State, events: seq<Event>)
    ensures Run(s, events).current == s.current + Replacements(s, events)
  {
    if events != [] {
      VersionCounts(s, events[..|events| - 1]);
      hide Grantable, AdvancedTask, Leads;
    }
  }

  /** Resolving targets remembers the current version, and giving the runtime lock back forgets it. */
  lemma VersionTells(s: State, t: nat)
    requires IsThread(s, Main(t)) && CanStep(s, Main(t))
    ensures var op, n := s.tasks[t].main.todo[0], Next(s, Main(t));
            && (op == Resolve ==> n.tasks[t].version == Some(s.current))
            && (op == Give(Runtime) ==> n.tasks[t].version.None?)
            && (op != Resolve && op != Give(Runtime) ==> n.tasks[t].version == s.tasks[t].version)
  {
  }

  // ---- no deadlock ----

  ghost predicate SomeoneCan(s: State) {
    exists id :: IsThread(s, id) && CanStep(s, id)
  }

  /** The thread waits for a lock. */
  predicate Stuck(s: State, id: ThreadID) {
    IsThread(s, id) && ThreadOf(s, id).todo != [] && ThreadOf(s, id).todo[0].Take? && !CanStep(s, id)
  }

  function Wanted(s: State, id: ThreadID): Resource
    requires Stuck(s, id)
  {
    ThreadOf(s, id).todo[0].r
  }

  /** The lock is held by the other thread or by one that waits for the other thread to finish, or
      the other thread goes first because it wants to write. */
  predicate WaitsFor(s: State, id: ThreadID, other: ThreadID)
    requires Stuck(s, id) && IsThread(s, other)
  {
    || Wanted(s, id) in HeldBy(s, other)
    || WantsToWrite(s, other, Wanted(s, id))
    || (other.Worker? && IsThread(s, Main(other.t)) && Wanted(s, id) in HeldBy(s, Main(other.t)) && ThreadOf(s, Main(other.t)).todo != []
        && ThreadOf(s, Main(other.t)).todo[0] == Join)
  }

  /** Each thread waits for the next, the ranks of what they want rise, and the last one can go on. */
  ghost predicate RisingChain(s: State, chain: seq<ThreadID>) {
    && chain != [] && IsThread(s, chain[|chain| - 1]) && CanStep(s, chain[|chain| - 1])
    && (forall i :: 0 <= i < |chain| - 1 ==> Stuck(s, chain[i]))
    && (forall i :: 0 <= i < |chain| - 1 ==> WaitsFor(s, chain[i], chain[i + 1]))
    && (forall i :: 0 <= i < |chain| - 2 ==> Rank(Wanted(s, chain[i])) < Rank(Wanted(s, chain[i + 1])))
  }

  lemma ChainCons(s: State, id: ThreadID, chain: seq<ThreadID>)
    requires Stuck(s, id) && RisingChain(s, chain) && IsThread(s, chain[0]) && WaitsFor(s, id, chain[0])
    requires |chain| > 1 ==> Rank(Wanted(s, id)) < Rank(Wanted(s, chain[0]))
    ensures RisingChain(s, [id] + chain)
  {
    hide WaitsFor, Stuck, CanStep, Wanted;
  }

  /** A thread that holds something has something left to do. */
  lemma HolderUnfinished(s: State, id: ThreadID)
    requires AllSound(s) && IsThread(s, id) && HeldBy(s, id) != map[]
    ensures ThreadOf(s, id).todo != []
  {
    assert TaskSound(s.tasks[id.t], s.current);
    if id.Worker? {
      assert WorkerSound(s.tasks[id.t], s.tasks[id.t].workers[id.w]);
    }
  }

  /** When a lock is not granted, somebody holds it, or may take it for writing right now. */
  lemma SomebodyHolds(s: State, id: ThreadID) returns (other: ThreadID)
    requires Sound(s) && Stuck(s, id)
    ensures IsThread(s, other) && (Wanted(s, id) in HeldBy(s, other) || (WantsToWrite(s, other, Wanted(s, id)) && CanStep(s, other)))
  {
    var r, mode := ThreadOf(s, id).todo[0].r, ThreadOf(s, id).todo[0].mode;
    TakesInOrder(s, id);
    assert !Grantable(s, r, mode);
    match mode
    case Exclusive =>
      other :| other in Threads(s) && IsThread(s, other) && r in HeldBy(s, other);
    case Shared =>
      other :| other in Threads(s) && IsThread(s, other) && (Writes(s, other, r) || WantsToWrite(s, other, r));
      if !Writes(s, other, r) && !CanStep(s, other) {
        assert !Grantable(s, r, Exclusive);
        other :| other in Threads(s) && IsThread(s, other) && r in HeldBy(s, other);
      }
    case Token =>
      assert |Holders(s, r)| > 0;
      other :| other in Holders(s, r);
  }

  /** Workers only take, give and use. */
  lemma WorkerWaitsToTake(s: State, id: ThreadID)
    requires AllSound(s) && IsThread(s, id) && id.Worker? && ThreadOf(s, id).todo != [] && !CanStep(s, id)
    ensures ThreadOf(s, id).todo[0].Take?
  {
    assert TaskSound(s.tasks[id.t], s.current);
    assert WorkerSound(s.tasks[id.t], s.tasks[id.t].workers[id.w]);
  }

  /** A thread that waits for its workers has one that is not finished. */
  lemma UnfinishedWorker(s: State, id: ThreadID) returns (worker: ThreadID)
    requires AllSound(s) && IsThread(s, id) && ThreadOf(s, id).todo != [] && !CanStep(s, id) && !ThreadOf(s, id).todo[0].Take?
    ensures IsThread(s, worker) && worker.Worker? && worker.t == id.t && id.Main? && ThreadOf(s, worker).todo != [] && ThreadOf(s, id).todo[0] == Join
  {
    if id.Worker? {
      WorkerWaitsToTake(s, id);
    }
    var w :| 0 <= w < |s.tasks[id.t].workers| && s.tasks[id.t].workers[w].todo != [];
    worker := Worker(id.t, w);
  }

  /** A waiting thread is the start of a chain of rising ranks that ends at one that can go on. */
  lemma {:induction false} WaitEnds(s: State, id: ThreadID) returns (chain: seq<ThreadID>)
    requires Sound(s) && Stuck(s, id)
    ensures RisingChain(s, chain) && chain[0] == id && |chain| > 1
    decreases 10 - Rank(Wanted(s, id))
  {
    hide AllSound, Exclusion, CanStep, RisingChain;
    var other := SomebodyHolds(s, id);
    if CanStep(s, other) {
      Alone(s, other);
      ChainCons(s, id, [other]);
      chain := [id, other];
      assert chain == [id] + [other];
      return;
    }
    HolderUnfinished(s, other);
    if !ThreadOf(s, other).todo[0].Take? {
      other := UnfinishedWorker(s, other);
    }
    var rest := [other];
    if CanStep(s, other) {
      Alone(s, other);
    } else {
      if other.Worker? {
        WorkerWaitsToTake(s, other);
      }
      TakesInOrder(s, other);
      rest := WaitEnds(s, other);
    }
    ChainCons(s, id, rest);
    chain := [id] + rest;
  }

  lemma Alone(s: State, id: ThreadID)
    requires IsThread(s, id) && CanStep(s, id)
    ensures RisingChain(s, [id])
  {
  }

  /** No reachable state is stuck: while an operation is unfinished, some thread can go on. */
  lemma NeverStuck(current: nat, capacity: map<Resource, nat>, events: seq<Event>, unfinished: ThreadID)
    requires Positive(capacity) && IsThread(Run(Idle(current, capacity), events), unfinished)
    requires ThreadOf(Run(Idle(current, capacity), events), unfinished).todo != []
    ensures SomeoneCan(Run(Idle(current, capacity), events))
  {
    var s := Run(Idle(current, capacity), events);
    IdleIsSound(current, capacity);
    RunIsSound(Idle(current, capacity), events);
    hide Run;
    if !CanStep(s, unfinished) {
      if ThreadOf(s, unfinished).todo[0].Take? {
        var chain := WaitEnds(s, unfinished);
      } else {
        var worker := UnfinishedWorker(s, unfinished);
        if !CanStep(s, worker) {
          WorkerWaitsToTake(s, worker);
          var chain := WaitEnds(s, worker);
        }
      }
    }
  }

  // ---- the operations ----

  /** A list of operations takes a worker from one context to another. */
  predicate Segment(base: Held, c: Context, todo: seq<Op>, end: Context)
    decreases |todo|
  {
    if todo == [] then c == end
    else WorkerMay(base, c, todo[0]) && Segment(base, After(c, todo[0]), todo[1..], end)
  }

  lemma SegmentCons(base: Held, c: Context, op: Op, rest: seq<Op>, end: Context)
    requires WorkerMay(base, c, op) && Segment(base, After(c, op), rest, end)
    ensures Segment(base, c, [op] + rest, end)
  {
    assert ([op] + rest)[1..] == rest;
  }

  lemma LeadsCons(c: Context, op: Op, rest: seq<Op>, end: Context)
    requires MainMay(c, op) && Leads(After(c, op), rest, end)
    ensures Leads(c, [op] + rest, end)
  {
    assert ([op] + rest)[1..] == rest;
  }

  lemma {:induction false} SegmentOn(base: Held, c: Context, a: seq<Op>, middle: Context, b: seq<Op>, end: Context)
    requires Segment(base, c, a, middle) && Segment(base, middle, b, end)
    ensures Segment(base, c, a + b, end)
    decreases |a|
  {
    if a == [] {
      assert a + b == b;
    } else {
      SegmentOn(base, After(c, a[0]), a[1..], middle, b, end);
      SegmentCons(base, c, a[0], a[1..] + b, end);
      assert a + b == [a[0]] + (a[1..] + b);
    }
  }

  lemma {:induction false} SegmentWalks(base: Held, c: Context, todo: seq<Op>, end: Context)
    requires Segment(base, c, todo, end) && end.held == map[]
    ensures Walks(base, c, todo)
    decreases |todo|
  {
    if todo != [] {
      SegmentWalks(base, After(c, todo[0]), todo[1..], end);
    }
  }

  /** What a worker does, an operation's own thread may do. */
  lemma {:induction false} SegmentLeads(c: Context, todo: seq<Op>, end: Context)
    requires Segment(map[], c, todo, end)
    ensures Leads(c, todo, end)
    decreases |todo|
  {
    if todo != [] {
      SegmentLeads(After(c, todo[0]), todo[1..], end);
    }
  }

  /** A body between an acquisition and its release. */
  function Under(r: Resource, mode: Mode, body: seq<Op>): seq<Op> { [Take(r, mode)] + (body + [Give(r)]) }

  lemma UnderSegment(base: Held, c: Context, r: Resource, mode: Mode, body: seq<Op>)
    requires r !in c.held && r != Runtime && Above(base, r) && MayTake(c.held, r, mode)
    requires Segment(base, c.(held := c.held[r := mode]), body, c.(held := c.held[r := mode]))
    ensures Segment(base, c, Under(r, mode, body), c)
  {
    var inside := c.(held := c.held[r := mode]);
    assert inside.held - {r} == c.held;
    assert [Give(r)][1..] == [];
    assert Segment(base, After(inside, Give(r)), [], c);
    assert Segment(base, inside, [Give(r)], c);
    SegmentOn(base, inside, body, inside, [Give(r)], c);
    SegmentCons(base, c, Take(r, mode), body + [Give(r)], c);
  }

  lemma UnderLeads(h: Held, r: Resource, mode: Mode, body: seq<Op>, resolved: bool)
    requires r !in h && MayTake(h, r, mode) && (resolved ==> r == Runtime)
    requires Leads(Context(h[r := mode], false), body, Context(h[r := mode], resolved))
    ensures Leads(Context(h, false), Under(r, mode, body), Context(h, false))
  {
    var inside := Context(h[r := mode], resolved);
    assert inside.held - {r} == h;
    assert [Give(r)][1..] == [];
    assert Leads(After(inside, Give(r)), [], Context(h, false));
    assert Leads(inside, [Give(r)], Context(h, false));
    LeadsOn(Context(h[r := mode], false), body, inside, [Give(r)], Context(h, false));
    LeadsCons(Context(h, false), Take(r, mode), body + [Give(r)], Context(h, false));
  }

  /** One connection within the budget; without a budget there are no slots. */
  function InSlot(bounded: bool, body: seq<Op>): seq<Op> {
    if bounded then Under(Slots, Token, body) else body
  }

  /** A check of one binding. */
  function CheckOne(bounded: bool, key: nat): seq<Op> { Under(ProxyLock(key), Exclusive, InSlot(bounded, [Use])) }

  /** Connections of a diagnosis, `dials` of which use the local port of a binding. */
  function DiagnosticProbe(bounded: bool, dials: bool): seq<Op> {
    Under(Diagnostics, Token, InSlot(bounded, if dials then [Use] else []))
  }

  function DiagnoseOne(bounded: bool, key: nat): seq<Op> {
    Under(ProxyLock(key), Exclusive, DiagnosticProbe(bounded, true) + (DiagnosticProbe(bounded, true) + DiagnosticProbe(bounded, true)))
  }

  /** The evidence of a diagnosis for one binding. */
  function EvidenceOne(key: nat): seq<Op> { Under(ProxyLock(key), Exclusive, Under(Leaf(2), Exclusive, [])) }

  function EndpointProbe(bounded: bool): seq<Op> {
    Under(ProbeSemaphore, Token, InSlot(bounded, []) + InSlot(bounded, []))
  }

  /** One after another. */
  function Each(keys: seq<nat>, one: nat -> seq<Op>): seq<Op> {
    if keys == [] then [] else one(keys[0]) + Each(keys[1..], one)
  }

  lemma {:induction false} EachSegment(base: Held, c: Context, keys: seq<nat>, one: nat -> seq<Op>)
    requires forall k :: Segment(base, c, one(k), c)
    ensures Segment(base, c, Each(keys, one), c)
  {
    if keys != [] {
      EachSegment(base, c, keys[1..], one);
      SegmentOn(base, c, one(keys[0]), c, Each(keys[1..], one), c);
    }
  }

  lemma InSlotSegment(base: Held, c: Context, bounded: bool, body: seq<Op>)
    requires Slots !in c.held && Above(base, Slots) && Above(c.held, Slots)
    requires forall h: Held :: Segment(base, c.(held := h), body, c.(held := h))
    ensures Segment(base, c, InSlot(bounded, body), c)
  {
    if bounded {
      UnderSegment(base, c, Slots, Token, body);
    } else {
      assert Segment(base, c.(held := c.held), body, c.(held := c.held));
    }
  }

  lemma UseSegment(base: Held, held: Held)
    ensures Segment(base, Context(held, true), [Use], Context(held, true))
  {
    assert [Use][1..] == [];
    assert Segment(base, Context(held, true), [], Context(held, true));
  }

  lemma ProbeSegment(base: Held, c: Context, bounded: bool, dials: bool)
    requires Above(base, Slots) && Above(c.held, Slots) && (dials ==> c.resolved)
    ensures Segment(base, c, InSlot(bounded, if dials then [Use] else []), c)
  {
    if dials {
      forall h: Held ensures Segment(base, c.(held := h), [Use], c.(held := h)) {
        UseSegment(base, h);
      }
    }
    InSlotSegment(base, c, bounded, if dials then [Use] else []);
  }

  lemma CheckOneSegment(base: Held, bounded: bool, key: nat)
    requires Above(base, ProxyLock(key)) && Above(base, Slots)
    ensures Segment(base, Context(map[], true), CheckOne(bounded, key), Context(map[], true))
  {
    var c := Context(map[], true);
    ProbeSegment(base, c.(held := c.held[ProxyLock(key) := Exclusive]), bounded, true);
    UnderSegment(base, c, ProxyLock(key), Exclusive, InSlot(bounded, [Use]));
  }

  lemma DiagnosticProbeSegment(base: Held, c: Context, bounded: bool, dials: bool)
    requires Above(base, Diagnostics) && Above(base, Slots) && Above(c.held, Diagnostics) && (dials ==> c.resolved)
    ensures Segment(base, c, DiagnosticProbe(bounded, dials), c)
  {
    ProbeSegment(base, c.(held := c.held[Diagnostics := Token]), bounded, dials);
    UnderSegment(base, c, Diagnostics, Token, InSlot(bounded, if dials then [Use] else []));
  }

  lemma DiagnoseOneSegment(base: Held, bounded: bool, key: nat)
    requires Above(base, ProxyLock(key)) && Above(base, Diagnostics) && Above(base, Slots)
    ensures Segment(base, Context(map[], true), DiagnoseOne(bounded, key), Context(map[], true))
  {
    var c := Context(map[], true);
    var inside := c.(held := c.held[ProxyLock(key) := Exclusive]);
    var probe := DiagnosticProbe(bounded, true);
    DiagnosticProbeSegment(base, inside, bounded, true);
    SegmentOn(base, inside, probe, inside, probe, inside);
    SegmentOn(base, inside, probe, inside, probe + probe, inside);
    UnderSegment(base, c, ProxyLock(key), Exclusive, probe + (probe + probe));
  }

  lemma LeafSegment(base: Held, c: Context, name: nat)
    requires Above(base, Leaf(name)) && Above(c.held, Leaf(name))
    ensures Segment(base, c, Under(Leaf(name), Exclusive, []), c)
  {
    UnderSegment(base, c, Leaf(name), Exclusive, []);
  }

  lemma EndpointProbeSegment(bounded: bool)
    ensures Segment(map[], NOTHING, EndpointProbe(bounded), NOTHING)
  {
    var inside := NOTHING.(held := NOTHING.held[ProbeSemaphore := Token]);
    ProbeSegment(map[], inside, bounded, false);
    SegmentOn(map[], inside, InSlot(bounded, []), inside, InSlot(bounded, []), inside);
    UnderSegment(map[], NOTHING, ProbeSemaphore, Token, InSlot(bounded, []) + InSlot(bounded, []));
  }

  function OneCheck(bounded: bool): nat -> seq<Op> { (key: nat) => CheckOne(bounded, key) }

  function OneAttempt(bounded: bool): nat -> seq<Op> { (attempt: nat) => InSlot(bounded, [Use]) }

  /** runBoundedChecks: each worker checks the bindings that it gets, one after another. */
  function Checks(bounded: bool, groups: seq<seq<nat>>): seq<seq<Op>> {
    seq(|groups|, i requires 0 <= i < |groups| => Each(groups[i], OneCheck(bounded)))
  }

  /** Recording results and reports, and writing their snapshot, which holds one lock while it
      copies under another. */
  function Recorded(): seq<Op> {
    Under(Leaf(0), Exclusive, []) + (Under(Leaf(1), Exclusive, []) + SaveSnapshot())
  }

  function SaveSnapshot(): seq<Op> { Under(Persist, Exclusive, Under(Leaf(3), Shared, [])) }

  /** checkProxySetInRuntime, which is also checkProxySet with a manual reason. */
  function CheckSet(bounded: bool, groups: seq<seq<nat>>): seq<Op> {
    Under(Runtime, Shared, [Resolve] + ([Fork(Checks(bounded, groups))] + Recorded()))
  }

  /** CheckDueProxies, and checkProxySet with any other reason. */
  function CycleCheck(bounded: bool, groups: seq<seq<nat>>): seq<Op> { Under(CheckCycle, Exclusive, CheckSet(bounded, groups)) }

  /** WithManualPriority around a check. */
  function PriorityCheck(bounded: bool, groups: seq<seq<nat>>): seq<Op> { Under(ManualPriority, Exclusive, CheckSet(bounded, groups)) }

  /** WithChecksPaused around the restart and ApplyProxyUpdate. */
  function Reload(): seq<Op> { Under(CheckCycle, Exclusive, Under(Runtime, Exclusive, Restarted())) }

  function Restarted(): seq<Op> { [Restart] + ([Replace] + Recorded()) }

  /** subscriptionUpdater.Refresh when the subscription has changed. */
  function Refresh(bounded: bool, changed: seq<seq<nat>>, resolved: seq<seq<nat>>): seq<Op> {
    Under(Updater, Exclusive, Reload() + (CycleCheck(bounded, changed) + CycleCheck(bounded, resolved)))
  }

  /** replacementVerifier.Verify. */
  function Verify(bounded: bool, changed: seq<seq<nat>>, resolved: seq<seq<nat>>, target: nat): seq<Op> {
    Under(ManualPriority, Exclusive, Refresh(bounded, changed, resolved) + CheckSet(bounded, [[target]]))
  }

  /** A diagnosis from its begin on: the control request, the direct probes, the bindings and the
      evidence. */
  function Diagnose(bounded: bool, direct: nat, keys: seq<nat>): seq<Op> {
    Under(ManualPriority, Shared, Under(Leaf(1), Exclusive, []) + Execute(bounded, direct, keys))
  }

  /** executeNodeDiagnosis. */
  function Execute(bounded: bool, direct: nat, keys: seq<nat>): seq<Op> {
    Under(Runtime, Shared, [Resolve] + (DiagnosticProbe(bounded, false) +
      ([Fork(DirectProbes(bounded, direct))] + ([Fork(BindingProbes(bounded, keys))] + (Each(keys, EvidenceOne) + Recorded())))))
  }

  function DirectProbes(bounded: bool, direct: nat): seq<seq<Op>> { seq(direct, _ => DiagnosticProbe(bounded, false)) }

  function BindingProbes(bounded: bool, keys: seq<nat>): seq<seq<Op>> {
    seq(|keys|, i requires 0 <= i < |keys| => DiagnoseOne(bounded, keys[i]))
  }

  /** The VPN part of an access check: each route makes `attempts` connections. */
  function AccessCheck(bounded: bool, routes: nat, attempts: seq<nat>): seq<Op> {
    Under(Runtime, Shared, [Resolve] + [Fork(seq(routes, _ => Each(attempts, OneAttempt(bounded))))])
  }

  /** A round of TCP probes, which take no part in the runtime lock. */
  function ProbeRound(bounded: bool, targets: nat): seq<Op> {
    [Fork(seq(targets, _ => EndpointProbe(bounded)))] + Recorded()
  }

  lemma SaveSnapshotSegment(c: Context)
    requires Above(c.held, Persist)
    ensures Segment(map[], c, SaveSnapshot(), c)
  {
    var inside := c.(held := c.held[Persist := Exclusive]);
    UnderSegment(map[], inside, Leaf(3), Shared, []);
    UnderSegment(map[], c, Persist, Exclusive, Under(Leaf(3), Shared, []));
  }

  lemma RecordedLeads(c: Context)
    requires Above(c.held, Persist)
    ensures Leads(c, Recorded(), c)
  {
    LeafSegment(map[], c, 0);
    LeafSegment(map[], c, 1);
    SaveSnapshotSegment(c);
    SegmentOn(map[], c, Under(Leaf(1), Exclusive, []), c, SaveSnapshot(), c);
    SegmentOn(map[], c, Under(Leaf(0), Exclusive, []), c, Under(Leaf(1), Exclusive, []) + SaveSnapshot(), c);
    SegmentLeads(c, Recorded(), c);
  }

  lemma ForkLeads(c: Context, programs: seq<seq<Op>>)
    requires forall i :: 0 <= i < |programs| ==> Segment(c.held, Context(map[], c.resolved), programs[i], Context(map[], c.resolved))
    ensures Leads(c, [Fork(programs)], c)
  {
    forall i | 0 <= i < |programs| ensures Walks(c.held, Context(map[], c.resolved), programs[i]) {
      SegmentWalks(c.held, Context(map[], c.resolved), programs[i], Context(map[], c.resolved));
    }
    assert [Fork(programs)][1..] == [];
    assert Leads(c, [], c);
  }

  /** What the runtime lock is held with lies below it. */
  predicate BelowRuntime(h: Held) { Above(h, Runtime) }

  function WithRuntime(h: Held, resolved: bool): Context { Context(h[Runtime := Shared], resolved) }

  lemma ResolveLeads(h: Held)
    ensures Leads(WithRuntime(h, false), [Resolve], WithRuntime(h, true))
  {
    assert [Resolve][1..] == [];
    assert Leads(WithRuntime(h, true), [], WithRuntime(h, true));
  }

  lemma ChecksAreSegments(h: Held, bounded: bool, groups: seq<seq<nat>>, i: nat)
    requires BelowRuntime(h) && i < |Checks(bounded, groups)|
    ensures Segment(h[Runtime := Shared], Context(map[], true), Checks(bounded, groups)[i], Context(map[], true))
  {
    forall k: nat ensures Segment(h[Runtime := Shared], Context(map[], true), OneCheck(bounded)(k), Context(map[], true)) {
      CheckOneSegment(h[Runtime := Shared], bounded, k);
    }
    hide Segment;
    EachSegment(h[Runtime := Shared], Context(map[], true), groups[i], OneCheck(bounded));
  }

  lemma ResolvedChecksLead(h: Held, bounded: bool, groups: seq<seq<nat>>)
    requires BelowRuntime(h)
    ensures Leads(WithRuntime(h, false), [Resolve] + ([Fork(Checks(bounded, groups))] + Recorded()), WithRuntime(h, true))
  {
    var c := WithRuntime(h, true);
    var programs := Checks(bounded, groups);
    RecordedLeads(c);
    hide Segment, Leads, Checks, Recorded;
    forall i | 0 <= i < |programs| ensures Segment(c.held, Context(map[], true), programs[i], Context(map[], true)) {
      ChecksAreSegments(h, bounded, groups, i);
    }
    ForkLeads(c, programs);
    LeadsOn(c, [Fork(programs)], c, Recorded(), c);
    ResolveLeads(h);
    LeadsOn(WithRuntime(h, false), [Resolve], c, [Fork(programs)] + Recorded(), c);
  }

  lemma CheckSetLeads(h: Held, bounded: bool, groups: seq<seq<nat>>)
    requires BelowRuntime(h)
    ensures Leads(Context(h, false), CheckSet(bounded, groups), Context(h, false))
  {
    ResolvedChecksLead(h, bounded, groups);
    hide Leads, Checks, Recorded;
    UnderLeads(h, Runtime, Shared, [Resolve] + ([Fork(Checks(bounded, groups))] + Recorded()), true);
  }

  lemma CycleCheckLeads(h: Held, bounded: bool, groups: seq<seq<nat>>)
    requires Above(h, CheckCycle)
    ensures Leads(Context(h, false), CycleCheck(bounded, groups), Context(h, false))
  {
    CheckSetLeads(h[CheckCycle := Exclusive], bounded, groups);
    UnderLeads(h, CheckCycle, Exclusive, CheckSet(bounded, groups), false);
  }

  lemma RestartLeads(c: Context)
    requires HeldAs(c.held, Runtime, Exclusive) && Above(c.held, Persist)
    ensures Leads(c, Restarted(), c)
  {
    RecordedLeads(c);
    LeadsCons(c, Replace, Recorded(), c);
    LeadsCons(c, Restart, [Replace] + Recorded(), c);
  }

  lemma RestartUnderRuntime(h: Held)
    requires Above(h, Runtime) && Runtime !in h
    ensures Leads(Context(h, false), Under(Runtime, Exclusive, Restarted()), Context(h, false))
  {
    RestartLeads(Context(h[Runtime := Exclusive], false));
    hide Leads, Restarted, Under;
    UnderLeads(h, Runtime, Exclusive, Restarted(), false);
  }

  lemma ReloadLeads(h: Held)
    requires Above(h, CheckCycle)
    ensures Leads(Context(h, false), Reload(), Context(h, false))
  {
    var g := h[CheckCycle := Exclusive];
    RestartUnderRuntime(g);
    hide Leads, Restarted, Under;
    UnderLeads(h, CheckCycle, Exclusive, Under(Runtime, Exclusive, Restarted()), false);
  }

  lemma RefreshLeads(h: Held, bounded: bool, changed: seq<seq<nat>>, resolved: seq<seq<nat>>)
    requires Above(h, Updater)
    ensures Leads(Context(h, false), Refresh(bounded, changed, resolved), Context(h, false))
  {
    var g := h[Updater := Exclusive];
    var c := Context(g, false);
    ReloadLeads(g);
    CycleCheckLeads(g, bounded, changed);
    CycleCheckLeads(g, bounded, resolved);
    LeadsOn(c, CycleCheck(bounded, changed), c, CycleCheck(bounded, resolved), c);
    LeadsOn(c, Reload(), c, CycleCheck(bounded, changed) + CycleCheck(bounded, resolved), c);
    UnderLeads(h, Updater, Exclusive, Reload() + (CycleCheck(bounded, changed) + CycleCheck(bounded, resolved)), false);
  }

  lemma DirectLeads(c: Context, bounded: bool, direct: nat)
    requires Above(c.held, Diagnostics) && Above(c.held, Slots) && c.resolved
    ensures Leads(c, [Fork(DirectProbes(bounded, direct))], c)
    ensures Leads(c, DiagnosticProbe(bounded, false), c)
  {
    var programs := DirectProbes(bounded, direct);
    forall i | 0 <= i < |programs| ensures Segment(c.held, Context(map[], true), programs[i], Context(map[], true)) {
      DiagnosticProbeSegment(c.held, Context(map[], true), bounded, false);
    }
    ForkLeads(c, programs);
    DiagnosticProbeSegment(map[], c, bounded, false);
    SegmentLeads(c, DiagnosticProbe(bounded, false), c);
  }

  lemma BindingsLead(c: Context, bounded: bool, keys: seq<nat>)
    requires Above(c.held, Diagnostics) && Above(c.held, Slots) && c.resolved && forall k :: Above(c.held, ProxyLock(k))
    ensures Leads(c, [Fork(BindingProbes(bounded, keys))], c)
  {
    var programs := BindingProbes(bounded, keys);
    forall i | 0 <= i < |programs| ensures Segment(c.held, Context(map[], true), programs[i], Context(map[], true)) {
      assert Above(c.held, ProxyLock(keys[i]));
      DiagnoseOneSegment(c.held, bounded, keys[i]);
    }
    ForkLeads(c, programs);
  }

  lemma ExecuteLeads(h: Held, bounded: bool, direct: nat, keys: seq<nat>)
    requires BelowRuntime(h)
    ensures Leads(Context(h, false), Execute(bounded, direct, keys), Context(h, false))
  {
    var c := WithRuntime(h, true);
    forall k ensures Above(c.held, ProxyLock(k)) {
    }
    assert Above(c.held, Diagnostics) && Above(c.held, Slots) && Above(c.held, Persist);
    assert Runtime !in h && MayTake(h, Runtime, Shared);
    var direct1, direct2 := DiagnosticProbe(bounded, false), [Fork(DirectProbes(bounded, direct))];
    var bindings, evidence := [Fork(BindingProbes(bounded, keys))], Each(keys, EvidenceOne);
    DirectLeads(c, bounded, direct);
    BindingsLead(c, bounded, keys);
    EvidenceLeads(c, keys);
    RecordedLeads(c);
    ResolveLeads(h);
    hide Above, Leads, Each, Recorded, DirectProbes, BindingProbes, DiagnosticProbe, Under;
    LeadsOn(c, evidence, c, Recorded(), c);
    LeadsOn(c, bindings, c, evidence + Recorded(), c);
    LeadsOn(c, direct2, c, bindings + (evidence + Recorded()), c);
    LeadsOn(c, direct1, c, direct2 + (bindings + (evidence + Recorded())), c);
    LeadsOn(WithRuntime(h, false), [Resolve], c, direct1 + (direct2 + (bindings + (evidence + Recorded()))), c);
    UnderLeads(h, Runtime, Shared, [Resolve] + (direct1 + (direct2 + (bindings + (evidence + Recorded())))), true);
  }

  lemma DiagnoseLeads(bounded: bool, direct: nat, keys: seq<nat>)
    ensures Leads(NOTHING, Diagnose(bounded, direct, keys), NOTHING)
  {
    var h: Held := map[ManualPriority := Shared];
    var start, begin := Context(h, false), Under(Leaf(1), Exclusive, []);
    ExecuteLeads(h, bounded, direct, keys);
    LeafSegment(map[], start, 1);
    SegmentLeads(start, begin, start);
    LeadsOn(start, begin, start, Execute(bounded, direct, keys), start);
    assert map[][ManualPriority := Shared] == h;
    UnderLeads(map[], ManualPriority, Shared, begin + Execute(bounded, direct, keys), false);
  }

  lemma EvidenceLeads(c: Context, keys: seq<nat>)
    requires forall k :: Above(c.held, ProxyLock(k))
    ensures Leads(c, Each(keys, EvidenceOne), c)
  {
    forall k ensures Segment(map[], c, EvidenceOne(k), c) {
      assert Above(c.held, ProxyLock(k));
      LeafSegment(map[], c.(held := c.held[ProxyLock(k) := Exclusive]), 2);
      UnderSegment(map[], c, ProxyLock(k), Exclusive, Under(Leaf(2), Exclusive, []));
    }
    EachSegment(map[], c, keys, EvidenceOne);
    SegmentLeads(c, Each(keys, EvidenceOne), c);
  }

  lemma AccessCheckLeads(bounded: bool, routes: nat, attempts: seq<nat>)
    ensures Leads(NOTHING, AccessCheck(bounded, routes, attempts), NOTHING)
  {
    var c := WithRuntime(map[], true);
    var programs := seq(routes, _ => Each(attempts, OneAttempt(bounded)));
    forall i | 0 <= i < |programs| ensures Segment(c.held, Context(map[], true), programs[i], Context(map[], true)) {
      ProbeSegment(c.held, Context(map[], true), bounded, true);
      EachSegment(c.held, Context(map[], true), attempts, OneAttempt(bounded));
    }
    ForkLeads(c, programs);
    ResolveLeads(map[]);
    LeadsOn(WithRuntime(map[], false), [Resolve], c, [Fork(programs)], c);
    UnderLeads(map[], Runtime, Shared, [Resolve] + [Fork(programs)], true);
  }

  lemma ProbeRoundLeads(bounded: bool, targets: nat)
    ensures Leads(NOTHING, ProbeRound(bounded, targets), NOTHING)
  {
    var programs := seq(targets, _ => EndpointProbe(bounded));
    forall i | 0 <= i < |programs| ensures Segment(map[], NOTHING, programs[i], NOTHING) {
      EndpointProbeSegment(bounded);
    }
    ForkLeads(NOTHING, programs);
    RecordedLeads(NOTHING);
    LeadsOn(NOTHING, [Fork(programs)], NOTHING, Recorded(), NOTHING);
  }

  /** Every operation of the program acquires in rank order, resolves its targets under the runtime
      lock before it dials them, and restarts Xray only under its writer lock. */
  lemma OperationsObey(bounded: bool, groups: seq<seq<nat>>, others: seq<seq<nat>>, target: nat, keys: seq<nat>, count: nat)
    ensures Leads(NOTHING, CheckSet(bounded, groups), NOTHING)
    ensures Leads(NOTHING, CycleCheck(bounded, groups), NOTHING)
    ensures Leads(NOTHING, PriorityCheck(bounded, groups), NOTHING)
    ensures Leads(NOTHING, Refresh(bounded, groups, others), NOTHING)
    ensures Leads(NOTHING, Verify(bounded, groups, others, target), NOTHING)
    ensures Leads(NOTHING, Diagnose(bounded, count, keys), NOTHING)
    ensures Leads(NOTHING, AccessCheck(bounded, count, keys), NOTHING)
    ensures Leads(NOTHING, ProbeRound(bounded, count), NOTHING)
    ensures Leads(NOTHING, SaveSnapshot(), NOTHING)
  {
    var h: Held := map[ManualPriority := Exclusive];
    CheckSetLeads(map[], bounded, groups);
    CycleCheckLeads(map[], bounded, groups);
    CheckSetLeads(h, bounded, groups);
    UnderLeads(map[], ManualPriority, Exclusive, CheckSet(bounded, groups), false);
    RefreshLeads(map[], bounded, groups, others);
    RefreshLeads(h, bounded, groups, others);
    CheckSetLeads(h, bounded, [[target]]);
    LeadsOn(Context(h, false), Refresh(bounded, groups, others), Context(h, false), CheckSet(bounded, [[target]]), Context(h, false));
    UnderLeads(map[], ManualPriority, Exclusive, Refresh(bounded, groups, others) + CheckSet(bounded, [[target]]), false);
    DiagnoseLeads(bounded, count, keys);
    AccessCheckLeads(bounded, count, keys);
    ProbeRoundLeads(bounded, count);
    SaveSnapshotSegment(NOTHING);
    SegmentLeads(NOTHING, SaveSnapshot(), NOTHING);
  }
}
