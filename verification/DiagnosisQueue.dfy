/** The diagnosis queue of checker/diagnosis.go: a channel of nodes without duplicates, one worker
    that serves it, diagnoses started by hand beside it, and one diagnosis at a time.  Every
    critical section of diagnosisMu and every channel operation is one step. */
module DiagnosisQueue {
  type Node = string

  datatype Option<+T> = None | Some(value: T)

  datatype RunState = Queued | Running | Completed

  datatype Diagnosis = Diagnosis(id: nat, state: RunState)

  const QUEUE_SIZE: nat := 256
  const HISTORY_LIMIT: nat := 10

  /** Where the worker is: it has taken nothing, holds a queued node, has begun to diagnose it,
      has decided to skip it, or executes its diagnosis. */
  datatype Position = Free | Holding | Begun | Skipping | Executing

  datatype Worker = Worker(at: Position, node: Node, run: nat)

  /** Where the execution of a diagnosis is: it has been begun, has read its context, or has
      published its completed report. */
  datatype Stage = Fresh | Probing | Reported

  datatype Execution = Execution(node: Node, automatic: bool, stage: Stage, context: Option<nat>)

  /** The queue: diagnosisQueued, the goroutines that have entered a node there and are about to
      send it or to take it back, and the channel. */
  datatype Queue = Queue(queued: set<Node>, sending: multiset<Node>, dropping: multiset<Node>, channel: seq<Node>)

  /** diagnosisRunning, diagnosisContext and diagnosisAutomatic; a context is named by its diagnosis. */
  datatype Flight = Flight(running: bool, context: Option<nat>, automatic: bool)

  /** `reports` is diagnosisHistory and `all` everything ever appended to it; `stopping` are the
      contexts that cancelAutomaticDiagnosis is about to cancel, and `cancelled` those it has. */
  datatype State = State(queue: Queue, worker: Worker, flight: Flight, executions: map<nat, Execution>,
                         reports: map<Node, seq<Diagnosis>>, all: map<Node, seq<Diagnosis>>, nextRun: nat,
                         stopping: set<nat>, cancelled: set<nat>)

  /** What the attempt of the worker to begin comes to, apart from a diagnosis running already. */
  datatype Attempt = NotNeeded | Preempted | Missing | Go

  datatype Step =
    | Enqueue(node: Node)
    | Send(node: Node)
    | Drop(node: Node)
    | Receive
    | Try(attempt: Attempt)
    | FinishQueued
    | WorkerRests
    | StartByHand(node: Node)
    | ReadContext(run: nat)
    | Progress(run: nat)
    | Complete(run: nat)
    | Clear(run: nat)
    | PickForCancel
    | CancelPicked(run: nat)

  function ReportsOf(reports: map<Node, seq<Diagnosis>>, node: Node): seq<Diagnosis> {
    if node in reports then reports[node] else []
  }

  /** appendDiagnosisLocked. */
  function Appended(history: seq<Diagnosis>, d: Diagnosis): seq<Diagnosis> {
    var h := history + [d];
    if |h| > HISTORY_LIMIT then h[|h| - HISTORY_LIMIT..] else h
  }

  /** replaceDiagnosis: the newest report with that ID. */
  function Replaced(history: seq<Diagnosis>, d: Diagnosis): seq<Diagnosis> {
    if history == [] then []
    else if history[|history| - 1].id == d.id then history[..|history| - 1] + [d]
    else Replaced(history[..|history| - 1], d) + [history[|history| - 1]]
  }

  /** The critical section of beginNodeDiagnosis, when no diagnosis is running. */
  function Began(s: State, node: Node, automatic: bool): State {
    var run := s.nextRun;
    s.(flight := Flight(true, Some(run), automatic),
       executions := s.executions[run := Execution(node, automatic, Fresh, None)],
       reports := s.reports[node := Appended(ReportsOf(s.reports, node), Diagnosis(run, Queued))],
       all := s.all[node := ReportsOf(s.all, node) + [Diagnosis(run, Queued)]],
       nextRun := run + 1)
  }

  function Rewritten(s: State, run: nat, state: RunState): State
    requires run in s.executions
  {
    var node := s.executions[run].node;
    s.(reports := s.reports[node := Replaced(ReportsOf(s.reports, node), Diagnosis(run, state))],
       all := s.all[node := Replaced(ReportsOf(s.all, node), Diagnosis(run, state))])
  }

  /** The execution may proceed: a diagnosis of the worker waits until its node has left the queue. */
  predicate CanProceed(s: State, run: nat) {
    run in s.executions && !(s.worker.at == Begun && s.worker.run == run)
  }

  function QueueNext(q: Queue, a: Step): Queue {
    match a
    case Enqueue(node) =>
      if node in q.queued then q else q.(queued := q.queued + {node}, sending := q.sending + multiset{node})
    case Send(node) =>
      if node !in q.sending then q
      else if |q.channel| < QUEUE_SIZE then q.(sending := q.sending - multiset{node}, channel := q.channel + [node])
      else q.(sending := q.sending - multiset{node}, dropping := q.dropping + multiset{node})
    case Drop(node) =>
      if node !in q.dropping then q else q.(dropping := q.dropping - multiset{node}, queued := q.queued - {node})
    case _ => q
  }

  function WorkerNext(s: State, a: Step): State {
    var w := s.worker;
    match a
    case Receive =>
      if w.at != Free || s.queue.channel == [] then s
      else s.(worker := Worker(Holding, s.queue.channel[0], 0), queue := s.queue.(channel := s.queue.channel[1..]))
    case Try(attempt) =>
      if w.at != Holding || attempt == Preempted || (attempt == Go && s.flight.running) then s
      else if attempt == Go then Began(s, w.node, true).(worker := Worker(Begun, w.node, s.nextRun))
      else s.(worker := w.(at := Skipping))
    case FinishQueued =>
      if w.at == Skipping then s.(worker := w.(at := Free), queue := s.queue.(queued := s.queue.queued - {w.node}))
      else if w.at == Begun then s.(worker := w.(at := Executing), queue := s.queue.(queued := s.queue.queued - {w.node}))
      else s
    case WorkerRests =>
      if w.at == Executing && w.run !in s.executions then s.(worker := w.(at := Free)) else s
    case _ => s
  }

  function ExecutionNext(s: State, a: Step): State {
    match a
    case StartByHand(node) => if s.flight.running then s else Began(s, node, false)
    case ReadContext(run) =>
      if CanProceed(s, run) && s.executions[run].stage == Fresh then
        s.(executions := s.executions[run := s.executions[run].(stage := Probing, context := s.flight.context)])
      else s
    case Progress(run) =>
      if CanProceed(s, run) && s.executions[run].stage == Probing then Rewritten(s, run, Running) else s
    case Complete(run) =>
      if CanProceed(s, run) && s.executions[run].stage == Probing then
        Rewritten(s, run, Completed).(executions := s.executions[run := s.executions[run].(stage := Reported)])
      else s
    case Clear(run) =>
      if CanProceed(s, run) && s.executions[run].stage == Reported then
        s.(flight := Flight(false, None, false), executions := s.executions - {run},
           cancelled := if s.flight.context.Some? then s.cancelled + {s.flight.context.value} else s.cancelled)
      else s
    case PickForCancel =>
      if s.flight.automatic && s.flight.context.Some? then s.(stopping := s.stopping + {s.flight.context.value}) else s
    case CancelPicked(run) => if run in s.stopping then s.(cancelled := s.cancelled + {run}) else s
    case _ => s
  }

  function Next(s: State, a: Step): State {
    if a.Enqueue? || a.Send? || a.Drop? then s.(queue := QueueNext(s.queue, a))
    else if a.Receive? || a.Try? || a.FinishQueued? || a.WorkerRests? then WorkerNext(s, a)
    else ExecutionNext(s, a)
  }

  function Run(s: State, steps: seq<Step>): State {
    if steps == [] then s else Next(Run(s, steps[..|steps| - 1]), steps[|steps| - 1])
  }

  /** A fresh start: every report loaded from disk has been marked as completed. */
  predicate IsStart(s: State) {
    && s.queue == Queue({}, multiset{}, multiset{}, []) && s.worker == Worker(Free, "", 0)
    && s.flight == Flight(false, None, false) && s.executions == map[]
    && s.reports == s.all && s.stopping == {} && s.cancelled == {}
    && (forall node :: node in s.all ==> |s.all[node]| <= HISTORY_LIMIT && AllCompleted(s.all[node], s.nextRun))
  }

  predicate AllCompleted(h: seq<Diagnosis>, bound: nat) {
    forall i :: 0 <= i < |h| ==> h[i].state == Completed && h[i].id < bound
  }

  // ---- the queue ----

  /** The node that the worker has taken from the channel and that is still entered as queued. */
  function Held(w: Worker): multiset<Node> {
    if w.at == Holding || w.at == Begun || w.at == Skipping then multiset{w.node} else multiset{}
  }

  /** Every entry in diagnosisQueued stands for exactly one token: a goroutine about to send it or
      to take it back, a place in the channel, or the worker. */
  predicate TokensMatch(q: Queue, w: Worker) {
    q.sending + q.dropping + multiset(q.channel) + Held(w) == multiset(q.queued)
  }

  predicate QueueSafe(s: State) {
    TokensMatch(s.queue, s.worker) && |s.queue.channel| <= QUEUE_SIZE
  }

  lemma Leaves(queued: set<Node>, others: multiset<Node>, node: Node)
    requires others + multiset{node} == multiset(queued)
    ensures others == multiset(queued - {node})
  {
    assert multiset(queued)[node] >= 1;
    assert node in queued;
    forall n ensures others[n] == multiset(queued - {node})[n] {
      assert others[n] + multiset{node}[n] == multiset(queued)[n];
    }
  }

  lemma Enters(queued: set<Node>, others: multiset<Node>, node: Node)
    requires others == multiset(queued) && node !in queued
    ensures others + multiset{node} == multiset(queued + {node})
  {
  }

  lemma SendStep(q: Queue, w: Worker, node: Node)
    requires TokensMatch(q, w) && |q.channel| <= QUEUE_SIZE
    ensures TokensMatch(QueueNext(q, Send(node)), w) && |QueueNext(q, Send(node)).channel| <= QUEUE_SIZE
  {
    if node in q.sending {
      assert q.sending == q.sending - multiset{node} + multiset{node};
      assert multiset(q.channel + [node]) == multiset(q.channel) + multiset{node};
    }
  }

  lemma DropStep(q: Queue, w: Worker, node: Node)
    requires TokensMatch(q, w)
    ensures TokensMatch(QueueNext(q, Drop(node)), w)
  {
    if node in q.dropping {
      var rest := q.dropping - multiset{node};
      assert q.dropping == rest + multiset{node};
      Leaves(q.queued, q.sending + rest + multiset(q.channel) + Held(w), node);
    }
  }

  lemma EnqueueStep(q: Queue, w: Worker, node: Node)
    requires TokensMatch(q, w)
    ensures TokensMatch(QueueNext(q, Enqueue(node)), w)
  {
    if node !in q.queued {
      Enters(q.queued, q.sending + q.dropping + multiset(q.channel) + Held(w), node);
    }
  }

  lemma ReceiveStep(s: State)
    requires QueueSafe(s)
    ensures QueueSafe(WorkerNext(s, Receive))
  {
    var q := s.queue;
    if q.channel != [] {
      assert q.channel == [q.channel[0]] + q.channel[1..];
      assert multiset(q.channel) == multiset{q.channel[0]} + multiset(q.channel[1..]);
    }
  }

  lemma FinishQueuedStep(s: State)
    requires QueueSafe(s)
    ensures QueueSafe(WorkerNext(s, FinishQueued))
  {
    var q, w := s.queue, s.worker;
    if w.at == Skipping || w.at == Begun {
      Leaves(q.queued, q.sending + q.dropping + multiset(q.channel), w.node);
    }
  }

  lemma TryStep(s: State, attempt: Attempt)
    requires QueueSafe(s)
    ensures QueueSafe(WorkerNext(s, Try(attempt)))
  {
  }

  lemma QueueSafeStep(s: State, a: Step)
    requires QueueSafe(s)
    ensures QueueSafe(Next(s, a))
  {
    hide WorkerNext, ExecutionNext, QueueNext, TokensMatch;
    match a
    case Enqueue(node) => EnqueueStep(s.queue, s.worker, node); EnqueueChannel(s.queue, a);
    case Send(node) => SendStep(s.queue, s.worker, node);
    case Drop(node) => DropStep(s.queue, s.worker, node); EnqueueChannel(s.queue, a);
    case Receive => ReceiveStep(s);
    case Try(attempt) => TryStep(s, attempt);
    case FinishQueued => FinishQueuedStep(s);
    case WorkerRests => RestStep(s);
    case _ => QueueUntouched(s, a);
  }

  lemma EnqueueChannel(q: Queue, a: Step)
    requires !a.Send?
    ensures QueueNext(q, a).channel == q.channel
  {
  }

  lemma RestStep(s: State)
    requires QueueSafe(s)
    ensures QueueSafe(WorkerNext(s, WorkerRests))
  {
  }

  lemma QueueUntouched(s: State, a: Step)
    ensures ExecutionNext(s, a).queue == s.queue && ExecutionNext(s, a).worker == s.worker
  {
  }

  // ---- one diagnosis at a time ----

  /** A context may be cancelled only while it belongs to an automatic diagnosis, or when its
      diagnosis is over. */
  predicate Cancellable(s: State, id: nat) {
    id < s.nextRun && (id in s.executions ==> s.executions[id].automatic)
  }

  /** diagnosisRunning tells whether there is an execution; there is at most one, which reads
      its own context. */
  predicate OneFlight(s: State) {
    && s.flight.running == s.flight.context.Some?
    && s.executions.Keys == (if s.flight.context.Some? then {s.flight.context.value} else {})
    && (s.flight.context.None? ==> !s.flight.automatic)
    && (s.flight.context.Some? ==> Own(s, s.flight.context.value))
    && (s.worker.at == Begun ==> s.flight.context == Some(s.worker.run))
    && (forall id :: id in s.stopping ==> Cancellable(s, id))
    && (forall id :: id in s.cancelled ==> Cancellable(s, id))
  }

  predicate Own(s: State, run: nat) {
    && run < s.nextRun && run in s.executions
    && s.executions[run].automatic == s.flight.automatic
    && (s.executions[run].stage != Fresh ==> s.executions[run].context == Some(run))
  }

  lemma BeganIsOneFlight(s: State, node: Node, automatic: bool, n: State)
    requires OneFlight(s) && !s.flight.running
    requires n == Began(s, node, automatic).(worker := n.worker) && (n.worker.at == Begun ==> n.worker.run == s.nextRun)
    ensures OneFlight(n)
  {
    forall id | id in n.stopping ensures Cancellable(n, id) {
      assert Cancellable(s, id);
    }
    forall id | id in n.cancelled ensures Cancellable(n, id) {
      assert Cancellable(s, id);
    }
  }

  lemma WorkerOneFlight(s: State, a: Step)
    requires OneFlight(s)
    ensures OneFlight(WorkerNext(s, a))
  {
    if a.Try? && a.attempt == Go && s.worker.at == Holding && !s.flight.running {
      BeganIsOneFlight(s, s.worker.node, true, WorkerNext(s, a));
    } else {
      var n := WorkerNext(s, a);
      forall id | id in n.stopping ensures Cancellable(n, id) {
        assert Cancellable(s, id);
      }
      forall id | id in n.cancelled ensures Cancellable(n, id) {
        assert Cancellable(s, id);
      }
    }
  }

  lemma ExecutionOneFlight(s: State, a: Step)
    requires OneFlight(s)
    ensures OneFlight(ExecutionNext(s, a))
  {
    var n := ExecutionNext(s, a);
    if a.StartByHand? && !s.flight.running {
      BeganIsOneFlight(s, a.node, false, n);
    } else {
      forall id | id in n.stopping ensures Cancellable(n, id) {
        assert id in s.stopping ==> Cancellable(s, id);
      }
      forall id | id in n.cancelled ensures Cancellable(n, id) {
        assert id in s.cancelled ==> Cancellable(s, id);
        assert id in s.stopping ==> Cancellable(s, id);
      }
    }
  }

  lemma OneFlightStep(s: State, a: Step)
    requires OneFlight(s)
    ensures OneFlight(Next(s, a))
  {
    WorkerOneFlight(s, a);
    ExecutionOneFlight(s, a);
    hide WorkerNext, ExecutionNext, QueueNext;
    var n := Next(s, a);
    if n == s.(queue := QueueNext(s.queue, a)) {
      forall id | id in n.stopping ensures Cancellable(n, id) {
        assert Cancellable(s, id);
      }
      forall id | id in n.cancelled ensures Cancellable(n, id) {
        assert Cancellable(s, id);
      }
    }
  }

  // ---- the reports ----

  function Newest(h: seq<Diagnosis>): seq<Diagnosis> {
    if |h| > 10 then h[|h| - 10..] else h
  }

  lemma NewestAppended(h: seq<Diagnosis>, d: Diagnosis)
    ensures Appended(Newest(h), d) == Newest(h + [d])
  {
  }

  lemma NewestReplaced(h: seq<Diagnosis>, d: Diagnosis)
    requires h != [] && h[|h| - 1].id == d.id
    ensures Replaced(h, d) == h[..|h| - 1] + [d] && Newest(Replaced(h, d)) == Replaced(Newest(h), d)
  {
  }

  /** A report is completed unless it is the last one of its node, of an execution that has not
      published its end. */
  predicate CompletedAt(executions: map<nat, Execution>, node: Node, h: seq<Diagnosis>, i: nat)
    requires i < |h|
  {
    h[i].state == Completed ||
    (i == |h| - 1 && h[i].id in executions && executions[h[i].id].node == node && executions[h[i].id].stage != Reported)
  }

  /** The history of one node. */
  predicate NodeSafe(executions: map<nat, Execution>, node: Node, h: seq<Diagnosis>, kept: seq<Diagnosis>) {
    kept == Newest(h) && forall i :: 0 <= i < |h| ==> CompletedAt(executions, node, h, i)
  }

  /** An execution's report is the last one of its node. */
  predicate LastOf(s: State, run: nat)
    requires run in s.executions
  {
    var h := ReportsOf(s.all, s.executions[run].node);
    h != [] && h[|h| - 1].id == run
  }

  ghost predicate ReportsSafe(s: State) {
    && (forall node: Node :: NodeSafe(s.executions, node, ReportsOf(s.all, node), ReportsOf(s.reports, node)))
    && (forall run :: run in s.executions ==> LastOf(s, run))
  }

  lemma BeganIsSafe(s: State, node: Node, automatic: bool)
    requires ReportsSafe(s) && OneFlight(s) && !s.flight.running
    ensures ReportsSafe(Began(s, node, automatic))
  {
    var n := Began(s, node, automatic);
    forall m: Node ensures NodeSafe(n.executions, m, ReportsOf(n.all, m), ReportsOf(n.reports, m)) {
      assert NodeSafe(s.executions, m, ReportsOf(s.all, m), ReportsOf(s.reports, m));
      var h, h' := ReportsOf(s.all, m), ReportsOf(n.all, m);
      forall i | 0 <= i < |h| ensures h[i].state == Completed {
        assert CompletedAt(s.executions, m, h, i);
      }
      if m == node {
        NewestAppended(h, Diagnosis(s.nextRun, Queued));
        assert forall i :: 0 <= i < |h| ==> h'[i] == h[i];
      }
    }
  }

  lemma RewrittenAt(s: State, run: nat, state: RunState, m: Node)
    requires run in s.executions
    ensures var node, d := s.executions[run].node, Diagnosis(run, state);
            && ReportsOf(Rewritten(s, run, state).all, m) == (if m == node then Replaced(ReportsOf(s.all, m), d) else ReportsOf(s.all, m))
            && ReportsOf(Rewritten(s, run, state).reports, m) == (if m == node then Replaced(ReportsOf(s.reports, m), d) else ReportsOf(s.reports, m))
  {
  }

  lemma RewrittenKept(s: State, run: nat, state: RunState, m: Node)
    requires run in s.executions && LastOf(s, run) && ReportsOf(s.reports, m) == Newest(ReportsOf(s.all, m))
    ensures ReportsOf(Rewritten(s, run, state).reports, m) == Newest(ReportsOf(Rewritten(s, run, state).all, m))
  {
    RewrittenAt(s, run, state, m);
    NewestReplaced(ReportsOf(s.all, s.executions[run].node), Diagnosis(run, state));
    hide Rewritten, Newest, Replaced, ReportsOf;
  }

  lemma RewrittenNodeIsSafe(s: State, run: nat, state: RunState, after: map<nat, Execution>, m: Node)
    requires ReportsSafe(s) && run in s.executions && run in after
    requires after == s.executions[run := s.executions[run].(stage := after[run].stage)] && (state == Completed || after[run].stage != Reported)
    ensures NodeSafe(after, m, ReportsOf(Rewritten(s, run, state).all, m), ReportsOf(Rewritten(s, run, state).reports, m))
  {
    var node, d := s.executions[run].node, Diagnosis(run, state);
    var h := ReportsOf(s.all, m);
    assert LastOf(s, run) && NodeSafe(s.executions, m, h, ReportsOf(s.reports, m));
    RewrittenKept(s, run, state, m);
    RewrittenAt(s, run, state, m);
    if m == node {
      NewestReplaced(h, d);
    }
    hide Rewritten, ReportsSafe, Newest, Replaced, CompletedAt, ReportsOf, LastOf;
    RewrittenNode(s.executions, after, m, h, ReportsOf(Rewritten(s, run, state).all, m), run, d);
  }

  lemma RewrittenLast(s: State, run: nat, state: RunState, r: nat)
    requires ReportsSafe(s) && run in s.executions && r in s.executions
    ensures var h := ReportsOf(Rewritten(s, run, state).all, s.executions[r].node); h != [] && h[|h| - 1].id == r
  {
    var node, d := s.executions[run].node, Diagnosis(run, state);
    assert LastOf(s, run) && LastOf(s, r);
    RewrittenAt(s, run, state, s.executions[r].node);
    NewestReplaced(ReportsOf(s.all, node), d);
  }

  lemma RewrittenIsSafe(s: State, run: nat, state: RunState, stage: Stage, n: State)
    requires ReportsSafe(s) && run in s.executions
    requires n.all == Rewritten(s, run, state).all && n.reports == Rewritten(s, run, state).reports
    requires n.executions == s.executions[run := s.executions[run].(stage := stage)] && (state == Completed || stage != Reported)
    ensures ReportsSafe(n)
  {
    hide Rewritten, ReportsOf, Replaced;
    forall m: Node ensures NodeSafe(n.executions, m, ReportsOf(n.all, m), ReportsOf(n.reports, m)) {
      RewrittenNodeIsSafe(s, run, state, n.executions, m);
    }
    forall r | r in n.executions ensures LastOf(n, r) {
      RewrittenLast(s, run, state, r);
    }
  }

  lemma RewrittenNode(executions: map<nat, Execution>, after: map<nat, Execution>, m: Node, h: seq<Diagnosis>, h': seq<Diagnosis>,
                      run: nat, d: Diagnosis)
    requires run in executions && run in after && after == executions[run := executions[run].(stage := after[run].stage)]
    requires d.id == run && (d.state == Completed || after[run].stage != Reported)
    requires forall i :: 0 <= i < |h| ==> CompletedAt(executions, m, h, i)
    requires executions[run].node == m ==> h != [] && h[|h| - 1].id == run && h' == h[..|h| - 1] + [d]
    requires executions[run].node != m ==> h' == h
    ensures forall i :: 0 <= i < |h'| ==> CompletedAt(after, m, h', i)
  {
    forall i | 0 <= i < |h'| ensures CompletedAt(after, m, h', i) {
      assert CompletedAt(executions, m, h, i);
    }
  }

  lemma SameReports(s: State, n: State)
    requires ReportsSafe(s) && n.all == s.all && n.reports == s.reports && n.executions.Keys == s.executions.Keys
    requires forall run :: run in s.executions ==>
               n.executions[run].node == s.executions[run].node && (s.executions[run].stage != Reported ==> n.executions[run].stage != Reported)
    ensures ReportsSafe(n)
  {
    forall m: Node ensures NodeSafe(n.executions, m, ReportsOf(n.all, m), ReportsOf(n.reports, m)) {
      var h := ReportsOf(s.all, m);
      assert NodeSafe(s.executions, m, h, ReportsOf(s.reports, m));
      forall i | 0 <= i < |h| ensures CompletedAt(n.executions, m, h, i) {
        assert CompletedAt(s.executions, m, h, i);
      }
    }
    forall run | run in n.executions ensures LastOf(n, run) {
      assert LastOf(s, run);
    }
  }

  lemma ClearedIsSafe(s: State, run: nat)
    requires ReportsSafe(s) && OneFlight(s) && CanProceed(s, run) && s.executions[run].stage == Reported
    ensures ReportsSafe(ExecutionNext(s, Clear(run)))
  {
    var n := ExecutionNext(s, Clear(run));
    forall m: Node ensures NodeSafe(n.executions, m, ReportsOf(n.all, m), ReportsOf(n.reports, m)) {
      var h := ReportsOf(s.all, m);
      assert NodeSafe(s.executions, m, h, ReportsOf(s.reports, m));
      forall i | 0 <= i < |h| ensures CompletedAt(n.executions, m, h, i) {
        assert CompletedAt(s.executions, m, h, i);
      }
    }
  }

  /** The worker changes reports only by beginning a diagnosis. */
  lemma WorkerFrame(s: State, a: Step)
    ensures var n := WorkerNext(s, a);
            if a.Try? && a.attempt == Go && s.worker.at == Holding && !s.flight.running then
              var b := Began(s, s.worker.node, true); n == b.(worker := n.worker)
            else n == s.(worker := n.worker, queue := n.queue)
  {
  }

  lemma WorkerReports(s: State, a: Step)
    requires ReportsSafe(s) && OneFlight(s)
    ensures ReportsSafe(WorkerNext(s, a))
  {
    var n := WorkerNext(s, a);
    WorkerFrame(s, a);
    hide WorkerNext, OneFlight, ReportsSafe, Began;
    if a.Try? && a.attempt == Go && s.worker.at == Holding && !s.flight.running {
      BeganIsSafe(s, s.worker.node, true);
      SameReports(Began(s, s.worker.node, true), n);
    } else {
      SameReports(s, n);
    }
  }

  lemma ProgressReports(s: State, run: nat)
    requires ReportsSafe(s) && OneFlight(s)
    ensures ReportsSafe(ExecutionNext(s, Progress(run)))
  {
    var n := ExecutionNext(s, Progress(run));
    hide ReportsSafe, OneFlight, Rewritten;
    if n != s {
      assert s.executions == s.executions[run := s.executions[run].(stage := Probing)];
      RewrittenKeepsExecutions(s, run, Running);
      RewrittenIsSafe(s, run, Running, Probing, n);
    }
  }

  lemma CompleteReports(s: State, run: nat)
    requires ReportsSafe(s) && OneFlight(s)
    ensures ReportsSafe(ExecutionNext(s, Complete(run)))
  {
    var n := ExecutionNext(s, Complete(run));
    hide ReportsSafe, OneFlight, Rewritten;
    if n != s {
      RewrittenIsSafe(s, run, Completed, Reported, n);
    }
  }

  lemma RewrittenKeepsExecutions(s: State, run: nat, state: RunState)
    requires run in s.executions
    ensures Rewritten(s, run, state).executions == s.executions
  {
  }

  lemma ReadReports(s: State, a: Step)
    requires ReportsSafe(s) && !a.StartByHand? && !a.Progress? && !a.Complete? && !a.Clear?
    ensures ReportsSafe(ExecutionNext(s, a))
  {
    hide ReportsSafe;
    SameReports(s, ExecutionNext(s, a));
  }

  lemma ExecutionReports(s: State, a: Step)
    requires ReportsSafe(s) && OneFlight(s)
    ensures ReportsSafe(ExecutionNext(s, a))
  {
    hide ReportsSafe, OneFlight;
    match a
    case StartByHand(node) =>
      if !s.flight.running {
        BeganIsSafe(s, node, false);
      }
    case Progress(run) => ProgressReports(s, run);
    case Complete(run) => CompleteReports(s, run);
    case Clear(run) =>
      if ExecutionNext(s, a) != s {
        ClearedIsSafe(s, run);
      }
    case _ => ReadReports(s, a);
  }

  lemma ReportsStep(s: State, a: Step)
    requires ReportsSafe(s) && OneFlight(s)
    ensures ReportsSafe(Next(s, a))
  {
    WorkerReports(s, a);
    ExecutionReports(s, a);
    SameReports(s, s.(queue := QueueNext(s.queue, a)));
    hide WorkerNext, ExecutionNext, QueueNext, ReportsSafe;
  }

  // ---- main results ----

  ghost predicate Safe(s: State) { QueueSafe(s) && OneFlight(s) && ReportsSafe(s) }

  lemma StartIsSafe(s: State)
    requires IsStart(s)
    ensures Safe(s)
  {
    forall node: Node ensures NodeSafe(s.executions, node, ReportsOf(s.all, node), ReportsOf(s.reports, node)) {
    }
  }

  lemma {:induction false} RunIsSafe(s: State, steps: seq<Step>)
    requires IsStart(s)
    ensures Safe(Run(s, steps))
  {
    if steps == [] {
      StartIsSafe(s);
    } else {
      RunIsSafe(s, steps[..|steps| - 1]);
      var before, a := Run(s, steps[..|steps| - 1]), steps[|steps| - 1];
      hide QueueSafe, OneFlight, ReportsSafe, Next;
      QueueSafeStep(before, a);
      OneFlightStep(before, a);
      ReportsStep(before, a);
    }
  }

  /** The channel never holds a node twice nor more than it can, and every node in it, with a
      goroutine or with the worker is entered in diagnosisQueued, once. */
  lemma QueuedOnce(start: State, steps: seq<Step>, node: Node)
    requires IsStart(start)
    ensures var s := Run(start, steps);
            && |s.queue.channel| <= 256
            && multiset(s.queue.channel)[node] + s.queue.sending[node] + s.queue.dropping[node] + Held(s.worker)[node]
               == (if node in s.queue.queued then 1 else 0)
  {
    var s := Run(start, steps);
    RunIsSafe(start, steps);
    assert multiset(s.queue.queued)[node] == if node in s.queue.queued then 1 else 0;
  }

  /** In every reachable state at most one report is not completed, it is the last one of its node,
      and it exists only while diagnosisRunning. */
  lemma SingleFlight(start: State, steps: seq<Step>, m: Node, i: nat, n: Node, j: nat)
    requires IsStart(start)
    requires i < |ReportsOf(Run(start, steps).all, m)| && ReportsOf(Run(start, steps).all, m)[i].state != Completed
    requires j < |ReportsOf(Run(start, steps).all, n)| && ReportsOf(Run(start, steps).all, n)[j].state != Completed
    ensures m == n && i == j == |ReportsOf(Run(start, steps).all, m)| - 1 && Run(start, steps).flight.running
  {
    var s := Run(start, steps);
    RunIsSafe(start, steps);
    assert NodeSafe(s.executions, m, ReportsOf(s.all, m), ReportsOf(s.reports, m));
    assert NodeSafe(s.executions, n, ReportsOf(s.all, n), ReportsOf(s.reports, n));
    assert CompletedAt(s.executions, m, ReportsOf(s.all, m), i);
    assert CompletedAt(s.executions, n, ReportsOf(s.all, n), j);
  }

  /** The kept history of a node is the last ten of its diagnoses, each in its latest state. */
  lemma HistoryIsNewest(start: State, steps: seq<Step>, node: Node)
    requires IsStart(start)
    ensures ReportsOf(Run(start, steps).reports, node) == Newest(ReportsOf(Run(start, steps).all, node))
    ensures |ReportsOf(Run(start, steps).reports, node)| <= 10
  {
    RunIsSafe(start, steps);
    assert NodeSafe(Run(start, steps).executions, node, ReportsOf(Run(start, steps).all, node), ReportsOf(Run(start, steps).reports, node));
  }

  /** An execution reads the context made for it, and while it is under way its context is
      cancelled only if it is an automatic one. */
  lemma OwnContext(start: State, steps: seq<Step>, run: nat)
    requires IsStart(start) && run in Run(start, steps).executions
    ensures var s := Run(start, steps);
            && s.flight.context == Some(run)
            && (s.executions[run].stage != Fresh ==> s.executions[run].context == Some(run))
            && (run in s.cancelled ==> s.executions[run].automatic)
  {
    RunIsSafe(start, steps);
    var s := Run(start, steps);
    assert run in s.cancelled ==> Cancellable(s, run);
  }

  // ---- what becomes of a node in the queue ----

  /** The nodes that the steps of a run put into the channel: those sent while it had room. */
  function Sent(start: State, steps: seq<Step>): seq<Node> {
    if steps == [] then []
    else
      var s, a := Run(start, steps[..|steps| - 1]), steps[|steps| - 1];
      Sent(start, steps[..|steps| - 1]) +
      (if a.Send? && a.node in s.queue.sending && |s.queue.channel| < 256 then [a.node] else [])
  }

  /** The nodes that the worker held one after the other. */
  function Taken(start: State, steps: seq<Step>): seq<Node> {
    if steps == [] then []
    else
      var s, a := Run(start, steps[..|steps| - 1]), steps[|steps| - 1];
      Taken(start, steps[..|steps| - 1]) +
      (if s.worker.at == Free && Next(s, a).worker.at == Holding then [Next(s, a).worker.node] else [])
  }

  predicate Puts(s: State, a: Step) { a.Send? && a.node in s.queue.sending && |s.queue.channel| < 256 }

  /** A step changes the channel only by putting a node at its end or by giving its first one to the
      worker. */
  lemma ChannelStep(s: State, a: Step)
    ensures var n := Next(s, a);
            if Puts(s, a) then n.queue.channel == s.queue.channel + [a.node] && n.worker == s.worker
            else if s.worker.at == Free && n.worker.at == Holding then s.queue.channel == [n.worker.node] + n.queue.channel
            else n.queue.channel == s.queue.channel
  {
    if a.Receive? && s.queue.channel != [] {
      assert s.queue.channel == [s.queue.channel[0]] + s.queue.channel[1..];
    }
  }

  /** The channel is first in, first out: the worker takes the nodes in the order in which they were
      sent, and the channel holds those that it has not taken yet. */
  lemma {:induction false} TakenInOrder(start: State, steps: seq<Step>)
    requires IsStart(start)
    ensures Sent(start, steps) == Taken(start, steps) + Run(start, steps).queue.channel
  {
    if steps != [] {
      var rest, a := steps[..|steps| - 1], steps[|steps| - 1];
      TakenInOrder(start, rest);
      ChannelStep(Run(start, rest), a);
      hide Next, Run, IsStart;
    }
  }

  /** What a step does to the entry of a node. */
  predicate EntryStep(s: State, a: Step, n: State, node: Node) {
    && (a == Enqueue(node) ==> node in n.queue.queued)
    && (n.queue.sending[node] > s.queue.sending[node] ==> a == Enqueue(node) && node !in s.queue.queued)
    && (n.queue.dropping[node] > s.queue.dropping[node] ==> a == Send(node) && |s.queue.channel| >= 256)
    && (node in s.queue.queued && node !in n.queue.queued ==>
          (a == Drop(node) && node in s.queue.dropping) ||
          (a == FinishQueued && s.worker.node == node && (s.worker.at == Begun || s.worker.at == Skipping)))
  }

  lemma EntryInQueue(s: State, a: Step, node: Node)
    requires a.Enqueue? || a.Send? || a.Drop?
    ensures EntryStep(s, a, s.(queue := QueueNext(s.queue, a)), node)
  {
  }

  lemma EntryAtWorker(s: State, a: Step, node: Node)
    requires !a.Enqueue? && !a.Send? && !a.Drop?
    ensures EntryStep(s, a, WorkerNext(s, a), node)
  {
  }

  /** A node is entered as queued once; it leaves the entry only when its send finds the channel full,
      or when the worker begins to diagnose it or finds nothing to do. */
  lemma EntryLasts(start: State, steps: seq<Step>, a: Step, node: Node)
    requires IsStart(start)
    ensures var s := Run(start, steps);
            && EntryStep(s, a, Next(s, a), node)
            && (Next(s, a).queue.dropping[node] > s.queue.dropping[node] ==> |s.queue.channel| == 256)
  {
    var s := Run(start, steps);
    RunIsSafe(start, steps);
    hide Run, IsStart, OneFlight, ReportsSafe, QueueNext, WorkerNext, ExecutionNext;
    QueueUntouched(s, a);
    if a.Enqueue? || a.Send? || a.Drop? {
      EntryInQueue(s, a, node);
    } else {
      EntryAtWorker(s, a, node);
    }
  }

  /** A goroutine can always finish: its node goes to the end of the channel, or the entry is taken back. */
  lemma SendEnds(s: State, node: Node)
    requires QueueSafe(s) && node in s.queue.sending
    ensures var n := Run(s, [Send(node), Drop(node)]);
            && n.queue.sending == s.queue.sending - multiset{node}
            && (|s.queue.channel| < 256 && node !in s.queue.dropping ==>
                  n.queue.channel == s.queue.channel + [node] && n.queue.queued == s.queue.queued)
            && (|s.queue.channel| == 256 ==> n.queue.channel == s.queue.channel && n.queue.queued == s.queue.queued - {node})
  {
    var one, two := [Send(node)], [Send(node), Drop(node)];
    assert two[..1] == one && one[..0] == [];
    assert Run(s, one) == Next(Run(s, []), Send(node));
    assert Run(s, two) == Next(Run(s, one), Drop(node));
    hide Run;
  }

  // ---- a diagnosis from its beginning to its end ----

  /** Whoever begins a diagnosis while none is running adds its report, and owns the flight. */
  lemma BeginTells(s: State, a: Step, node: Node)
    requires !s.flight.running && (a == StartByHand(node) || (a == Try(Go) && s.worker.at == Holding && s.worker.node == node))
    ensures var n := Next(s, a);
            && n.flight == Flight(true, Some(s.nextRun), a.Try?)
            && ReportsOf(n.all, node) == ReportsOf(s.all, node) + [Diagnosis(s.nextRun, Queued)]
            && s.nextRun in n.executions && n.executions[s.nextRun] == Execution(node, a.Try?, Fresh, None)
            && (a.Try? ==> n.worker == Worker(Begun, node, s.nextRun))
            && (a.StartByHand? ==> n.worker == s.worker)
  {
  }

  /** While one is running, nobody begins another, and the worker keeps its node and tries again. */
  lemma BusyTells(s: State, node: Node)
    requires s.flight.running
    ensures Next(s, StartByHand(node)) == s && Next(s, Try(Go)) == s
  {
  }

  /** The execution may go on from this stage, and its report is the last one of `h`. */
  predicate Stands(s: State, run: nat, stage: Stage, node: Node, h: seq<Diagnosis>) {
    && CanProceed(s, run) && s.executions[run].stage == stage && s.executions[run].node == node
    && ReportsOf(s.all, node) == h && h != [] && h[|h| - 1].id == run
  }

  /** The reports of the other nodes stay. */
  ghost predicate OthersKept(s: State, n: State, node: Node) {
    forall m :: m != node ==> ReportsOf(n.all, m) == ReportsOf(s.all, m)
  }

  lemma ReadTells(s: State, run: nat, node: Node, h: seq<Diagnosis>)
    requires Stands(s, run, Fresh, node, h)
    ensures var n := Next(s, ReadContext(run)); Stands(n, run, Probing, node, h) && OthersKept(s, n, node)
  {
  }

  lemma ProgressTells(s: State, run: nat, node: Node, h: seq<Diagnosis>)
    requires Stands(s, run, Probing, node, h)
    ensures var n := Next(s, Progress(run));
            Stands(n, run, Probing, node, h[..|h| - 1] + [Diagnosis(run, Running)]) && OthersKept(s, n, node)
  {
    Rewrites(s, run, Running);
    hide Rewritten, ReportsOf;
  }

  lemma CompleteTells(s: State, run: nat, node: Node, h: seq<Diagnosis>)
    requires Stands(s, run, Probing, node, h)
    ensures var n := Next(s, Complete(run));
            Stands(n, run, Reported, node, h[..|h| - 1] + [Diagnosis(run, Completed)]) && OthersKept(s, n, node)
  {
    Rewrites(s, run, Completed);
    hide Rewritten, ReportsOf;
  }

  lemma ClearTells(s: State, run: nat, node: Node, h: seq<Diagnosis>)
    requires Stands(s, run, Reported, node, h)
    ensures var n := Next(s, Clear(run));
            && run !in n.executions && n.flight == Flight(false, None, false) && ReportsOf(n.all, node) == h && OthersKept(s, n, node)
  {
  }

  /** Undisturbed, an execution reads its context, reports that it is running and then that it is
      completed, and clears the flight. */
  lemma ExecutionEnds(s: State, run: nat)
    requires ReportsSafe(s) && CanProceed(s, run) && s.executions[run].stage == Fresh
    ensures var n := Run(s, [ReadContext(run), Progress(run), Complete(run), Clear(run)]); var node := s.executions[run].node;
            && run !in n.executions && n.flight == Flight(false, None, false)
            && ReportsOf(s.all, node) != []
            && ReportsOf(n.all, node) == ReportsOf(s.all, node)[..|ReportsOf(s.all, node)| - 1] + [Diagnosis(run, Completed)]
            && OthersKept(s, n, node)
  {
    var node := s.executions[run].node;
    var h := ReportsOf(s.all, node);
    assert LastOf(s, run);
    assert Stands(s, run, Fresh, node, h);
    hide Stands, Next, Run, ReportsSafe;
    RunSteps(s, run);
    ReadTells(s, run, node, h);
    var a := Next(s, ReadContext(run));
    ProgressTells(a, run, node, h);
    var b := Next(a, Progress(run));
    var running := h[..|h| - 1] + [Diagnosis(run, Running)];
    assert running[..|running| - 1] == h[..|h| - 1];
    CompleteTells(b, run, node, running);
    var c := Next(b, Complete(run));
    ClearTells(c, run, node, h[..|h| - 1] + [Diagnosis(run, Completed)]);
  }

  lemma Rewrites(s: State, run: nat, state: RunState)
    requires run in s.executions && LastOf(s, run)
    ensures var n, node := Rewritten(s, run, state), s.executions[run].node; var h := ReportsOf(s.all, node);
            && ReportsOf(n.all, node) == h[..|h| - 1] + [Diagnosis(run, state)]
            && (forall m :: m != node ==> ReportsOf(n.all, m) == ReportsOf(s.all, m))
            && n.executions == s.executions && n.worker == s.worker && n.flight == s.flight
  {
    NewestReplaced(ReportsOf(s.all, s.executions[run].node), Diagnosis(run, state));
    hide Replaced;
  }

  lemma RunSteps(s: State, run: nat)
    ensures Run(s, [ReadContext(run), Progress(run), Complete(run), Clear(run)]) ==
            Next(Next(Next(Next(s, ReadContext(run)), Progress(run)), Complete(run)), Clear(run))
  {
    hide Next;
    var four := [ReadContext(run), Progress(run), Complete(run), Clear(run)];
    var three, two, one := four[..3], four[..2], four[..1];
    assert three[..2] == two && two[..1] == one && one[..0] == [];
    assert Run(s, one) == Next(Run(s, []), four[0]);
    assert Run(s, two) == Next(Run(s, one), four[1]);
    assert Run(s, three) == Next(Run(s, two), four[2]);
  }

  /** What the worker does with a node it holds: it tries again while a diagnosis runs or checks have
      priority, and gives the node up, with its entry, if there is nothing to diagnose. */
  lemma WorkerTells(s: State, attempt: Attempt)
    requires s.worker.at == Holding
    ensures attempt == Preempted || (attempt == Go && s.flight.running) ==> Next(s, Try(attempt)) == s
    ensures attempt == NotNeeded || attempt == Missing ==>
              var n := Next(Next(s, Try(attempt)), FinishQueued);
              n == s.(worker := s.worker.(at := Free), queue := s.queue.(queued := s.queue.queued - {s.worker.node}))
    ensures attempt == Go && !s.flight.running ==>
              var n := Next(Next(s, Try(attempt)), FinishQueued);
              && n.worker == Worker(Executing, s.worker.node, s.nextRun) && n.queue == s.queue.(queued := s.queue.queued - {s.worker.node})
              && CanProceed(n, s.nextRun)
  {
  }

  /** It is free again exactly when its diagnosis is over. */
  lemma WorkerRestsIff(s: State)
    requires s.worker.at == Executing
    ensures Next(s, WorkerRests).worker.at == Free <==> s.worker.run !in s.executions
  {
  }

  /** Cancelling what is automatic cancels the diagnosis under way exactly if it is an automatic one. */
  lemma CancelTells(start: State, steps: seq<Step>, run: nat)
    requires IsStart(start) && run in Run(start, steps).executions
             && run !in Run(start, steps).cancelled && run !in Run(start, steps).stopping
    ensures var s := Run(start, steps);
            run in Next(Next(s, PickForCancel), CancelPicked(run)).cancelled <==> s.executions[run].automatic
  {
    RunIsSafe(start, steps);
    hide Run, IsStart, QueueSafe, ReportsSafe, OneFlight, Next;
    CancelIn(Run(start, steps), run);
  }

  lemma CancelIn(s: State, run: nat)
    requires OneFlight(s) && run in s.executions && run !in s.cancelled && run !in s.stopping
    ensures run in Next(Next(s, PickForCancel), CancelPicked(run)).cancelled <==> s.executions[run].automatic
  {
    var n := Next(s, PickForCancel);
    assert s.flight.context == Some(run) && s.executions[run].automatic == s.flight.automatic;
    assert n == s.(stopping := n.stopping) && (run in n.stopping <==> s.flight.automatic);
    hide OneFlight;
  }
}
