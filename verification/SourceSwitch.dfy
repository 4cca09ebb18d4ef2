/** The file protocol by which the dashboard, the host supervisor and the checkers agree on the
    network source: network-source-control.py, web/network_sources.go, web/network_recovery.go
    and checker/network_status.go.  Every file operation is one step of its process, steps of
    different processes interleave freely, and the supervisor may crash before any of its steps. */
module SourceSwitch {
  datatype Option<+T> = None | Some(value: T)

  datatype Source = Iphone | Router

  /** Fresh values, numbered in the order in which they are drawn. */
  type Epoch = nat

  datatype Kind = Configure | Validate | Activate

  datatype Request = Request(id: nat, action: Kind, source: Source, interface: string, expectedEpoch: Epoch)

  datatype Config = Config(source: Source, epoch: Epoch, interfaces: map<Source, string>)

  datatype Outcome = Idle | Running | Succeeded | Failed

  /** `activates` tells a job whose action is an activation. */
  datatype Job = Job(state: Outcome, activates: bool) {
    predicate Active() { state == Running }
  }

  datatype Status = Status(source: Source, epoch: Epoch, job: Job)

  /** Which source session a checker or a heartbeat belongs to. */
  datatype Session = Session(source: Source, epoch: Epoch)

  /** Where the supervisor is in `tick` and `process`. */
  datatype Position =
    | Down
    | SavingConfig
    | LookingForProcessing
    | UnlinkingStale
    | LookingForRequest
    | Claiming
    | Announcing
    | Checking
    | SavingInterface
    | Switching
    | Starting
    | Started
    | Committing
    | Restoring
    | RollingBack
    | RolledBack
    | SavingRestored
    | Finishing
    | UnlinkingDone

  /** The supervisor's local variables: its copy of the configuration, the request it serves, the
      epoch it starts, whether the starter reported success, and whether the request succeeded. */
  datatype Supervisor = Supervisor(at: Position, config: Config, r: Request, drawn: Epoch, reported: bool, ok: bool)

  /** Where the dashboard is in an admission; the two kinds of admission share a mutex. */
  datatype Desk =
    | Waiting
    | ReadStatus
    | SawNoRequest
    | SawNoProcessing
    | Admitting
    | RecoveryReadStatus
    | RecoverySawNoRequest
    | RecoverySawNoProcessing
    | RecoveryAdmitting
    | RecoveryWritingRequest

  datatype Web = Web(at: Desk, snapshot: Status)

  datatype Passage = NoEvaluation | ReadHeartbeat | PassedRequest | PassedProcessing | Ready | NotReady

  /** An evaluation of the gate by one checker: the sessions of the checker and of the heartbeat,
      and, as history, the epochs that were up when it started, the activations admitted before
      request.json was read, and those between claim and outcome when processing.json was. */
  datatype Gate = Gate(at: Passage, checker: Session, beat: Session, up: set<Epoch>, before: set<nat>, open: set<nat>)

  /** A call of the starter: for which request, with what, the epoch committed at the time, and
      whether it reported success. */
  datatype Call = Call(r: Request, source: Source, interface: string, drawn: Epoch, committed: Option<Epoch>, ok: bool)

  /** The files of the protocol. */
  datatype Disk = Disk(request: Option<Request>, processing: Option<Request>, config: Option<Config>, status: Option<Status>,
                       recoveryRequest: bool, recoveryActive: bool)

  /** What has happened: bridges that came up, those of them whose start was reported, those that
      nobody will commit, calls of the starter, and the requests claimed, admitted (activations
      only), checked with success and finished, and the configuration that the latest claim found.
      A bridge is an orphan if it came up although its starter failed or was
      given up, or if a crash came between the report and the commit. */
  datatype History = History(ups: set<Session>, started: set<Session>, orphans: set<Epoch>, calls: seq<Call>,
                             claimed: seq<nat>, admitted: set<nat>, passed: set<nat>, finished: set<nat>, found: Option<Config>)

  datatype State = State(disk: Disk, sup: Supervisor, web: Web, gate: Gate, nextEpoch: Epoch, nextID: nat, past: History)

  /** A step of one process, with the outcomes that the environment decides: whether the request
      passes its other checks or the starter reports success (`ok`), whether a starter that fails
      leaves its bridge up (`up`) or brings it up later (LateStart), whether the snapshot is fresh, what the user asked for, and which checker with which heartbeat evaluates the gate. */
  datatype Step =
    | SupervisorStep(ok: bool, up: bool)
    | LateStart(call: nat)
    | Crash
    | AdmissionStep(recovery: bool, timely: bool, action: Kind, source: Source, interface: string, expectedEpoch: Epoch)
    | WebRestart
    | RecoveryTaken
    | RecoveryDone
    | GateStep(timely: bool, checker: Session, beat: Session, beating: bool)

  // ---- the supervisor ----

  const DEFAULTS: map<Source, string> := map[Iphone := "en7", Router := ""]

  /** publish: the job is the given one, or else the one published last. */
  function Published(d: Disk, c: Config, job: Option<Job>): Disk {
    var j := if job.Some? then job.value else if d.status.Some? then d.status.value.job else Job(Idle, false);
    d.(status := Some(Status(c.source, c.epoch, j)))
  }

  function InterfaceOf(c: Config, source: Source): string {
    if source in c.interfaces then c.interfaces[source] else ""
  }

  function Committed(d: Disk): Option<Epoch> {
    if d.config.Some? then Some(d.config.value.epoch) else None
  }

  predicate Activating(r: Option<Request>) { r.Some? && r.value.action == Activate }

  /** The starter was called, and its bridge is up or not. */
  function Called(past: History, call: Call, up: bool): History {
    var u := SessionOfCall(call);
    past.(calls := past.calls + [call],
          ups := if call.ok || up then past.ups + {u} else past.ups,
          started := if call.ok then past.started + {u} else past.started,
          orphans := if !call.ok && up then past.orphans + {u.epoch} else past.orphans)
  }

  function SessionOfCall(call: Call): Session { Session(call.source, call.drawn) }

  /** A bridge whose starter failed, ran into its time limit or lost its supervisor comes up. */
  function StartedLate(past: History, k: nat): History {
    if k < |past.calls| && SessionOfCall(past.calls[k]) !in past.started then
      past.(ups := past.ups + {SessionOfCall(past.calls[k])}, orphans := past.orphans + {past.calls[k].drawn})
    else past
  }

  /** Where an activation is. */
  predicate InActivation(at: Position) {
    at == Switching || at == Starting || at == Started || at == Committing || at == Restoring || at == RollingBack ||
    at == RolledBack || at == SavingRestored
  }

  /** The request that the supervisor holds has been claimed: it is the one in processing.json. */
  predicate Holding(at: Position) {
    at == Checking || at == SavingInterface || at == Finishing || InActivation(at)
  }

  function SupervisorNext(s: State, ok: bool, up: bool): State {
    if InActivation(s.sup.at) then ActivationNext(s, ok, up)
    else if Holding(s.sup.at) || s.sup.at == Announcing then ProcessNext(s, ok)
    else TickNext(s)
  }

  /** One step of tick. */
  function TickNext(s: State): State {
    var d, v := s.disk, s.sup;
    match v.at
    case Down =>
      if d.config.Some? then s.(sup := v.(at := SavingConfig, config := d.config.value))
      else s.(sup := v.(at := SavingConfig, config := Config(Iphone, s.nextEpoch, DEFAULTS)), nextEpoch := s.nextEpoch + 1)
    case SavingConfig =>
      s.(disk := d.(config := Some(v.config)), sup := v.(at := LookingForProcessing))
    case LookingForProcessing =>
      if d.processing.Some? then
        s.(disk := Published(d, v.config, Some(Job(Failed, false))), sup := v.(at := UnlinkingStale),
           past := s.past.(finished := s.past.finished + {d.processing.value.id}))
      else s.(sup := v.(at := LookingForRequest))
    case UnlinkingStale =>
      s.(disk := d.(processing := None), sup := v.(at := LookingForRequest))
    case LookingForRequest =>
      if d.request.Some? then s.(sup := v.(at := Claiming))
      else s.(disk := Published(d, v.config, None), sup := v.(at := Down))
    case Claiming =>
      if d.request.Some? then
        s.(disk := d.(processing := d.request, request := None), sup := v.(at := Announcing),
           past := s.past.(claimed := s.past.claimed + [d.request.value.id], found := d.config))
      else s.(sup := v.(at := Down))
    case UnlinkingDone =>
      s.(disk := d.(processing := None), sup := v.(at := Down))
    case _ => s
  }

  /** One step of process, outside an activation. */
  function ProcessNext(s: State, ok: bool): State {
    var d, v := s.disk, s.sup;
    match v.at
    case Announcing =>
      if d.processing.Some? then
        s.(disk := Published(d, v.config, Some(Job(Running, Activating(d.processing)))),
           sup := v.(at := Checking, r := d.processing.value))
      else s.(sup := v.(at := Down))
    case Checking =>
      if !ok || v.r.expectedEpoch != v.config.epoch || (v.r.action == Configure && v.r.source == v.config.source) then
        s.(sup := v.(at := Finishing, ok := false))
      else
        var n := s.(past := s.past.(passed := s.past.passed + {v.r.id}));
        (match v.r.action
         case Configure => n.(sup := v.(at := SavingInterface))
         case Validate => n.(sup := v.(at := Finishing, ok := true))
         case Activate => n.(sup := v.(at := Switching)))
    case SavingInterface =>
      var c := v.config.(interfaces := v.config.interfaces[v.r.source := v.r.interface]);
      s.(disk := d.(config := Some(c)), sup := v.(at := Finishing, config := c, ok := true))
    case Finishing =>
      s.(disk := Published(d, v.config, Some(Job(if v.ok then Succeeded else Failed, v.r.action == Activate))),
         sup := v.(at := UnlinkingDone), past := s.past.(finished := s.past.finished + {v.r.id}))
    case _ => s
  }

  /** One step of an activation. */
  function ActivationNext(s: State, ok: bool, up: bool): State {
    var d, v := s.disk, s.sup;
    match v.at
    case Switching =>
      s.(disk := Published(d, v.config, Some(Job(Running, true))), sup := v.(at := Starting, drawn := s.nextEpoch), nextEpoch := s.nextEpoch + 1)
    case Starting =>
      s.(past := Called(s.past, Call(v.r, v.r.source, v.r.interface, v.drawn, Committed(d), ok), up),
         sup := v.(at := Started, reported := ok))
    case Started =>
      if v.reported then s.(sup := v.(at := Committing, config := Config(v.r.source, v.drawn, v.config.interfaces[v.r.source := v.r.interface])))
      else s.(sup := v.(at := Restoring))
    case Committing =>
      s.(disk := d.(config := Some(v.config)), sup := v.(at := Finishing, ok := true))
    case Restoring =>
      s.(disk := Published(d, v.config, Some(Job(Running, true))), sup := v.(at := RollingBack, drawn := s.nextEpoch), nextEpoch := s.nextEpoch + 1)
    case RollingBack =>
      s.(past := Called(s.past, Call(v.r, v.config.source, InterfaceOf(v.config, v.config.source), v.drawn, Committed(d), ok), up),
         sup := v.(at := RolledBack, reported := ok))
    case RolledBack =>
      s.(sup := v.(at := SavingRestored, config := if v.reported then v.config.(epoch := v.drawn) else v.config))
    case SavingRestored =>
      s.(disk := d.(config := Some(v.config)), sup := v.(at := Finishing, ok := false))
    case _ => s
  }

  /** The epoch of a bridge whose start was reported and that is not committed yet. */
  function Uncommitted(v: Supervisor): set<Epoch> {
    if (v.at == Started || v.at == RolledBack) && v.reported then {v.drawn}
    else if v.at == Committing || (v.at == SavingRestored && v.reported) then {v.config.epoch}
    else {}
  }

  function Crashed(s: State): State {
    s.(sup := s.sup.(at := Down), past := s.past.(orphans := s.past.orphans + Uncommitted(s.sup)))
  }

  // ---- the dashboard ----

  /** One step of an admission: the checks in the order of the handlers, then the link. */
  function AdmissionNext(s: State, a: Step): State
    requires a.AdmissionStep?
  {
    var d, w := s.disk, s.web;
    match w.at
    case Waiting =>
      if d.status.None? || !a.timely || d.status.value.job.Active() then s
      else if !a.recovery then s.(web := Web(ReadStatus, d.status.value))
      else if d.status.value.source == Iphone then s.(web := w.(at := RecoveryReadStatus))
      else s
    case ReadStatus => s.(web := w.(at := if d.request.Some? then Waiting else SawNoRequest))
    case SawNoRequest => s.(web := w.(at := if d.processing.Some? then Waiting else SawNoProcessing))
    case SawNoProcessing => s.(web := w.(at := if d.recoveryRequest || d.recoveryActive then Waiting else Admitting))
    case Admitting =>
      if a.expectedEpoch != w.snapshot.epoch || (a.action == Configure && a.source == w.snapshot.source) || d.request.Some? then
        s.(web := w.(at := Waiting))
      else
        s.(disk := d.(request := Some(Request(s.nextID, a.action, a.source, a.interface, a.expectedEpoch))), nextID := s.nextID + 1,
           past := s.past.(admitted := if a.action == Activate then s.past.admitted + {s.nextID} else s.past.admitted),
           web := w.(at := Waiting))
    case RecoveryReadStatus => s.(web := w.(at := if d.request.Some? then Waiting else RecoverySawNoRequest))
    case RecoverySawNoRequest => s.(web := w.(at := if d.processing.Some? then Waiting else RecoverySawNoProcessing))
    case RecoverySawNoProcessing => s.(web := w.(at := if d.recoveryActive || d.recoveryRequest then Waiting else RecoveryAdmitting))
    case RecoveryAdmitting => s.(disk := d.(recoveryActive := true), web := w.(at := RecoveryWritingRequest))
    case RecoveryWritingRequest => s.(disk := d.(recoveryRequest := true), web := w.(at := Waiting))
  }

  // ---- the gate ----

  /** The activations that have been claimed and whose outcome is not published. */
  function Open(past: History): set<nat> {
    set id | id in past.admitted && id in past.claimed && id !in past.finished
  }

  function UpEpochs(past: History): set<Epoch> {
    set u | u in past.ups :: u.epoch
  }

  /** One step of applySourceGate: heartbeat, request.json, processing.json, status.json. */
  function GateNext(s: State, a: Step): State
    requires a.GateStep?
  {
    var d, g := s.disk, s.gate;
    match g.at
    case NoEvaluation =>
      s.(gate := Gate(if a.beating then ReadHeartbeat else NotReady, a.checker, a.beat, UpEpochs(s.past), {}, {}))
    case ReadHeartbeat =>
      s.(gate := if Activating(d.request) then g.(at := NotReady) else g.(at := PassedRequest, before := s.past.admitted))
    case PassedRequest =>
      s.(gate := if Activating(d.processing) then g.(at := NotReady) else g.(at := PassedProcessing, open := Open(s.past)))
    case PassedProcessing =>
      s.(gate := g.(at :=
        if d.status.None? || !a.timely || (d.status.value.job.Active() && d.status.value.job.activates) then NotReady
        else if Session(d.status.value.source, d.status.value.epoch) != g.checker || g.beat != g.checker then NotReady
        else Ready))
    case Ready => s.(gate := g.(at := NoEvaluation))
    case NotReady => s.(gate := g.(at := NoEvaluation))
  }

  // ---- runs ----

  function Next(s: State, a: Step): State {
    match a
    case SupervisorStep(ok, up) => SupervisorNext(s, ok, up)
    case LateStart(call) => s.(past := StartedLate(s.past, call))
    case Crash => Crashed(s)
    case AdmissionStep(_, _, _, _, _, _) => AdmissionNext(s, a)
    case WebRestart => s.(web := s.web.(at := Waiting))
    case RecoveryTaken => s.(disk := s.disk.(recoveryRequest := false))
    case RecoveryDone => s.(disk := s.disk.(recoveryActive := false))
    case GateStep(_, _, _, _) => GateNext(s, a)
  }

  const NO_CONFIG: Config := Config(Iphone, 0, map[])

  /** No files, no process under way. */
  const INITIAL: State := State(
    Disk(None, None, None, None, false, false),
    Supervisor(Down, NO_CONFIG, Request(0, Validate, Iphone, "", 0), 0, false, false),
    Web(Waiting, Status(Iphone, 0, Job(Idle, false))),
    Gate(NoEvaluation, Session(Iphone, 0), Session(Iphone, 0), {}, {}, {}),
    0, 0, History({}, {}, {}, [], [], {}, {}, {}, None))

  function Run(s: State, steps: seq<Step>): State {
    if steps == [] then s else Next(Run(s, steps[..|steps| - 1]), steps[|steps| - 1])
  }

  // ---- what each process leaves alone ----

  lemma GateFrame(s: State, a: Step)
    requires a.GateStep?
    ensures GateNext(s, a) == s.(gate := GateNext(s, a).gate)
  {
  }

  lemma AdmissionFrame(s: State, a: Step)
    requires a.AdmissionStep?
    ensures var n := AdmissionNext(s, a);
            && n.sup == s.sup && n.gate == s.gate && n.nextEpoch == s.nextEpoch
            && n.disk == s.disk.(request := n.disk.request, recoveryRequest := n.disk.recoveryRequest, recoveryActive := n.disk.recoveryActive)
            && n.past == s.past.(admitted := n.past.admitted)
  {
  }

  lemma ProcessFrame(s: State, ok: bool)
    ensures var n := ProcessNext(s, ok);
            && n.web == s.web && n.gate == s.gate && n.nextEpoch == s.nextEpoch && n.nextID == s.nextID
            && n.disk == s.disk.(config := n.disk.config, status := n.disk.status)
            && n.past == s.past.(finished := n.past.finished, passed := n.past.passed)
  {
  }

  lemma ActivationFrame(s: State, ok: bool, up: bool)
    ensures var n := ActivationNext(s, ok, up);
            && n.web == s.web && n.gate == s.gate && n.nextID == s.nextID
            && n.disk == s.disk.(config := n.disk.config, status := n.disk.status)
            && n.past == s.past.(calls := n.past.calls, ups := n.past.ups, started := n.past.started, orphans := n.past.orphans)
  {
  }

  // ---- what every reachable state satisfies ----

  predicate PastBothFiles(at: Desk) {
    at == SawNoProcessing || at == Admitting || at == RecoverySawNoProcessing || at == RecoveryAdmitting || at == RecoveryWritingRequest
  }

  /** What an admission has seen is still so. */
  predicate DeskKnows(s: State) {
    && (s.web.at == SawNoRequest || s.web.at == RecoverySawNoRequest ==> s.disk.request.None?)
    && (PastBothFiles(s.web.at) ==> s.disk.request.None? && s.disk.processing.None?)
  }

  lemma DeskKnowsTick(s: State)
    requires DeskKnows(s)
    ensures DeskKnows(TickNext(s))
  {
  }

  lemma DeskKnowsAdmission(s: State, a: Step)
    requires DeskKnows(s) && a.AdmissionStep?
    ensures DeskKnows(AdmissionNext(s, a))
  {
  }

  lemma DeskKnowsStep(s: State, a: Step)
    requires DeskKnows(s)
    ensures DeskKnows(Next(s, a))
  {
    hide TickNext, ProcessNext, ActivationNext, AdmissionNext, GateNext;
    match a
    case SupervisorStep(ok, up) =>
      DeskKnowsTick(s);
      ProcessFrame(s, ok);
      ActivationFrame(s, ok, up);
    case AdmissionStep(_, _, _, _, _, _) => DeskKnowsAdmission(s, a);
    case GateStep(_, _, _, _) => GateFrame(s, a);
    case _ =>
  }

  /** The request file and the claimed one never exist together, and the supervisor knows what its
      position says about them. */
  predicate FilesApart(s: State) {
    && !(s.disk.request.Some? && s.disk.processing.Some?)
    && (Holding(s.sup.at) ==> s.disk.processing == Some(s.sup.r))
    && (s.sup.at == Announcing || s.sup.at == UnlinkingDone || s.sup.at == UnlinkingStale ==> s.disk.processing.Some?)
    && (s.sup.at == LookingForRequest || s.sup.at == Claiming ==> s.disk.processing.None?)
    && (s.sup.at == Claiming ==> s.disk.request.Some?)
  }

  lemma FilesApartTick(s: State)
    requires DeskKnows(s) && FilesApart(s)
    ensures FilesApart(TickNext(s))
  {
  }

  lemma FilesApartProcess(s: State, ok: bool)
    requires DeskKnows(s) && FilesApart(s)
    ensures FilesApart(ProcessNext(s, ok))
  {
  }

  lemma FilesApartActivation(s: State, ok: bool, up: bool)
    requires DeskKnows(s) && FilesApart(s)
    ensures FilesApart(ActivationNext(s, ok, up))
  {
  }

  lemma FilesApartAdmission(s: State, a: Step)
    requires DeskKnows(s) && FilesApart(s) && a.AdmissionStep?
    ensures FilesApart(AdmissionNext(s, a))
  {
  }

  lemma FilesApartStep(s: State, a: Step)
    requires DeskKnows(s) && FilesApart(s)
    ensures FilesApart(Next(s, a))
  {
    hide TickNext, ProcessNext, ActivationNext, AdmissionNext, GateNext;
    match a
    case SupervisorStep(ok, up) =>
      FilesApartTick(s);
      FilesApartProcess(s, ok);
      FilesApartActivation(s, ok, up);
    case AdmissionStep(_, _, _, _, _, _) => FilesApartAdmission(s, a);
    case GateStep(_, _, _, _) => GateFrame(s, a);
    case _ =>
  }

  /** A recovery and a source request never wait at the same time. */
  predicate RecoveryApart(s: State) {
    && (s.disk.recoveryRequest || s.disk.recoveryActive ==> s.disk.request.None? && s.disk.processing.None?)
    && (s.web.at == Admitting ==> !s.disk.recoveryRequest && !s.disk.recoveryActive)
  }

  lemma RecoveryApartTick(s: State)
    requires DeskKnows(s) && RecoveryApart(s)
    ensures RecoveryApart(TickNext(s))
  {
  }

  lemma RecoveryApartAdmission(s: State, a: Step)
    requires DeskKnows(s) && RecoveryApart(s) && a.AdmissionStep?
    ensures RecoveryApart(AdmissionNext(s, a))
  {
  }

  lemma RecoveryApartStep(s: State, a: Step)
    requires DeskKnows(s) && RecoveryApart(s)
    ensures RecoveryApart(Next(s, a))
  {
    hide TickNext, ProcessNext, ActivationNext, AdmissionNext, GateNext;
    match a
    case SupervisorStep(ok, up) =>
      RecoveryApartTick(s);
      ProcessFrame(s, ok);
      ActivationFrame(s, ok, up);
    case AdmissionStep(_, _, _, _, _, _) => RecoveryApartAdmission(s, a);
    case GateStep(_, _, _, _) => GateFrame(s, a);
    case _ =>
  }

  /** Between its first and its last write of the configuration, the supervisor's copy is the file. */
  predicate InTick(at: Position) {
    at != Down && at != SavingConfig && at != Committing && at != SavingRestored
  }

  /** The supervisor's copy of the configuration is the committed one, or one that it may commit. */
  predicate CopyTells(s: State) {
    && (s.sup.at == SavingConfig ==> s.disk.config.None? || s.disk.config == Some(s.sup.config))
    && (InTick(s.sup.at) ==> s.disk.config == Some(s.sup.config))
    && (InActivation(s.sup.at) ==> s.disk.config.Some? && s.sup.r.action == Activate)
    && (InActivation(s.sup.at) || s.sup.at == SavingInterface ==> s.disk.config.Some? && s.sup.r.expectedEpoch == s.disk.config.value.epoch)
    && (s.sup.at == Started && s.sup.reported ==> Session(s.sup.r.source, s.sup.drawn) in s.past.started)
    && (s.sup.at == RolledBack && s.sup.reported ==> Session(s.sup.config.source, s.sup.drawn) in s.past.started)
    && (s.sup.at == Committing ==> Session(s.sup.config.source, s.sup.config.epoch) in s.past.started)
    && (s.sup.at == SavingRestored ==> MayRestore(s, s.disk.config.value))
  }

  /** A rollback changes nothing but the epoch, and that only to one whose start was reported. */
  predicate MayRestore(s: State, previous: Config) {
    if s.sup.reported then s.sup.config == previous.(epoch := s.sup.config.epoch) && Session(s.sup.config.source, s.sup.config.epoch) in s.past.started
    else s.sup.config == previous
  }

  lemma CopyTellsTick(s: State)
    requires FilesApart(s) && CopyTells(s)
    ensures CopyTells(TickNext(s))
  {
  }

  lemma CopyTellsProcess(s: State, ok: bool)
    requires FilesApart(s) && CopyTells(s)
    ensures CopyTells(ProcessNext(s, ok))
  {
  }

  lemma CopyTellsActivation(s: State, ok: bool, up: bool)
    requires FilesApart(s) && CopyTells(s)
    ensures CopyTells(ActivationNext(s, ok, up))
  {
  }

  lemma CopyTellsStep(s: State, a: Step)
    requires FilesApart(s) && CopyTells(s)
    ensures CopyTells(Next(s, a))
  {
    hide TickNext, ProcessNext, ActivationNext, AdmissionNext, GateNext;
    match a
    case SupervisorStep(ok, up) =>
      CopyTellsTick(s);
      CopyTellsProcess(s, ok);
      CopyTellsActivation(s, ok, up);
    case AdmissionStep(_, _, _, _, _, _) => AdmissionFrame(s, a);
    case GateStep(_, _, _, _) => GateFrame(s, a);
    case _ =>
  }

  /** Epochs are drawn in order: what is published is never ahead of what is committed, and what
      is being started is ahead of both. */
  predicate EpochsRise(s: State) {
    && (s.disk.config.Some? ==> s.disk.config.value.epoch < s.nextEpoch)
    && (s.disk.status.Some? ==> s.disk.config.Some? && s.disk.status.value.epoch <= s.disk.config.value.epoch)
    && (s.sup.at == SavingConfig ==> s.sup.config.epoch < s.nextEpoch)
    && (s.sup.at == Committing || s.sup.at == SavingRestored ==>
          s.disk.config.Some? && s.disk.config.value.epoch <= s.sup.config.epoch < s.nextEpoch)
    && (s.sup.at == Starting || s.sup.at == Started || s.sup.at == RollingBack || s.sup.at == RolledBack ==>
          s.sup.config.epoch < s.sup.drawn < s.nextEpoch)
  }

  lemma EpochsRiseTick(s: State)
    requires CopyTells(s) && EpochsRise(s)
    ensures EpochsRise(TickNext(s))
  {
  }

  lemma EpochsRiseProcess(s: State, ok: bool)
    requires CopyTells(s) && EpochsRise(s)
    ensures EpochsRise(ProcessNext(s, ok))
  {
  }

  lemma EpochsRiseActivation(s: State, ok: bool, up: bool)
    requires CopyTells(s) && EpochsRise(s)
    ensures EpochsRise(ActivationNext(s, ok, up))
  {
  }

  lemma EpochsRiseStep(s: State, a: Step)
    requires CopyTells(s) && EpochsRise(s)
    ensures EpochsRise(Next(s, a))
  {
    hide TickNext, ProcessNext, ActivationNext, AdmissionNext, GateNext;
    match a
    case SupervisorStep(ok, up) =>
      EpochsRiseTick(s);
      EpochsRiseProcess(s, ok);
      EpochsRiseActivation(s, ok, up);
    case AdmissionStep(_, _, _, _, _, _) => AdmissionFrame(s, a);
    case GateStep(_, _, _, _) => GateFrame(s, a);
    case _ =>
  }

  /** A bridge that came up is an orphan, is about to be committed, or was committed, perhaps
      before a later one. */
  predicate Accounted(s: State, u: Epoch) {
    u in s.past.orphans || u in Uncommitted(s.sup) || (s.disk.config.Some? && u <= s.disk.config.value.epoch)
  }

  /** A tick publishes the committed configuration, and does so before it unlinks. */
  lemma TickPublishes(s: State)
    requires CopyTells(s)
    ensures var n := TickNext(s);
            && n.past.ups == s.past.ups && n.past.calls == s.past.calls && (s.disk.status.Some? ==> n.disk.status.Some?) && (Holding(n.sup.at) ==> n == s)
            && (n.sup.at == UnlinkingStale ==> n.disk.status.Some? && Committed(n.disk) == Some(n.disk.status.value.epoch))
            && n.sup.at != UnlinkingDone
  {
  }

  /** There is a published status from the first claim on, and the unlinking follows the publication. */
  predicate Publishes(s: State) {
    && (s.past.ups != {} || s.past.calls != [] || Holding(s.sup.at) ==> s.disk.status.Some?)
    && (s.sup.at == UnlinkingStale || s.sup.at == UnlinkingDone ==> s.disk.status.Some? && Committed(s.disk) == Some(s.disk.status.value.epoch))
  }

  lemma PublishesTick(s: State)
    requires CopyTells(s) && Publishes(s)
    ensures Publishes(TickNext(s))
  {
    TickPublishes(s);
    hide TickNext, CopyTells;
  }

  lemma PublishesProcess(s: State, ok: bool)
    requires CopyTells(s) && Publishes(s)
    ensures Publishes(ProcessNext(s, ok))
  {
  }

  lemma PublishesActivation(s: State, ok: bool, up: bool)
    requires CopyTells(s) && Publishes(s)
    ensures Publishes(ActivationNext(s, ok, up))
  {
  }

  lemma PublishesStep(s: State, a: Step)
    requires CopyTells(s) && Publishes(s)
    ensures Publishes(Next(s, a))
  {
    hide TickNext, ProcessNext, ActivationNext, AdmissionNext, GateNext;
    match a
    case SupervisorStep(ok, up) =>
      PublishesTick(s);
      PublishesProcess(s, ok);
      PublishesActivation(s, ok, up);
    case AdmissionStep(_, _, _, _, _, _) => AdmissionFrame(s, a);
    case GateStep(_, _, _, _) => GateFrame(s, a);
    case _ =>
  }

  lemma TickKeepsCommitted(s: State)
    requires CopyTells(s) && EpochsRise(s) && Publishes(s)
    ensures var n := TickNext(s);
            && n.past.ups == s.past.ups && n.past.orphans == s.past.orphans && Uncommitted(n.sup) >= Uncommitted(s.sup)
            && (s.disk.config.Some? ==> Committed(n.disk) == Committed(s.disk))
            && (s.disk.config.None? ==> s.past.ups == {})
  {
  }

  lemma TickKeepsPublished(s: State)
    requires FilesApart(s) && CopyTells(s) && EpochsRise(s) && Publishes(s)
    ensures var n := TickNext(s);
            n.disk.status.Some? && Committed(n.disk) != Some(n.disk.status.value.epoch) ==>
              s.disk.status == n.disk.status && Committed(s.disk) == Committed(n.disk) && (n.disk.processing == s.disk.processing || s.disk.processing.None?)
  {
  }

  /** Every bridge that came up is accounted for, and what is committed is published unless a
      claimed activation is left. */
  predicate Fenced(s: State) {
    && (forall u :: u in s.past.ups ==> Accounted(s, u.epoch))
    && (s.disk.status.Some? && Committed(s.disk) != Some(s.disk.status.value.epoch) ==> Activating(s.disk.processing))
  }

  lemma FencedTick(s: State)
    requires FilesApart(s) && CopyTells(s) && EpochsRise(s) && Publishes(s) && Fenced(s)
    ensures Fenced(TickNext(s))
  {
    TickKeepsCommitted(s);
    TickKeepsPublished(s);
    hide TickNext, FilesApart, CopyTells, EpochsRise, Publishes;
    var n := TickNext(s);
    forall u | u in n.past.ups ensures Accounted(n, u.epoch) {
      assert u in s.past.ups ==> Accounted(s, u.epoch);
    }
  }

  lemma FencedProcess(s: State, ok: bool)
    requires FilesApart(s) && CopyTells(s) && EpochsRise(s) && Publishes(s) && Fenced(s)
    ensures Fenced(ProcessNext(s, ok))
  {
    var n := ProcessNext(s, ok);
    forall u | u in n.past.ups ensures Accounted(n, u.epoch) {
      assert u in s.past.ups ==> Accounted(s, u.epoch);
    }
  }

  lemma FencedActivation(s: State, ok: bool, up: bool)
    requires FilesApart(s) && CopyTells(s) && EpochsRise(s) && Publishes(s) && Fenced(s)
    ensures Fenced(ActivationNext(s, ok, up))
  {
    var n := ActivationNext(s, ok, up);
    forall u | u in n.past.ups ensures Accounted(n, u.epoch) {
      assert u in s.past.ups ==> Accounted(s, u.epoch);
    }
  }

  lemma FencedStep(s: State, a: Step)
    requires FilesApart(s) && CopyTells(s) && EpochsRise(s) && Publishes(s) && Fenced(s)
    ensures Fenced(Next(s, a))
  {
    hide TickNext, ProcessNext, ActivationNext, AdmissionNext, GateNext;
    match a
    case SupervisorStep(ok, up) =>
      FencedTick(s);
      FencedProcess(s, ok);
      FencedActivation(s, ok, up);
    case AdmissionStep(_, _, _, _, _, _) => AdmissionFrame(s, a);
    case GateStep(_, _, _, _) => GateFrame(s, a);
    case _ =>
      forall u | u in s.past.ups ensures Accounted(Next(s, a), u.epoch) {
        assert Accounted(s, u.epoch);
      }
  }

  /** A tick claims at most one request, and calls nothing. */
  lemma TickClaims(s: State)
    ensures var n := TickNext(s);
            && n.past.calls == s.past.calls
            && n.past.claimed == (if s.sup.at == Claiming && s.disk.request.Some? then s.past.claimed + [s.disk.request.value.id] else s.past.claimed)
  {
  }

  /** Only a claim starts to serve a request. */
  lemma TickServes(s: State)
    ensures var n := TickNext(s);
            && (!Serving(s.sup.at) ==>
                  (Serving(n.sup.at) ==> n.sup.at == Announcing && s.sup.at == Claiming && s.disk.request.Some? && n.disk.processing == s.disk.request))
            && (Serving(s.sup.at) ==> n == s)
  {
  }

  /** A tick finishes the request that a crash has left. */
  lemma TickFinishes(s: State)
    ensures TickNext(s).past.finished ==
            if s.sup.at == LookingForProcessing && s.disk.processing.Some? then s.past.finished + {s.disk.processing.value.id} else s.past.finished
  {
  }

  /** The supervisor holds a claimed request whose outcome is not published. */
  predicate Serving(at: Position) { at == Announcing || Holding(at) }

  /** Requests are numbered once and claimed at most once. */
  predicate Numbered(s: State) {
    && (s.disk.request.Some? ==> s.disk.request.value.id < s.nextID && s.disk.request.value.id !in s.past.claimed)
    && (forall id :: id in s.past.claimed ==> id < s.nextID)
    && (forall i, j :: 0 <= i < j < |s.past.claimed| ==> s.past.claimed[i] != s.past.claimed[j])
  }

  lemma NumberedTick(s: State)
    requires Numbered(s)
    ensures Numbered(TickNext(s))
  {
  }

  lemma NumberedAdmission(s: State, a: Step)
    requires Numbered(s) && a.AdmissionStep?
    ensures Numbered(AdmissionNext(s, a))
  {
  }

  lemma NumberedStep(s: State, a: Step)
    requires Numbered(s)
    ensures Numbered(Next(s, a))
  {
    hide TickNext, ProcessNext, ActivationNext, AdmissionNext, GateNext;
    match a
    case SupervisorStep(ok, up) =>
      NumberedTick(s);
      ProcessFrame(s, ok);
      ActivationFrame(s, ok, up);
    case AdmissionStep(_, _, _, _, _, _) => NumberedAdmission(s, a);
    case GateStep(_, _, _, _) => GateFrame(s, a);
    case _ =>
  }

  /** The admitted activations are the requests that activate. */
  predicate Admitted(s: State) {
    && (forall id :: id in s.past.admitted ==> id < s.nextID)
    && (s.disk.request.Some? ==> Consistent(s.past, s.disk.request.value))
    && (s.disk.processing.Some? ==> s.disk.processing.value.id in s.past.claimed && Consistent(s.past, s.disk.processing.value))
  }

  predicate Consistent(past: History, r: Request) {
    r.id in past.admitted <==> r.action == Activate
  }

  lemma AdmittedTick(s: State)
    requires Numbered(s) && Admitted(s)
    ensures Admitted(TickNext(s))
  {
  }

  lemma AdmittedAdmission(s: State, a: Step)
    requires Numbered(s) && Admitted(s) && a.AdmissionStep?
    ensures Admitted(AdmissionNext(s, a))
  {
  }

  lemma AdmittedStep(s: State, a: Step)
    requires Numbered(s) && Admitted(s)
    ensures Admitted(Next(s, a))
  {
    hide TickNext, ProcessNext, ActivationNext, AdmissionNext, GateNext;
    match a
    case SupervisorStep(ok, up) =>
      AdmittedTick(s);
      ProcessFrame(s, ok);
      ActivationFrame(s, ok, up);
    case AdmissionStep(_, _, _, _, _, _) => AdmittedAdmission(s, a);
    case GateStep(_, _, _, _) => GateFrame(s, a);
    case _ =>
  }

  /** A request is finished once its outcome is published, not before, ... */
  predicate Finished(s: State) {
    && (forall id :: id in s.past.finished ==> id in s.past.claimed)
    && (Serving(s.sup.at) ==> s.disk.processing.Some? && s.disk.processing.value.id !in s.past.finished)
  }

  lemma FinishedTick(s: State)
    requires FilesApart(s) && Numbered(s) && Admitted(s) && Finished(s)
    ensures Finished(TickNext(s))
  {
    TickClaims(s);
    TickServes(s);
    TickFinishes(s);
    hide TickNext, FilesApart, Serving;
  }

  lemma FinishedProcess(s: State, ok: bool)
    requires FilesApart(s) && Numbered(s) && Admitted(s) && Finished(s)
    ensures Finished(ProcessNext(s, ok))
  {
  }

  lemma FinishedActivation(s: State, ok: bool, up: bool)
    requires FilesApart(s) && Numbered(s) && Admitted(s) && Finished(s)
    ensures Finished(ActivationNext(s, ok, up))
  {
  }

  lemma FinishedStep(s: State, a: Step)
    requires FilesApart(s) && Numbered(s) && Admitted(s) && Finished(s)
    ensures Finished(Next(s, a))
  {
    hide TickNext, ProcessNext, ActivationNext, AdmissionNext, GateNext;
    match a
    case SupervisorStep(ok, up) =>
      FinishedTick(s);
      FinishedProcess(s, ok);
      FinishedActivation(s, ok, up);
    case AdmissionStep(_, _, _, _, _, _) => AdmissionFrame(s, a);
    case GateStep(_, _, _, _) => GateFrame(s, a);
    case _ =>
  }

  /** ... and before it is unlinked. */
  predicate Unlinks(s: State) {
    s.sup.at == UnlinkingStale || s.sup.at == UnlinkingDone ==> s.disk.processing.Some? && s.disk.processing.value.id in s.past.finished
  }

  lemma UnlinksTick(s: State)
    requires FilesApart(s) && Unlinks(s)
    ensures Unlinks(TickNext(s))
  {
  }

  lemma UnlinksProcess(s: State, ok: bool)
    requires FilesApart(s) && Unlinks(s)
    ensures Unlinks(ProcessNext(s, ok))
  {
  }

  lemma UnlinksActivation(s: State, ok: bool, up: bool)
    requires FilesApart(s) && Unlinks(s)
    ensures Unlinks(ActivationNext(s, ok, up))
  {
  }

  lemma UnlinksStep(s: State, a: Step)
    requires FilesApart(s) && Unlinks(s)
    ensures Unlinks(Next(s, a))
  {
    hide TickNext, ProcessNext, ActivationNext, AdmissionNext, GateNext;
    match a
    case SupervisorStep(ok, up) =>
      UnlinksTick(s);
      UnlinksProcess(s, ok);
      UnlinksActivation(s, ok, up);
    case AdmissionStep(_, _, _, _, _, _) => AdmissionFrame(s, a);
    case GateStep(_, _, _, _) => GateFrame(s, a);
    case _ =>
  }

  predicate Waits(d: Disk, id: nat) {
    (Activating(d.request) && d.request.value.id == id) || (Activating(d.processing) && d.processing.value.id == id)
  }

  /** An admitted activation that is not finished waits in one of the two files. */
  predicate Filed(s: State) {
    forall id :: id in s.past.admitted && id !in s.past.finished ==> Waits(s.disk, id)
  }

  lemma FiledTick(s: State)
    requires FilesApart(s) && Unlinks(s) && Admitted(s) && Filed(s)
    ensures Filed(TickNext(s))
  {
  }

  lemma FiledProcess(s: State, ok: bool)
    requires FilesApart(s) && Unlinks(s) && Admitted(s) && Filed(s)
    ensures Filed(ProcessNext(s, ok))
  {
  }

  lemma FiledAdmission(s: State, a: Step)
    requires FilesApart(s) && Unlinks(s) && Admitted(s) && Filed(s) && a.AdmissionStep?
    ensures Filed(AdmissionNext(s, a))
  {
  }

  lemma FiledStep(s: State, a: Step)
    requires FilesApart(s) && Unlinks(s) && Admitted(s) && Filed(s)
    ensures Filed(Next(s, a))
  {
    hide TickNext, ProcessNext, ActivationNext, AdmissionNext, GateNext;
    match a
    case SupervisorStep(ok, up) =>
      FiledTick(s);
      FiledProcess(s, ok);
      ActivationFrame(s, ok, up);
    case AdmissionStep(_, _, _, _, _, _) => FiledAdmission(s, a);
    case GateStep(_, _, _, _) => GateFrame(s, a);
    case _ =>
  }

  // ---- calls of the starter ----

  function CallsFor(calls: seq<Call>, id: nat): nat {
    if calls == [] then 0 else CallsFor(calls[..|calls| - 1], id) + (if calls[|calls| - 1].r.id == id then 1 else 0)
  }

  /** The call was made for a claimed activation while its expected epoch was the committed one. */
  predicate Justified(claimed: seq<nat>, c: Call) {
    c.r.action == Activate && c.committed == Some(c.r.expectedEpoch) && c.r.id in claimed
  }

  predicate AtMostTwice(claimed: seq<nat>, calls: seq<Call>, id: nat) {
    CallsFor(calls, id) <= 2 && (id !in claimed ==> CallsFor(calls, id) == 0)
  }

  /** The starter is called at most twice for a request, and only when it may be. */
  ghost predicate CallsCounted(s: State) {
    && (forall i :: 0 <= i < |s.past.calls| ==> Justified(s.past.claimed, s.past.calls[i]))
    && (forall id :: AtMostTwice(s.past.claimed, s.past.calls, id))
    && (s.sup.at == Announcing ==> s.disk.processing.Some? && CallsFor(s.past.calls, s.disk.processing.value.id) == 0)
    && (s.sup.at == Checking || s.sup.at == Switching || s.sup.at == Starting ==> CallsFor(s.past.calls, s.sup.r.id) == 0)
    && (s.sup.at == Started || s.sup.at == Restoring || s.sup.at == RollingBack ==> CallsFor(s.past.calls, s.sup.r.id) <= 1)
  }

  /** An activation calls the starter in two of its steps. */
  lemma ActivationCalls(s: State, ok: bool, up: bool)
    requires FilesApart(s) && CopyTells(s) && Admitted(s)
    ensures var n := ActivationNext(s, ok, up);
            && (n.past.calls == s.past.calls ||
                (|n.past.calls| == |s.past.calls| + 1 && n.past.calls == s.past.calls + [n.past.calls[|s.past.calls|]]
                 && n.past.calls[|s.past.calls|].r == s.sup.r && Justified(s.past.claimed, n.past.calls[|s.past.calls|])
                 && (s.sup.at == Starting || s.sup.at == RollingBack)))
            && (InActivation(s.sup.at) ==> n.sup.r == s.sup.r)
            && ActivationOrder(s.sup.at, n.sup.at)
  {
  }

  /** The order of an activation's steps. */
  predicate ActivationOrder(a: Position, b: Position) {
    && (b == Announcing || b == Checking || b == Switching ==> a == b)
    && (b == Starting ==> a == Switching)
    && (b == Started ==> a == Starting)
    && (b == Restoring ==> a == Started)
    && (b == RollingBack ==> a == Restoring)
  }

  lemma CallAppended(calls: seq<Call>, c: Call, id: nat)
    ensures CallsFor(calls + [c], id) == CallsFor(calls, id) + (if c.r.id == id then 1 else 0)
  {
    assert (calls + [c])[..|calls|] == calls;
  }

  lemma CallsCountedTick(s: State)
    requires FilesApart(s) && CopyTells(s) && Numbered(s) && Admitted(s) && CallsCounted(s)
    ensures CallsCounted(TickNext(s))
  {
    TickClaims(s);
    TickServes(s);
    hide TickNext, FilesApart, CopyTells, Admitted;
    var n := TickNext(s);
    if s.sup.at == Claiming && s.disk.request.Some? {
      assert AtMostTwice(s.past.claimed, s.past.calls, s.disk.request.value.id);
    }
    forall id ensures AtMostTwice(n.past.claimed, n.past.calls, id) {
      assert AtMostTwice(s.past.claimed, s.past.calls, id);
    }
    forall i | 0 <= i < |n.past.calls| ensures Justified(n.past.claimed, n.past.calls[i]) {
      assert Justified(s.past.claimed, s.past.calls[i]);
    }
  }

  lemma CallsCountedProcess(s: State, ok: bool)
    requires FilesApart(s) && CopyTells(s) && Numbered(s) && Admitted(s) && CallsCounted(s)
    ensures CallsCounted(ProcessNext(s, ok))
  {
  }

  lemma CallsCountedActivation(s: State, ok: bool, up: bool)
    requires FilesApart(s) && CopyTells(s) && Numbered(s) && Admitted(s) && CallsCounted(s)
    ensures CallsCounted(ActivationNext(s, ok, up))
  {
    ActivationCalls(s, ok, up);
    ActivationFrame(s, ok, up);
    hide ActivationNext, FilesApart, CopyTells, Numbered, Admitted;
    var n := ActivationNext(s, ok, up);
    if n.past.calls != s.past.calls {
      var last := n.past.calls[|s.past.calls|];
      forall id ensures CallsFor(n.past.calls, id) == CallsFor(s.past.calls, id) + (if last.r.id == id then 1 else 0) {
        CallAppended(s.past.calls, last, id);
      }
    }
    forall id ensures AtMostTwice(n.past.claimed, n.past.calls, id) {
      assert AtMostTwice(s.past.claimed, s.past.calls, id);
    }
    forall i | 0 <= i < |n.past.calls| ensures Justified(n.past.claimed, n.past.calls[i]) {
      assert i < |s.past.calls| ==> Justified(s.past.claimed, s.past.calls[i]);
    }
  }

  lemma CallsCountedStep(s: State, a: Step)
    requires FilesApart(s) && CopyTells(s) && Numbered(s) && Admitted(s) && CallsCounted(s)
    ensures CallsCounted(Next(s, a))
  {
    hide TickNext, ProcessNext, ActivationNext, AdmissionNext, GateNext;
    match a
    case SupervisorStep(ok, up) =>
      CallsCountedTick(s);
      CallsCountedProcess(s, ok);
      CallsCountedActivation(s, ok, up);
    case AdmissionStep(_, _, _, _, _, _) => AdmissionFrame(s, a);
    case GateStep(_, _, _, _) => GateFrame(s, a);
    case _ =>
  }

  // ---- evaluations of the gate ----

  /** A bridge that came up is an orphan, or what is published is at least as new. */
  predicate Superseded(s: State, u: Epoch) {
    u in s.past.orphans || (s.disk.status.Some? && u <= s.disk.status.value.epoch)
  }

  /** What an evaluation knows at each of its positions. */
  predicate GateTells(s: State) {
    && (s.gate.at == ReadHeartbeat || s.gate.at == PassedRequest ==> s.gate.up <= UpEpochs(s.past))
    && (s.gate.at == PassedRequest ==> forall id :: id in s.gate.before ==>
          id < s.nextID && (id in s.past.finished || (Activating(s.disk.processing) && s.disk.processing.value.id == id)))
    && (s.gate.at == PassedProcessing || s.gate.at == Ready ==> s.gate.before <= s.past.finished && s.gate.open == {})
    && (s.gate.at == PassedProcessing ==> forall u :: u in s.gate.up ==> Superseded(s, u))
    && (s.gate.at == Ready ==> s.gate.beat == s.gate.checker && forall u :: u in s.gate.up ==> u in s.past.orphans || u <= s.gate.checker.epoch)
  }

  /** Steps of the supervisor never take back what is published or finished. */
  lemma TickAdvances(s: State)
    requires CopyTells(s) && EpochsRise(s)
    ensures var n := TickNext(s);
            && n.past.finished >= s.past.finished && n.past.orphans == s.past.orphans && n.past.ups == s.past.ups && n.gate == s.gate
            && n.nextID == s.nextID
            && (s.disk.status.Some? ==> n.disk.status.Some? && n.disk.status.value.epoch >= s.disk.status.value.epoch)
            && (Activating(s.disk.processing) ==>
                  n.disk.processing == s.disk.processing || s.sup.at == UnlinkingDone || s.sup.at == UnlinkingStale || s.sup.at == Claiming)
  {
  }

  lemma ProcessAdvances(s: State, ok: bool)
    requires CopyTells(s) && EpochsRise(s)
    ensures var n := ProcessNext(s, ok);
            && n.past.finished >= s.past.finished && n.past.orphans == s.past.orphans && n.past.ups == s.past.ups
            && (s.disk.status.Some? ==> n.disk.status.Some? && n.disk.status.value.epoch >= s.disk.status.value.epoch)
  {
  }

  lemma ActivationAdvances(s: State, ok: bool, up: bool)
    requires CopyTells(s) && EpochsRise(s)
    ensures var n := ActivationNext(s, ok, up);
            && n.past.ups >= s.past.ups && n.past.orphans >= s.past.orphans
            && (s.disk.status.Some? ==> n.disk.status.Some? && n.disk.status.value.epoch >= s.disk.status.value.epoch)
  {
  }

  lemma UpGrows(a: History, b: History)
    requires a.ups <= b.ups
    ensures UpEpochs(a) <= UpEpochs(b)
  {
    forall u | u in a.ups ensures u.epoch in UpEpochs(b) {
      assert u in b.ups;
    }
  }

  lemma AdmissionCounts(s: State, a: Step)
    requires a.AdmissionStep?
    ensures AdmissionNext(s, a).nextID >= s.nextID
  {
  }

  /** While processing.json holds no activation, none is between claim and outcome, ... */
  lemma NothingOpen(s: State)
    requires Numbered(s) && Admitted(s) && Filed(s) && !Activating(s.disk.processing)
    ensures Open(s.past) == {}
  {
    forall id | id in s.past.admitted && id !in s.past.finished ensures id !in s.past.claimed {
      assert Waits(s.disk, id);
    }
  }

  /** ... and no bridge that came up is newer than what is published, unless it is an orphan. */
  lemma UpIsSuperseded(s: State, u: Epoch)
    requires FilesApart(s) && CopyTells(s) && EpochsRise(s) && Publishes(s) && Fenced(s) && !Activating(s.disk.processing) && u in UpEpochs(s.past)
    ensures Superseded(s, u)
  {
    var session :| session in s.past.ups && session.epoch == u;
    assert Accounted(s, session.epoch);
  }

  lemma GateTellsTick(s: State)
    requires FilesApart(s) && CopyTells(s) && EpochsRise(s) && Fenced(s) && Numbered(s)
             && Admitted(s) && Unlinks(s) && Filed(s) && Publishes(s) && GateTells(s)
    ensures GateTells(TickNext(s))
  {
    TickAdvances(s);
  }

  lemma GateTellsProcess(s: State, ok: bool)
    requires FilesApart(s) && CopyTells(s) && EpochsRise(s) && Fenced(s) && Numbered(s)
             && Admitted(s) && Unlinks(s) && Filed(s) && Publishes(s) && GateTells(s)
    ensures GateTells(ProcessNext(s, ok))
  {
    ProcessFrame(s, ok);
    ProcessAdvances(s, ok);
    hide ProcessNext;
  }

  lemma GateTellsActivation(s: State, ok: bool, up: bool)
    requires FilesApart(s) && CopyTells(s) && EpochsRise(s) && Fenced(s) && Numbered(s)
             && Admitted(s) && Unlinks(s) && Filed(s) && Publishes(s) && GateTells(s)
    ensures GateTells(ActivationNext(s, ok, up))
  {
    ActivationFrame(s, ok, up);
    ActivationAdvances(s, ok, up);
    hide ActivationNext;
    UpGrows(s.past, ActivationNext(s, ok, up).past);
  }

  lemma GateTellsAdmission(s: State, a: Step)
    requires FilesApart(s) && CopyTells(s) && EpochsRise(s) && Fenced(s) && Numbered(s)
             && Admitted(s) && Unlinks(s) && Filed(s) && Publishes(s) && GateTells(s) && a.AdmissionStep?
    ensures GateTells(AdmissionNext(s, a))
  {
    AdmissionFrame(s, a);
    AdmissionCounts(s, a);
    hide AdmissionNext;
  }

  lemma GateTellsGate(s: State, a: Step)
    requires FilesApart(s) && CopyTells(s) && EpochsRise(s) && Fenced(s) && Numbered(s)
             && Admitted(s) && Unlinks(s) && Filed(s) && Publishes(s) && GateTells(s) && a.GateStep?
    ensures GateTells(GateNext(s, a))
  {
    if s.gate.at == PassedRequest && !Activating(s.disk.processing) {
      NothingOpen(s);
      forall u | u in s.gate.up ensures Superseded(s, u) {
        UpIsSuperseded(s, u);
      }
    }
  }

  lemma GateTellsStep(s: State, a: Step)
    requires FilesApart(s) && CopyTells(s) && EpochsRise(s) && Fenced(s) && Numbered(s)
             && Admitted(s) && Unlinks(s) && Filed(s) && Publishes(s) && GateTells(s)
    ensures GateTells(Next(s, a))
  {
    hide TickNext, ProcessNext, ActivationNext, AdmissionNext, GateNext;
    match a
    case SupervisorStep(ok, up) =>
      GateTellsTick(s);
      GateTellsProcess(s, ok);
      GateTellsActivation(s, ok, up);
    case AdmissionStep(_, _, _, _, _, _) => GateTellsAdmission(s, a);
    case GateStep(_, _, _, _) => GateTellsGate(s, a);
    case _ =>
  }

  // ---- main results ----

  ghost predicate Invariant(s: State) {
    && DeskKnows(s) && FilesApart(s) && RecoveryApart(s) && CopyTells(s) && EpochsRise(s) && Publishes(s) && Fenced(s)
    && Numbered(s) && Admitted(s) && Finished(s) && Unlinks(s) && Filed(s) && CallsCounted(s) && GateTells(s)
  }

  lemma InvariantStep(s: State, a: Step)
    requires Invariant(s)
    ensures Invariant(Next(s, a))
  {
    InvariantParts(s);
    hide DeskKnows, FilesApart, RecoveryApart, CopyTells, EpochsRise, Publishes, Fenced, Numbered, Admitted,
         Finished, Unlinks, Filed, CallsCounted, GateTells, Next;
    DeskKnowsStep(s, a);
    FilesApartStep(s, a);
    RecoveryApartStep(s, a);
    CopyTellsStep(s, a);
    EpochsRiseStep(s, a);
    PublishesStep(s, a);
    FencedStep(s, a);
    NumberedStep(s, a);
    AdmittedStep(s, a);
    FinishedStep(s, a);
    UnlinksStep(s, a);
    FiledStep(s, a);
    CallsCountedStep(s, a);
    GateTellsStep(s, a);
  }

  lemma InvariantParts(s: State)
    requires Invariant(s)
    ensures DeskKnows(s) && FilesApart(s) && RecoveryApart(s) && CopyTells(s) && EpochsRise(s) && Publishes(s) && Fenced(s)
    ensures Numbered(s) && Admitted(s) && Finished(s) && Unlinks(s) && Filed(s) && CallsCounted(s) && GateTells(s)
  {
    hide DeskKnows, FilesApart, RecoveryApart, CopyTells, EpochsRise, Publishes, Fenced, Numbered, Admitted, Finished, Unlinks, Filed, CallsCounted, GateTells;
  }

  lemma {:induction false} RunKeepsInvariant(steps: seq<Step>)
    ensures Invariant(Run(INITIAL, steps))
  {
    if steps == [] {
      assert forall id :: AtMostTwice([], [], id);
    } else {
      hide Invariant, Next;
      RunKeepsInvariant(steps[..|steps| - 1]);
      InvariantStep(Run(INITIAL, steps[..|steps| - 1]), steps[|steps| - 1]);
    }
  }

  /** Whatever crashes and interleavings: never both files, a request is claimed at most once, the
      starter runs at most twice for it and only while its expected epoch is the committed one,
      and a reconnect and a source change never wait together. */
  lemma ExecutionIsSafe(steps: seq<Step>)
    ensures var s := Run(INITIAL, steps);
            && !(s.disk.request.Some? && s.disk.processing.Some?)
            && (forall i, j :: 0 <= i < j < |s.past.claimed| ==> s.past.claimed[i] != s.past.claimed[j])
            && (forall id :: CallsFor(s.past.calls, id) <= 2)
            && (forall i :: 0 <= i < |s.past.calls| ==>
                  s.past.calls[i].r.action == Activate && s.past.calls[i].committed == Some(s.past.calls[i].r.expectedEpoch))
            && !((s.disk.recoveryRequest || s.disk.recoveryActive) && (s.disk.request.Some? || s.disk.processing.Some?))
  {
    var s := Run(INITIAL, steps);
    RunKeepsInvariant(steps);
    InvariantParts(s);
    hide DeskKnows, FilesApart, CopyTells, EpochsRise, Publishes, Fenced, Admitted, Finished, Unlinks, Filed, GateTells, Run;
    assert !(s.disk.request.Some? && s.disk.processing.Some?) by {
      OneFile(s);
    }
    forall id ensures CallsFor(s.past.calls, id) <= 2 {
      assert AtMostTwice(s.past.claimed, s.past.calls, id);
    }
    forall i | 0 <= i < |s.past.calls|
      ensures s.past.calls[i].r.action == Activate && s.past.calls[i].committed == Some(s.past.calls[i].r.expectedEpoch)
    {
      assert Justified(s.past.claimed, s.past.calls[i]);
    }
  }

  lemma OneFile(s: State)
    requires FilesApart(s)
    ensures !(s.disk.request.Some? && s.disk.processing.Some?)
  {
  }

  /** The supervisor serves the request `id`: from the claim to the publication of its outcome. */
  predicate Serves(s: State, id: nat) {
    Serving(s.sup.at) && s.disk.processing.Some? && s.disk.processing.value.id == id
  }

  /** Once a claimed request is not being served any more, because it is finished or a crash
      interrupted it, no later step serves it. */
  lemma NotServedAgain(s: State, a: Step, id: nat)
    requires Invariant(s) && id in s.past.claimed && !Serves(s, id)
    ensures id in Next(s, a).past.claimed && !Serves(Next(s, a), id)
  {
    InvariantParts(s);
    hide CopyTells, EpochsRise, Publishes, Fenced, Admitted, Finished, Unlinks, Filed, CallsCounted, GateTells, RecoveryApart;
    hide TickNext, ProcessNext, ActivationNext, AdmissionNext, GateNext;
    match a
    case SupervisorStep(ok, up) =>
      TickClaims(s);
      TickServes(s);
      ActivationFrame(s, ok, up);
      ProcessFrame(s, ok);
    case AdmissionStep(_, _, _, _, _, _) => AdmissionFrame(s, a);
    case GateStep(_, _, _, _) => GateFrame(s, a);
    case _ =>
  }

  lemma {:induction false} ClaimedNotServedAgain(s: State, steps: seq<Step>, id: nat)
    requires Invariant(s) && id in s.past.claimed && !Serves(s, id)
    ensures !Serves(Run(s, steps), id) && id in Run(s, steps).past.claimed && Invariant(Run(s, steps))
  {
    if steps != [] {
      var rest, last := steps[..|steps| - 1], steps[|steps| - 1];
      ClaimedNotServedAgain(s, rest, id);
      hide Invariant, Next, Serves;
      NotServedAgain(Run(s, rest), last, id);
      InvariantStep(Run(s, rest), last);
    }
  }

  /** A crash abandons the request being served for good. */
  lemma InterruptedIsAbandoned(before: seq<Step>, after: seq<Step>, id: nat)
    requires Serves(Run(INITIAL, before), id)
    ensures !Serves(Run(Crashed(Run(INITIAL, before)), after), id)
  {
    var s := Run(INITIAL, before);
    RunKeepsInvariant(before);
    InvariantStep(s, Crash);
    assert Next(s, Crash) == Crashed(s);
    InvariantParts(s);
    assert id in s.past.claimed;
    ClaimedNotServedAgain(Crashed(s), after, id);
  }

  function SessionOf(c: Config): Session { Session(c.source, c.epoch) }

  /** If the committed session changes, it is to one whose start was reported. */
  ghost predicate CommitsStarted(s: State, n: State) {
    s.disk.config.Some? ==>
      (n.disk.config.Some? && (SessionOf(n.disk.config.value) != SessionOf(s.disk.config.value) ==> SessionOf(n.disk.config.value) in n.past.started))
  }

  lemma TickCommits(s: State)
    requires CopyTells(s)
    ensures CommitsStarted(s, TickNext(s))
  {
  }

  lemma ProcessCommits(s: State, ok: bool)
    requires CopyTells(s)
    ensures CommitsStarted(s, ProcessNext(s, ok))
  {
  }

  lemma ActivationCommits(s: State, ok: bool, up: bool)
    requires CopyTells(s)
    ensures CommitsStarted(s, ActivationNext(s, ok, up))
  {
  }

  /** Once there is a committed configuration, its source and epoch change only in a step of the
      supervisor and only to a pair for which the starter succeeded. */
  lemma OnlyStartedIsCommitted(steps: seq<Step>, a: Step)
    ensures var s := Run(INITIAL, steps);
            CommitsStarted(s, Next(s, a)) && (!a.SupervisorStep? ==> Next(s, a).disk.config == s.disk.config)
  {
    var s := Run(INITIAL, steps);
    RunKeepsInvariant(steps);
    InvariantParts(s);
    hide TickNext, ProcessNext, ActivationNext, AdmissionNext, GateNext, Run, Invariant;
    match a
    case SupervisorStep(ok, up) =>
      TickCommits(s);
      ProcessCommits(s, ok);
      ActivationCommits(s, ok, up);
    case AdmissionStep(_, _, _, _, _, _) => AdmissionFrame(s, a);
    case GateStep(_, _, _, _) => GateFrame(s, a);
    case _ =>
  }

  /** A failed activation leaves the committed configuration as it was, but for a new epoch if the
      rollback restarted the old bridge. */
  lemma FailedActivationRestores(steps: seq<Step>, ok: bool, up: bool)
    requires Run(INITIAL, steps).sup.at == SavingRestored
    ensures var s := Run(INITIAL, steps); var n := Next(s, SupervisorStep(ok, up));
            && s.disk.config.Some?
            && n.disk.config == Some(s.disk.config.value.(epoch := n.disk.config.value.epoch))
            && (!s.sup.reported ==> n.disk.config == s.disk.config)
  {
    RunKeepsInvariant(steps);
    InvariantParts(Run(INITIAL, steps));
    hide DeskKnows, FilesApart, EpochsRise, Publishes, Fenced, Numbered, Admitted, Finished, Unlinks, Filed, CallsCounted, GateTells, RecoveryApart, Run;
  }

  /** A positive answer of the gate: when processing.json was read, no activation was between claim
      and published outcome, every activation admitted before request.json was read was finished,
      the checker, the heartbeat and the published session agree, and every bridge newer than the
      checker's that was up when the evaluation started is an orphan. */
  lemma ReadyIsFenced(steps: seq<Step>, a: Step)
    requires Run(INITIAL, steps).gate.at == PassedProcessing && Next(Run(INITIAL, steps), a).gate.at == Ready
    ensures var s := Run(INITIAL, steps); var g := Next(s, a).gate;
            && g.open == {} && g.before <= s.past.finished
            && s.disk.status.Some? && g.checker == g.beat == Session(s.disk.status.value.source, s.disk.status.value.epoch)
            && !(s.disk.status.value.job.Active() && s.disk.status.value.job.activates)
            && (forall u :: u in g.up && u > g.checker.epoch ==> u in s.past.orphans)
  {
    var s := Run(INITIAL, steps);
    RunKeepsInvariant(steps);
    InvariantParts(s);
    hide DeskKnows, FilesApart, CopyTells, EpochsRise, Publishes, Fenced, Numbered, Admitted, Finished, Unlinks, Filed, CallsCounted, RecoveryApart, Run;
    match a
    case SupervisorStep(ok, up) =>
      ActivationFrame(s, ok, up);
      ProcessFrame(s, ok);
    case AdmissionStep(_, _, _, _, _, _) => AdmissionFrame(s, a);
    case GateStep(_, _, _, _) =>
      forall u | u in s.gate.up ensures Superseded(s, u) {
      }
    case _ =>
  }

  /** A step after which no bridge is up that nobody will commit. */
  predicate Orderly(a: Step) { a != Crash && !a.LateStart? && a != SupervisorStep(false, true) }

  lemma {:induction false} OrderlyLosesNothing(steps: seq<Step>)
    requires forall a :: a in steps ==> Orderly(a)
    ensures Run(INITIAL, steps).past.orphans == {}
  {
    if steps != [] {
      var rest, a := steps[..|steps| - 1], steps[|steps| - 1];
      OrderlyLosesNothing(rest);
      var s := Run(INITIAL, rest);
      assert Orderly(a);
      hide Run;
      match a
      case SupervisorStep(ok, up) =>
        ProcessFrame(s, ok);
      case AdmissionStep(_, _, _, _, _, _) => AdmissionFrame(s, a);
      case GateStep(_, _, _, _) => GateFrame(s, a);
      case _ =>
    }
  }

  /** A checker of an old session that starts to evaluate the gate after a newer bridge came up never
      gets a positive answer, unless that bridge is an orphan. */
  lemma OldSessionNeverReady(steps: seq<Step>, u: Epoch)
    requires Run(INITIAL, steps).gate.at == Ready && u in Run(INITIAL, steps).gate.up && u !in Run(INITIAL, steps).past.orphans
    ensures u <= Run(INITIAL, steps).gate.checker.epoch
  {
    RunKeepsInvariant(steps);
    InvariantParts(Run(INITIAL, steps));
    hide DeskKnows, FilesApart, CopyTells, EpochsRise, Publishes, Fenced, Numbered, Admitted, Finished, Unlinks, Filed, CallsCounted, RecoveryApart, Run;
  }

  /** So without crashes and with a starter that tells the truth and in time, it never does. */
  lemma OrderlyOldSessionNeverReady(steps: seq<Step>, u: Epoch)
    requires forall a :: a in steps ==> Orderly(a)
    requires Run(INITIAL, steps).gate.at == Ready && u in Run(INITIAL, steps).gate.up
    ensures u <= Run(INITIAL, steps).gate.checker.epoch
  {
    OrderlyLosesNothing(steps);
    OldSessionNeverReady(steps, u);
  }

  /** No activation is asked for, claimed or announced. */
  predicate Quiet(s: State) {
    && !Activating(s.disk.request) && !Activating(s.disk.processing)
    && (s.disk.status.Some? ==> !(s.disk.status.value.job.Active() && s.disk.status.value.job.activates))
  }

  /** A bridge is up that is newer than the published session. */
  predicate NewerIsUp(s: State, u: Epoch) {
    s.disk.status.Some? && u in UpEpochs(s.past) && u > s.disk.status.value.epoch
  }

  lemma QuietNewerIsOrphan(steps: seq<Step>, u: Epoch)
    requires Quiet(Run(INITIAL, steps)) && NewerIsUp(Run(INITIAL, steps), u)
    ensures u in Run(INITIAL, steps).past.orphans
  {
    RunKeepsInvariant(steps);
    InvariantParts(Run(INITIAL, steps));
    UpIsSuperseded(Run(INITIAL, steps), u);
  }

  /** An evaluation by the checker of a session with its own heartbeat. */
  function EvaluationBy(session: Session): seq<Step> {
    var e := GateStep(true, session, session, true);
    [e, e, e, e]
  }

  lemma {:induction false} RunAppend(s: State, a: seq<Step>, b: seq<Step>)
    ensures Run(s, a + b) == Run(Run(s, a), b)
  {
    if b == [] {
      assert a + b == a;
    } else {
      RunAppend(s, a, b[..|b| - 1]);
      assert (a + b)[..|a + b| - 1] == a + b[..|b| - 1];
    }
  }

  lemma RunFour(s: State, a: Step, b: Step, c: Step, d: Step)
    ensures Run(s, [a, b, c, d]) == Next(Next(Next(Next(s, a), b), c), d)
  {
    hide Next;
    var four, three, two, one := [a, b, c, d], [a, b, c], [a, b], [a];
    assert four[..3] == three && three[..2] == two && two[..1] == one && one[..0] == [];
    assert Run(s, one) == Next(Run(s, []), a);
    assert Run(s, two) == Next(Run(s, one), b);
    assert Run(s, three) == Next(Run(s, two), c);
  }

  lemma EvaluatesToReady(s: State, session: Session)
    requires s.gate.at == NoEvaluation && Quiet(s) && s.disk.status.Some?
    requires session == Session(s.disk.status.value.source, s.disk.status.value.epoch)
    ensures Run(s, EvaluationBy(session)) == s.(gate := Gate(Ready, session, session, UpEpochs(s.past), s.past.admitted, Open(s.past)))
  {
    var e := GateStep(true, session, session, true);
    var a := s.(gate := Gate(ReadHeartbeat, session, session, UpEpochs(s.past), {}, {}));
    var b := s.(gate := Gate(PassedRequest, session, session, UpEpochs(s.past), s.past.admitted, {}));
    assert Next(s, e) == a && Next(a, e) == b;
    var c := s.(gate := Gate(PassedProcessing, session, session, UpEpochs(s.past), s.past.admitted, Open(s.past)));
    assert Next(b, e) == c && Next(c, e) == s.(gate := c.gate.(at := Ready));
    hide Next;
    RunFour(s, e, e, e, e);
  }

  /** The steps that an evaluation still has to take. */
  function StepsLeft(at: Passage): nat {
    match at
    case NoEvaluation => 0
    case Ready => 1
    case NotReady => 1
    case PassedProcessing => 2
    case PassedRequest => 3
    case ReadHeartbeat => 4
  }

  lemma GateProceeds(s: State, a: Step)
    requires a.GateStep? && s.gate.at != NoEvaluation
    ensures StepsLeft(Next(s, a).gate.at) < StepsLeft(s.gate.at) && Next(s, a) == s.(gate := Next(s, a).gate)
  {
  }

  /** An evaluation under way comes to its end, and touches nothing else. */
  lemma EvaluationEnds(s: State) returns (steps: seq<Step>)
    ensures (forall a :: a in steps ==> a.GateStep?) && Run(s, steps).gate.at == NoEvaluation && Run(s, steps) == s.(gate := Run(s, steps).gate)
    decreases StepsLeft(s.gate.at)
  {
    steps := [];
    if s.gate.at != NoEvaluation {
      var a := GateStep(true, s.gate.checker, s.gate.beat, true);
      GateProceeds(s, a);
      hide Next;
      var rest := EvaluationEnds(Next(s, a));
      assert [a][..0] == [] && Run(s, [a]) == Next(Run(s, []), a);
      RunAppend(s, [a], rest);
      steps := [a] + rest;
    }
  }

  /** Whenever a bridge newer than the published session is up and nothing is pending, the next
      evaluation by the published session's checker is positive; it takes steps of the gate only. */
  lemma OrphanLetsOldBeReady(s: State, u: Epoch) returns (steps: seq<Step>)
    requires Quiet(s) && NewerIsUp(s, u)
    ensures (forall a :: a in steps ==> a.GateStep?) && Run(s, steps) == s.(gate := Run(s, steps).gate)
    ensures var g := Run(s, steps).gate;
            && g.at == Ready && g.checker == g.beat == Session(s.disk.status.value.source, s.disk.status.value.epoch)
            && u in g.up && u > g.checker.epoch
  {
    var session := Session(s.disk.status.value.source, s.disk.status.value.epoch);
    var before := EvaluationEnds(s);
    hide Next;
    EvaluatesToReady(Run(s, before), session);
    RunAppend(s, before, EvaluationBy(session));
    steps := before + EvaluationBy(session);
  }

  // ---- a crash between the start of a bridge and its commit ----

  const TICK: Step := SupervisorStep(true, true)

  /** A user asks for the router while the phone is committed. */
  const ASK: Step := AdmissionStep(false, true, Activate, Router, "en8", 0)

  /** The checker of the first session, with its own heartbeat. */
  const OLD: Session := Session(Iphone, 0)

  const FIRST_TICK: seq<Step> := [TICK, TICK, TICK, TICK]
  const ADMISSION: seq<Step> := [ASK, ASK, ASK, ASK]
  const CLAIM: seq<Step> := [ASK, TICK, TICK, TICK]
  const SWITCH: seq<Step> := [TICK, TICK, TICK, TICK]
  const INTERRUPT: seq<Step> := [TICK, TICK, Crash, TICK]
  const RECOVER: seq<Step> := [TICK, TICK, TICK, TICK]

  const LOST: seq<Step> := FIRST_TICK + ADMISSION + CLAIM + SWITCH + INTERRUPT + RECOVER + EvaluationBy(OLD)

  const FIRST: Config := Config(Iphone, 0, DEFAULTS)
  const ASKED: Request := Request(0, Activate, Router, "en8", 0)
  const RESTED: Status := Status(Iphone, 0, Job(Idle, false))

  function Moved(s: State, at: Position): State { s.(sup := s.sup.(at := at)) }

  /** The states between the parts of the run. */
  const TICKED: State :=
    INITIAL.(disk := INITIAL.disk.(config := Some(FIRST), status := Some(RESTED)), sup := INITIAL.sup.(config := FIRST), nextEpoch := 1)
  const DECIDING: State := TICKED.(web := Web(Admitting, RESTED))
  const FOUND: State :=
    Moved(TICKED.(disk := TICKED.disk.(request := Some(ASKED)), web := Web(Waiting, RESTED), nextID := 1,
                  past := TICKED.past.(admitted := {0})), LookingForRequest)
  const CLAIMED: State :=
    FOUND.(disk := FOUND.disk.(request := None, processing := Some(ASKED), status := Some(Status(Iphone, 0, Job(Running, true)))),
           sup := FOUND.sup.(at := Switching, r := ASKED), past := FOUND.past.(claimed := [0], passed := {0}, found := Some(FIRST)))
  const INTERRUPTED: State :=
    CLAIMED.(sup := CLAIMED.sup.(at := SavingConfig, drawn := 1, reported := true), nextEpoch := 2,
             past := CLAIMED.past.(ups := {Session(Router, 1)}, started := {Session(Router, 1)}, orphans := {1}, calls := [Call(ASKED, Router, "en8", 1, Some(0), true)]))
  const RECOVERED: State :=
    INTERRUPTED.(disk := INTERRUPTED.disk.(processing := None, status := Some(Status(Iphone, 0, Job(Failed, false)))),
                 sup := INTERRUPTED.sup.(at := Down), past := INTERRUPTED.past.(finished := {0}))

  lemma LostTick()
    ensures Run(INITIAL, FIRST_TICK) == TICKED
  {
    var a := INITIAL.(sup := INITIAL.sup.(at := SavingConfig, config := FIRST), nextEpoch := 1);
    var b := Moved(a.(disk := a.disk.(config := Some(FIRST))), LookingForProcessing);
    assert Next(INITIAL, TICK) == a && Next(a, TICK) == b;
    var c := Moved(b, LookingForRequest);
    assert Next(b, TICK) == c && Next(c, TICK) == TICKED;
    hide Next;
    RunFour(INITIAL, TICK, TICK, TICK, TICK);
  }

  lemma LostAdmission()
    ensures Run(TICKED, ADMISSION) == DECIDING
  {
    var a := TICKED.(web := Web(ReadStatus, RESTED));
    var b := TICKED.(web := Web(SawNoRequest, RESTED));
    assert Next(TICKED, ASK) == a && Next(a, ASK) == b;
    var c := TICKED.(web := Web(SawNoProcessing, RESTED));
    assert Next(b, ASK) == c && Next(c, ASK) == DECIDING;
    hide Next;
    RunFour(TICKED, ASK, ASK, ASK, ASK);
  }

  lemma LostClaim()
    ensures Run(DECIDING, CLAIM) == FOUND
  {
    var a := Moved(FOUND, Down);
    assert Next(DECIDING, ASK) == a;
    var b := Moved(FOUND, SavingConfig);
    assert Next(a, TICK) == b;
    var c := Moved(FOUND, LookingForProcessing);
    assert Next(b, TICK) == c && Next(c, TICK) == FOUND;
    hide Next;
    RunFour(DECIDING, ASK, TICK, TICK, TICK);
  }

  lemma LostSwitch()
    ensures Run(FOUND, SWITCH) == CLAIMED
  {
    var a := Moved(FOUND, Claiming);
    var b := Moved(FOUND, Announcing).(disk := FOUND.disk.(request := None, processing := Some(ASKED)), past := FOUND.past.(claimed := [0], found := Some(FIRST)));
    assert Next(FOUND, TICK) == a && Next(a, TICK) == b;
    var c := Moved(CLAIMED, Checking).(past := b.past);
    assert Next(b, TICK) == c && Next(c, TICK) == CLAIMED;
    hide Next;
    RunFour(FOUND, TICK, TICK, TICK, TICK);
  }

  lemma LostInterrupt()
    ensures Run(CLAIMED, INTERRUPT) == INTERRUPTED
  {
    var a := CLAIMED.(sup := CLAIMED.sup.(at := Starting, drawn := 1), nextEpoch := 2);
    assert Next(CLAIMED, TICK) == a;
    var b := Moved(INTERRUPTED, Started).(past := INTERRUPTED.past.(orphans := {}));
    assert Next(a, TICK) == b;
    var c := Moved(INTERRUPTED, Down);
    assert Next(b, Crash) == c && Next(c, TICK) == INTERRUPTED;
    hide Next;
    RunFour(CLAIMED, TICK, TICK, Crash, TICK);
  }

  lemma LostRecover()
    ensures Run(INTERRUPTED, RECOVER) == RECOVERED
  {
    var a := Moved(INTERRUPTED, LookingForProcessing);
    var b := Moved(RECOVERED, UnlinkingStale).(disk := RECOVERED.disk.(processing := Some(ASKED)));
    assert Next(INTERRUPTED, TICK) == a && Next(a, TICK) == b;
    var c := Moved(RECOVERED, LookingForRequest);
    assert Next(b, TICK) == c && Next(c, TICK) == RECOVERED;
    hide Next;
    RunFour(INTERRUPTED, TICK, TICK, TICK, TICK);
  }

  lemma LostEvaluation()
    ensures Run(RECOVERED, EvaluationBy(OLD)).gate == Gate(Ready, OLD, OLD, {1}, {0}, {})
  {
    assert UpEpochs(RECOVERED.past) == {1} && Open(RECOVERED.past) == {};
    EvaluatesToReady(RECOVERED, OLD);
  }

  /** When the supervisor crashes after a bridge came up and before it is committed, the session
      before it is published again, and its checker is told that it is ready while the newer
      bridge is up. */
  lemma LostBridgeReady()
    ensures Run(INITIAL, LOST).gate == Gate(Ready, OLD, OLD, {1}, {0}, {}) && 1 > OLD.epoch
  {
    hide Run, Next, TICKED, DECIDING, FOUND, CLAIMED, INTERRUPTED, RECOVERED;
    LostTick();
    LostAdmission();
    LostClaim();
    LostSwitch();
    LostInterrupt();
    LostRecover();
    LostEvaluation();
    RunAppend(INITIAL, FIRST_TICK, ADMISSION);
    RunAppend(INITIAL, FIRST_TICK + ADMISSION, CLAIM);
    RunAppend(INITIAL, FIRST_TICK + ADMISSION + CLAIM, SWITCH);
    RunAppend(INITIAL, FIRST_TICK + ADMISSION + CLAIM + SWITCH, INTERRUPT);
    RunAppend(INITIAL, FIRST_TICK + ADMISSION + CLAIM + SWITCH + INTERRUPT, RECOVER);
    RunAppend(INITIAL, FIRST_TICK + ADMISSION + CLAIM + SWITCH + INTERRUPT + RECOVER, EvaluationBy(OLD));
  }

  // ---- a starter that brings its bridge up and reports failure ----

  const UNREPORTED: Step := SupervisorStep(false, true)
  const REFUSED: Step := SupervisorStep(false, false)

  const FAIL: seq<Step> := [TICK, UNREPORTED, TICK, TICK]
  const ROLL_BACK: seq<Step> := [REFUSED, TICK, TICK, TICK]

  const LEFT_UP: seq<Step> := FIRST_TICK + ADMISSION + CLAIM + SWITCH + FAIL + ROLL_BACK + [TICK] + EvaluationBy(OLD)

  const FIRST_CALL: Call := Call(ASKED, Router, "en8", 1, Some(0), false)
  const SECOND_CALL: Call := Call(ASKED, Iphone, "en7", 2, Some(0), false)

  const STARTED: State :=
    CLAIMED.(sup := CLAIMED.sup.(at := Started, drawn := 1), nextEpoch := 2,
             past := CLAIMED.past.(ups := {Session(Router, 1)}, orphans := {1}, calls := [FIRST_CALL]))
  const RESTORING: State := STARTED.(sup := STARTED.sup.(at := RollingBack, drawn := 2), nextEpoch := 3)
  const REPORTED: State :=
    RESTORING.(disk := RESTORING.disk.(status := Some(Status(Iphone, 0, Job(Failed, true)))), sup := RESTORING.sup.(at := UnlinkingDone),
               past := RESTORING.past.(calls := [FIRST_CALL, SECOND_CALL], finished := {0}))
  const AT_REST: State := Moved(REPORTED, Down).(disk := REPORTED.disk.(processing := None))

  lemma LeftUpFails()
    ensures Run(CLAIMED, FAIL) == RESTORING
  {
    var a := CLAIMED.(sup := CLAIMED.sup.(at := Starting, drawn := 1), nextEpoch := 2);
    assert Next(CLAIMED, TICK) == a && Next(a, UNREPORTED) == STARTED;
    var c := Moved(STARTED, Restoring);
    assert Next(STARTED, TICK) == c && Next(c, TICK) == RESTORING;
    hide Next;
    RunFour(CLAIMED, TICK, UNREPORTED, TICK, TICK);
  }

  lemma LeftUpRollsBack()
    ensures Run(RESTORING, ROLL_BACK) == REPORTED
  {
    var calls := [FIRST_CALL, SECOND_CALL];
    var a := Moved(RESTORING, RolledBack).(past := RESTORING.past.(calls := calls));
    var b := Moved(a, SavingRestored);
    assert Next(RESTORING, REFUSED) == a && Next(a, TICK) == b;
    var c := Moved(a, Finishing);
    assert Next(b, TICK) == c && Next(c, TICK) == REPORTED;
    hide Next;
    RunFour(RESTORING, REFUSED, TICK, TICK, TICK);
  }

  lemma LeftUpRests()
    ensures Run(REPORTED, [TICK]) == AT_REST
  {
    assert Next(REPORTED, TICK) == AT_REST;
    hide Next;
    assert [TICK][..0] == [] && Run(REPORTED, [TICK]) == Next(Run(REPORTED, []), TICK);
  }

  lemma LeftUpEvaluation()
    ensures Run(AT_REST, EvaluationBy(OLD)).gate == Gate(Ready, OLD, OLD, {1}, {0}, {})
  {
    assert UpEpochs(AT_REST.past) == {1} && Open(AT_REST.past) == {};
    EvaluatesToReady(AT_REST, OLD);
  }

  /** The same without a crash: the starter brings the new bridge up and then reports failure, for
      example at its time limit, and the rollback fails. */
  lemma LeftUpReady()
    ensures Crash !in LEFT_UP && Run(INITIAL, LEFT_UP).gate == Gate(Ready, OLD, OLD, {1}, {0}, {}) && 1 > OLD.epoch
  {
    hide Run, Next, TICKED, DECIDING, FOUND, CLAIMED, RESTORING, REPORTED, AT_REST;
    LostTick();
    LostAdmission();
    LostClaim();
    LostSwitch();
    LeftUpFails();
    LeftUpRollsBack();
    LeftUpRests();
    LeftUpEvaluation();
    RunAppend(INITIAL, FIRST_TICK, ADMISSION);
    RunAppend(INITIAL, FIRST_TICK + ADMISSION, CLAIM);
    RunAppend(INITIAL, FIRST_TICK + ADMISSION + CLAIM, SWITCH);
    RunAppend(INITIAL, FIRST_TICK + ADMISSION + CLAIM + SWITCH, FAIL);
    RunAppend(INITIAL, FIRST_TICK + ADMISSION + CLAIM + SWITCH + FAIL, ROLL_BACK);
    RunAppend(INITIAL, FIRST_TICK + ADMISSION + CLAIM + SWITCH + FAIL + ROLL_BACK, [TICK]);
    RunAppend(INITIAL, FIRST_TICK + ADMISSION + CLAIM + SWITCH + FAIL + ROLL_BACK + [TICK], EvaluationBy(OLD));
  }
}
