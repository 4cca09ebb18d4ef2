/** What the file protocol of the network source tells its users: the outcome that is published for a
    request, the session that is published, which requests are admitted, and when the gate opens. */
module SourceOutcome {
  import opened SourceSwitch

  // ---- the outcome of a request ----

  /** The calls of the starter for a request. */
  function CallsOf(calls: seq<Call>, id: nat): seq<Call> {
    if calls == [] then []
    else CallsOf(calls[..|calls| - 1], id) + (if calls[|calls| - 1].r.id == id then [calls[|calls| - 1]] else [])
  }

  lemma {:induction false} CallsOfCount(calls: seq<Call>, id: nat)
    ensures |CallsOf(calls, id)| == CallsFor(calls, id)
  {
    if calls != [] {
      CallsOfCount(calls[..|calls| - 1], id);
    }
  }

  lemma CallsOfAppend(calls: seq<Call>, c: Call, id: nat)
    ensures CallsOf(calls + [c], id) == if c.r.id == id then CallsOf(calls, id) + [c] else CallsOf(calls, id)
  {
    assert (calls + [c])[..|calls|] == calls;
  }

  /** The call starts what the request asks for. */
  predicate Starts(c: Call, r: Request) { c.source == r.source && c.interface == r.interface }

  /** The call starts what was committed before. */
  predicate Restarts(c: Call, found: Config) { c.source == found.source && c.interface == InterfaceOf(found, found.source) }

  function Reconfigured(found: Config, r: Request): Config {
    found.(interfaces := found.interfaces[r.source := r.interface])
  }

  /** How a request ends that found a configuration: `passed` its checks, with these calls of the
      starter, this configuration committed at the end, and this outcome. */
  predicate Concludes(r: Request, found: Config, passed: bool, calls: seq<Call>, config: Config, succeeded: bool) {
    if !passed then !succeeded && calls == [] && config == found
    else
      && r.expectedEpoch == found.epoch
      && match r.action
         case Validate => succeeded && calls == [] && config == found
         case Configure => succeeded && calls == [] && r.source != found.source && config == Reconfigured(found, r)
         case Activate => calls != [] && Starts(calls[0], r) && succeeded == calls[0].ok && Activates(r, found, calls, config)
  }

  predicate Activates(r: Request, found: Config, calls: seq<Call>, config: Config)
    requires calls != []
  {
    if calls[0].ok then |calls| == 1 && config == Config(r.source, calls[0].drawn, found.interfaces[r.source := r.interface])
    else |calls| == 2 && Restarts(calls[1], found) && config == if calls[1].ok then found.(epoch := calls[1].drawn) else found
  }

  /** What is known of the request being served at each position of the supervisor. */
  predicate Progress(v: Supervisor, found: Config, passed: bool, calls: seq<Call>, config: Option<Config>) {
    match v.at
    case Checking => !passed && calls == [] && config == Some(found)
    case SavingInterface =>
      passed && calls == [] && config == Some(found) && v.r.action == Configure && v.r.source != found.source && v.r.expectedEpoch == found.epoch
    case Switching => Underway(v, found, passed, config) && calls == []
    case Starting => Underway(v, found, passed, config) && calls == []
    case Started => Underway(v, found, passed, config) && |calls| == 1 && Starts(calls[0], v.r) && calls[0].drawn == v.drawn && calls[0].ok == v.reported
    case Committing => Underway(v, found, passed, config) && |calls| == 1 && Starts(calls[0], v.r) && calls[0].ok && Activates(v.r, found, calls, v.config)
    case Restoring => Underway(v, found, passed, config) && |calls| == 1 && Starts(calls[0], v.r) && !calls[0].ok
    case RollingBack => Underway(v, found, passed, config) && |calls| == 1 && Starts(calls[0], v.r) && !calls[0].ok
    case RolledBack =>
      && Underway(v, found, passed, config) && |calls| == 2 && Starts(calls[0], v.r) && !calls[0].ok
      && Restarts(calls[1], found) && calls[1].drawn == v.drawn && calls[1].ok == v.reported
    case SavingRestored =>
      Underway(v, found, passed, config) && |calls| == 2 && Starts(calls[0], v.r) && !calls[0].ok && Activates(v.r, found, calls, v.config)
    case Finishing => config == Some(v.config) && Concludes(v.r, found, passed, calls, v.config, v.ok)
    case _ => true
  }

  predicate Underway(v: Supervisor, found: Config, passed: bool, config: Option<Config>) {
    passed && v.r.action == Activate && v.r.expectedEpoch == found.epoch && config == Some(found)
  }

  ghost predicate Told(s: State) {
    && (forall id :: id in s.past.passed ==> id in s.past.claimed)
    && (Serving(s.sup.at) ==> s.past.found.Some?)
    && (s.sup.at == Announcing ==> s.disk.processing.Some? && NotStarted(s, s.disk.processing.value.id))
    && (Holding(s.sup.at) ==> Progress(s.sup, s.past.found.value, s.sup.r.id in s.past.passed, CallsOf(s.past.calls, s.sup.r.id), s.disk.config))
  }

  predicate NotStarted(s: State, id: nat) {
    id !in s.past.passed && CallsOf(s.past.calls, id) == [] && s.disk.config == s.past.found
  }

  /** A tick leaves the checks and the calls alone; the claim remembers the configuration. */
  lemma TickFinds(s: State)
    requires CopyTells(s)
    ensures var n := TickNext(s);
            && n.past.passed == s.past.passed && n.past.calls == s.past.calls
            && (n.sup.at == Announcing && s.sup.at == Claiming ==> n.past.found == n.disk.config == s.disk.config && n.disk.config.Some?)
  {
  }

  lemma ToldTick(s: State)
    requires FilesApart(s) && CopyTells(s) && Numbered(s) && CallsCounted(s) && Told(s)
    ensures Told(TickNext(s))
  {
    TickServes(s);
    TickClaims(s);
    TickFinds(s);
    hide TickNext, FilesApart, CopyTells;
    var n := TickNext(s);
    if Serving(n.sup.at) && !Serving(s.sup.at) {
      var id := s.disk.request.value.id;
      assert AtMostTwice(s.past.claimed, s.past.calls, id);
      CallsOfCount(s.past.calls, id);
    }
  }

  lemma ToldProcess(s: State, ok: bool)
    requires FilesApart(s) && CopyTells(s) && Admitted(s) && Told(s)
    ensures Told(ProcessNext(s, ok))
  {
    hide CallsOf;
  }

  /** A call of the starter goes on with the request, and ... */
  lemma ProgressCall(s: State, ok: bool, up: bool, calls: seq<Call>)
    requires CopyTells(s) && (s.sup.at == Starting || s.sup.at == RollingBack)
    requires s.past.found.Some? && Progress(s.sup, s.past.found.value, s.sup.r.id in s.past.passed, calls, s.disk.config)
    ensures var n := ActivationNext(s, ok, up);
            && |n.past.calls| == |s.past.calls| + 1 && n.past.calls == s.past.calls + [n.past.calls[|s.past.calls|]]
            && n.past.calls[|s.past.calls|].r == s.sup.r
            && Progress(n.sup, s.past.found.value, s.sup.r.id in s.past.passed, calls + [n.past.calls[|s.past.calls|]], n.disk.config)
            && n.sup.r == s.sup.r
  {
  }

  /** ... so does every other step of an activation. */
  lemma ProgressOther(s: State, ok: bool, up: bool, calls: seq<Call>)
    requires CopyTells(s) && InActivation(s.sup.at) && s.sup.at != Starting && s.sup.at != RollingBack
    requires s.past.found.Some? && Progress(s.sup, s.past.found.value, s.sup.r.id in s.past.passed, calls, s.disk.config)
    ensures var n := ActivationNext(s, ok, up);
            && n.past.calls == s.past.calls && n.sup.r == s.sup.r
            && Progress(n.sup, s.past.found.value, s.sup.r.id in s.past.passed, calls, n.disk.config)
  {
  }

  lemma ProgressActivation(s: State, ok: bool, up: bool)
    requires CopyTells(s) && InActivation(s.sup.at) && s.past.found.Some?
    requires Progress(s.sup, s.past.found.value, s.sup.r.id in s.past.passed, CallsOf(s.past.calls, s.sup.r.id), s.disk.config)
    ensures var n := ActivationNext(s, ok, up);
            && Progress(n.sup, s.past.found.value, s.sup.r.id in s.past.passed, CallsOf(n.past.calls, s.sup.r.id), n.disk.config)
            && n.sup.r == s.sup.r
  {
    hide CallsOf, ActivationNext, Progress, CopyTells;
    if s.sup.at == Starting || s.sup.at == RollingBack {
      ProgressCall(s, ok, up, CallsOf(s.past.calls, s.sup.r.id));
      CallsOfAppend(s.past.calls, ActivationNext(s, ok, up).past.calls[|s.past.calls|], s.sup.r.id);
    } else {
      ProgressOther(s, ok, up, CallsOf(s.past.calls, s.sup.r.id));
    }
  }

  lemma ToldActivation(s: State, ok: bool, up: bool)
    requires CopyTells(s) && InActivation(s.sup.at) && Told(s)
    ensures Told(ActivationNext(s, ok, up))
  {
    ActivationFrame(s, ok, up);
    ProgressActivation(s, ok, up);
    ActivationGoesOn(s, ok, up);
    hide ActivationNext, CopyTells, CallsOf;
  }

  lemma ActivationGoesOn(s: State, ok: bool, up: bool)
    requires InActivation(s.sup.at)
    ensures Holding(ActivationNext(s, ok, up).sup.at)
  {
  }

  lemma ToldStep(s: State, a: Step)
    requires Invariant(s) && Told(s)
    ensures Told(Next(s, a))
  {
    InvariantParts(s);
    hide Invariant, TickNext, ProcessNext, ActivationNext, AdmissionNext, GateNext, CopyTells, FilesApart, Admitted, CallsCounted, Progress, CallsOf;
    match a
    case SupervisorStep(ok, up) =>
      ToldTick(s);
      ToldProcess(s, ok);
      if InActivation(s.sup.at) {
        ToldActivation(s, ok, up);
      }
    case AdmissionStep(_, _, _, _, _, _) => AdmissionFrame(s, a);
    case GateStep(_, _, _, _) => GateFrame(s, a);
    case _ =>
  }

  lemma {:induction false} RunIsTold(steps: seq<Step>)
    ensures Told(Run(INITIAL, steps))
  {
    if steps != [] {
      var rest := steps[..|steps| - 1];
      RunIsTold(rest);
      RunKeepsInvariant(rest);
      hide Told, Invariant, Next;
      ToldStep(Run(INITIAL, rest), steps[|steps| - 1]);
    }
  }

  /** Over every run, at the step that publishes the outcome of a request: it is succeeded exactly if
      the request passed its checks and, for an activation, the first call of the starter, for the
      requested source and interface, succeeded.  The committed configuration is then the requested
      one, and otherwise the one that the request found, with a new epoch if a rollback restarted it. */
  lemma OutcomeTells(steps: seq<Step>, ok: bool, up: bool)
    requires Run(INITIAL, steps).sup.at == Finishing
    ensures var s := Run(INITIAL, steps); var n, r := Next(s, SupervisorStep(ok, up)), s.sup.r;
            var calls := CallsOf(s.past.calls, r.id);
            && s.disk.processing == Some(r) && s.past.found.Some? && s.disk.config.Some? && n.disk.config == s.disk.config && n.disk.status.Some?
            && (n.disk.status.value.job.state == Succeeded <==>
                  r.id in s.past.passed && (r.action == Activate ==> calls != [] && Starts(calls[0], r) && calls[0].ok))
            && (n.disk.status.value.job.state == Failed <==> n.disk.status.value.job.state != Succeeded)
            && n.disk.status.value.job.activates == (r.action == Activate)
            && Session(n.disk.status.value.source, n.disk.status.value.epoch) == SessionOf(s.disk.config.value)
            && Concludes(r, s.past.found.value, r.id in s.past.passed, calls, s.disk.config.value, n.disk.status.value.job.state == Succeeded)
            && n.past.finished == s.past.finished + {r.id}
  {
    var s := Run(INITIAL, steps);
    RunIsTold(steps);
    RunKeepsInvariant(steps);
    InvariantParts(s);
    hide Invariant, DeskKnows, RecoveryApart, CopyTells, EpochsRise, Publishes, Fenced, Numbered, Admitted, Finished, Unlinks, Filed, CallsCounted, GateTells, Run, CallsOf;
  }

  // ---- a switch that succeeds ----

  const SWITCHED: Config := Config(Router, 1, DEFAULTS[Router := "en8"])
  const COMMITTED: State :=
    CLAIMED.(disk := CLAIMED.disk.(config := Some(SWITCHED)),
             sup := CLAIMED.sup.(at := Finishing, config := SWITCHED, drawn := 1, reported := true, ok := true), nextEpoch := 2,
             past := CLAIMED.past.(ups := {Session(Router, 1)}, started := {Session(Router, 1)},
                                   calls := [Call(ASKED, Router, "en8", 1, Some(0), true)]))

  lemma SwitchCommits()
    ensures Run(CLAIMED, SWITCH) == COMMITTED
  {
    var a := CLAIMED.(sup := CLAIMED.sup.(at := Starting, drawn := 1), nextEpoch := 2);
    var b := a.(sup := a.sup.(at := Started, reported := true), past := COMMITTED.past);
    assert Next(CLAIMED, TICK) == a && Next(a, TICK) == b;
    var c := b.(sup := b.sup.(at := Committing, config := SWITCHED));
    assert Next(b, TICK) == c && Next(c, TICK) == COMMITTED;
    hide Next;
    RunFour(CLAIMED, TICK, TICK, TICK, TICK);
  }

  /** A run from the beginning in which the user's switch to the router is published as succeeded. */
  lemma SwitchSucceeds()
    ensures var n := Next(Run(INITIAL, FIRST_TICK + ADMISSION + CLAIM + SWITCH + SWITCH), TICK);
            n.disk.config == Some(SWITCHED) && n.disk.status == Some(Status(Router, 1, Job(Succeeded, true)))
  {
    assert Next(COMMITTED, TICK).disk.status == Some(Status(Router, 1, Job(Succeeded, true)));
    hide Run, Next, TICKED, DECIDING, FOUND, CLAIMED;
    LostTick();
    LostAdmission();
    LostClaim();
    LostSwitch();
    SwitchCommits();
    RunAppend(INITIAL, FIRST_TICK, ADMISSION);
    RunAppend(INITIAL, FIRST_TICK + ADMISSION, CLAIM);
    RunAppend(INITIAL, FIRST_TICK + ADMISSION + CLAIM, SWITCH);
    RunAppend(INITIAL, FIRST_TICK + ADMISSION + CLAIM + SWITCH, SWITCH);
  }

  /** A succeeded adapter change changed the interface of the requested source, which is not the
      active one, and nothing else; a validation, whatever its outcome, changed nothing. */
  lemma ConfigureChangesOne(steps: seq<Step>, ok: bool, up: bool)
    requires Run(INITIAL, steps).sup.at == Finishing && Run(INITIAL, steps).sup.r.action != Activate
    ensures var s := Run(INITIAL, steps); var n, r := Next(s, SupervisorStep(ok, up)), s.sup.r;
            && s.past.found.Some? && n.disk.config.Some? && n.disk.status.Some?
            && CallsOf(s.past.calls, r.id) == []
            && n.disk.config.value.source == s.past.found.value.source && n.disk.config.value.epoch == s.past.found.value.epoch
            && (forall x :: x != r.source ==>
                  (x in n.disk.config.value.interfaces <==> x in s.past.found.value.interfaces)
                  && InterfaceOf(n.disk.config.value, x) == InterfaceOf(s.past.found.value, x))
            && (r.action == Configure && n.disk.status.value.job.state == Succeeded ==>
                  r.source != s.past.found.value.source && r.source in n.disk.config.value.interfaces
                  && n.disk.config.value.interfaces[r.source] == r.interface)
            && (r.action == Validate || n.disk.status.value.job.state != Succeeded ==> n.disk.config == s.past.found)
  {
    OutcomeTells(steps, ok, up);
    hide Run, Next, CallsOf;
  }

  /** The checks: a request passes exactly if the other checks do, it expects the committed epoch, and
      it does not change the adapter of the active source in passing.  The configuration it finds is
      the one committed when it is claimed. */
  lemma ChecksPassIff(steps: seq<Step>, a: Step)
    ensures var s := Run(INITIAL, steps); var n := Next(s, a);
            && (forall id :: id in n.past.passed <==>
                  id in s.past.passed || (a.SupervisorStep? && s.sup.at == Checking && id == s.sup.r.id && Admissible(s, a.ok)))
            && (n.past.found != s.past.found ==> s.sup.at == Claiming && n.past.found == s.disk.config)
            && (s.sup.at == Claiming && a.SupervisorStep? && n.past.claimed != s.past.claimed ==> n.past.found == s.disk.config)
  {
    var s := Run(INITIAL, steps);
    RunKeepsInvariant(steps);
    InvariantParts(s);
    hide Invariant, DeskKnows, RecoveryApart, EpochsRise, Publishes, Fenced, Numbered, Admitted, Finished, Unlinks, Filed, CallsCounted, GateTells, Run;
    hide TickNext, ProcessNext, ActivationNext, AdmissionNext, GateNext;
    match a
    case SupervisorStep(ok, up) =>
      TickPasses(s);
      ProcessPasses(s, ok);
      ActivationFrame(s, ok, up);
    case AdmissionStep(_, _, _, _, _, _) => AdmissionFrame(s, a);
    case GateStep(_, _, _, _) => GateFrame(s, a);
    case _ =>
  }

  predicate Admissible(s: State, ok: bool) {
    ok && s.disk.config.Some? && s.sup.r.expectedEpoch == s.disk.config.value.epoch
    && !(s.sup.r.action == Configure && s.sup.r.source == s.disk.config.value.source)
  }

  lemma TickPasses(s: State)
    ensures var n := TickNext(s);
            && n.past.passed == s.past.passed && (n.past.found != s.past.found ==> s.sup.at == Claiming && n.past.found == s.disk.config)
            && (n.past.claimed != s.past.claimed ==> n.past.found == s.disk.config)
            && (Holding(s.sup.at) ==> n == s)
  {
  }

  lemma ProcessPasses(s: State, ok: bool)
    requires CopyTells(s)
    ensures var n := ProcessNext(s, ok);
            && n.past.passed == (if s.sup.at == Checking && Admissible(s, ok) then s.past.passed + {s.sup.r.id} else s.past.passed)
            && n.past.found == s.past.found && n.past.claimed == s.past.claimed
  {
  }

  // ---- what is published between outcomes ----

  /** The job in status.json changes only when a request is announced, when its activation starts or is
      rolled back, when its outcome is published, and when an interrupted one is found. */
  lemma JobChanges(s: State, a: Step)
    requires s.disk.status.Some?
    ensures var n := Next(s, a);
            && n.disk.status.Some?
            && (n.disk.status.value.job != s.disk.status.value.job ==>
                  a.SupervisorStep? &&
                  match s.sup.at
                  case Announcing => n.disk.status.value.job == Job(Running, Activating(s.disk.processing))
                  case Switching => n.disk.status.value.job == Job(Running, true)
                  case Restoring => n.disk.status.value.job == Job(Running, true)
                  case Finishing => n.sup.at == UnlinkingDone
                  case LookingForProcessing => s.disk.processing.Some? && n.disk.status.value.job == Job(Failed, false)
                  case _ => false)
  {
    hide TickNext, ProcessNext, ActivationNext, AdmissionNext, GateNext;
    match a
    case SupervisorStep(ok, up) =>
      TickJob(s);
      ProcessJob(s, ok);
      ActivationJob(s, ok, up);
    case AdmissionStep(_, _, _, _, _, _) => AdmissionFrame(s, a);
    case GateStep(_, _, _, _) => GateFrame(s, a);
    case _ =>
  }

  lemma TickJob(s: State)
    requires s.disk.status.Some?
    ensures var n := TickNext(s);
            && n.disk.status.Some?
            && (n.disk.status.value.job != s.disk.status.value.job ==>
                  s.sup.at == LookingForProcessing && s.disk.processing.Some? && n.disk.status.value.job == Job(Failed, false))
  {
  }

  lemma ProcessJob(s: State, ok: bool)
    requires s.disk.status.Some?
    ensures var n := ProcessNext(s, ok);
            && n.disk.status.Some?
            && (n.disk.status.value.job != s.disk.status.value.job ==>
                  (s.sup.at == Announcing && n.disk.status.value.job == Job(Running, Activating(s.disk.processing)))
                  || (s.sup.at == Finishing && n.sup.at == UnlinkingDone))
  {
  }

  lemma ActivationJob(s: State, ok: bool, up: bool)
    requires s.disk.status.Some?
    ensures var n := ActivationNext(s, ok, up);
            && n.disk.status.Some?
            && (n.disk.status.value.job != s.disk.status.value.job ==>
                  (s.sup.at == Switching || s.sup.at == Restoring) && n.disk.status.value.job == Job(Running, true))
  {
  }

  /** What is published with the committed epoch is the committed source, and a session about to be
      committed is newer than what is published. */
  predicate SessionsAgree(s: State) {
    && (s.disk.status.Some? && s.disk.config.Some? && s.disk.status.value.epoch == s.disk.config.value.epoch ==>
          s.disk.status.value.source == s.disk.config.value.source)
    && (s.sup.at == Committing && s.disk.status.Some? ==> s.disk.status.value.epoch < s.sup.config.epoch)
  }

  lemma AgreeTick(s: State)
    requires CopyTells(s) && EpochsRise(s) && SessionsAgree(s)
    ensures SessionsAgree(TickNext(s))
  {
  }

  lemma AgreeProcess(s: State, ok: bool)
    requires CopyTells(s) && EpochsRise(s) && SessionsAgree(s)
    ensures SessionsAgree(ProcessNext(s, ok))
  {
  }

  lemma AgreeActivation(s: State, ok: bool, up: bool)
    requires CopyTells(s) && EpochsRise(s) && SessionsAgree(s)
    ensures SessionsAgree(ActivationNext(s, ok, up))
  {
  }

  lemma AgreeStep(s: State, a: Step)
    requires CopyTells(s) && EpochsRise(s) && SessionsAgree(s)
    ensures SessionsAgree(Next(s, a))
  {
    hide TickNext, ProcessNext, ActivationNext, AdmissionNext, GateNext, CopyTells, EpochsRise;
    match a
    case SupervisorStep(ok, up) =>
      AgreeTick(s);
      AgreeProcess(s, ok);
      AgreeActivation(s, ok, up);
    case AdmissionStep(_, _, _, _, _, _) => AdmissionFrame(s, a);
    case GateStep(_, _, _, _) => GateFrame(s, a);
    case _ =>
  }

  lemma {:induction false} RunAgrees(steps: seq<Step>)
    ensures SessionsAgree(Run(INITIAL, steps))
  {
    if steps != [] {
      var rest := steps[..|steps| - 1];
      RunAgrees(rest);
      RunKeepsInvariant(rest);
      InvariantParts(Run(INITIAL, rest));
      hide SessionsAgree, Invariant, Next, DeskKnows, FilesApart, RecoveryApart, CopyTells, EpochsRise, Publishes, Fenced, Numbered, Admitted, Finished, Unlinks, Filed, CallsCounted, GateTells;
      AgreeStep(Run(INITIAL, rest), steps[|steps| - 1]);
    }
  }

  /** Over every run, while no activation is claimed the published session is the committed one. */
  lemma PublishedIsCommitted(steps: seq<Step>)
    requires var s := Run(INITIAL, steps); s.disk.status.Some? && !Activating(s.disk.processing)
    ensures var s := Run(INITIAL, steps);
            s.disk.config.Some? && Session(s.disk.status.value.source, s.disk.status.value.epoch) == SessionOf(s.disk.config.value)
  {
    RunAgrees(steps);
    RunKeepsInvariant(steps);
    InvariantParts(Run(INITIAL, steps));
    hide Invariant, DeskKnows, FilesApart, RecoveryApart, CopyTells, Publishes, Numbered, Admitted, Finished, Unlinks, Filed, CallsCounted, GateTells, Run;
  }

  // ---- who is admitted, and when the gate opens ----

  /** The dashboard sees a fresh status, no job under way and nothing pending. */
  predicate Free(s: State, a: Step)
    requires a.AdmissionStep?
  {
    && a.timely && s.disk.status.Some? && !s.disk.status.value.job.Active()
    && s.disk.request.None? && s.disk.processing.None? && !s.disk.recoveryRequest && !s.disk.recoveryActive
  }

  predicate MayAsk(s: State, a: Step)
    requires a.AdmissionStep?
  {
    && Free(s, a) && a.expectedEpoch == s.disk.status.value.epoch
    && !(a.action == Configure && a.source == s.disk.status.value.source)
  }

  function Repeated(a: Step, n: nat): seq<Step> { seq(n, i => a) }

  lemma RunRepeated(s: State, a: Step, n: nat)
    ensures Run(s, Repeated(a, n + 1)) == Next(Run(s, Repeated(a, n)), a)
    ensures Run(s, Repeated(a, 0)) == s
  {
    assert Repeated(a, n + 1)[..n] == Repeated(a, n);
  }

  lemma RunSeveral(s: State, a: Step)
    ensures Run(s, Repeated(a, 4)) == Next(Next(Next(Next(s, a), a), a), a)
    ensures Run(s, Repeated(a, 5)) == Next(Next(Next(Next(Next(s, a), a), a), a), a)
    ensures Run(s, Repeated(a, 6)) == Next(Next(Next(Next(Next(Next(s, a), a), a), a), a), a)
  {
    hide Run, Next;
    RunRepeated(s, a, 0);
    RunRepeated(s, a, 1);
    RunRepeated(s, a, 2);
    RunRepeated(s, a, 3);
    RunRepeated(s, a, 4);
    RunRepeated(s, a, 5);
  }

  /** Four looks: the dashboard is about to admit exactly if it found everything free. */
  lemma LooksFirst(s: State, a: Step)
    requires a.AdmissionStep? && !a.recovery && s.web.at == Waiting
    ensures var n := Next(Next(Next(Next(s, a), a), a), a);
            if Free(s, a) then n == s.(web := Web(Admitting, s.disk.status.value))
            else n == s.(web := n.web) && n.web.at in {Waiting, ReadStatus, SawNoRequest, SawNoProcessing}
  {
    var b := AdmissionNext(s, a);
    var c := AdmissionNext(b, a);
    var d := AdmissionNext(c, a);
  }

  lemma ThenAdmits(s: State, a: Step)
    requires a.AdmissionStep? && !a.recovery && s.web.at in {Waiting, ReadStatus, SawNoRequest, SawNoProcessing, Admitting}
    ensures var n := Next(s, a);
            if s.web.at == Admitting && s.disk.request.None? && a.expectedEpoch == s.web.snapshot.epoch
                && !(a.action == Configure && a.source == s.web.snapshot.source) then
              n.disk == s.disk.(request := Some(Request(s.nextID, a.action, a.source, a.interface, a.expectedEpoch))) && n.nextID == s.nextID + 1
            else n.disk == s.disk && n.nextID == s.nextID
  {
  }

  /** An undisturbed admission files the request exactly if nothing is pending, the user has seen the
      published epoch, and the adapter of the active source is not changed in passing. */
  lemma AdmissionFilesIff(s: State, a: Step)
    requires a.AdmissionStep? && !a.recovery && s.web.at == Waiting
    ensures var n := Run(s, Repeated(a, 5));
            if MayAsk(s, a) then
              n.disk == s.disk.(request := Some(Request(s.nextID, a.action, a.source, a.interface, a.expectedEpoch))) && n.nextID == s.nextID + 1
            else n.disk == s.disk && n.nextID == s.nextID
  {
    RunSeveral(s, a);
    LooksFirst(s, a);
    hide Run, Next;
    ThenAdmits(Next(Next(Next(Next(s, a), a), a), a), a);
  }

  /** The same for a reconnect, which is only for the phone. */
  lemma LooksAgain(s: State, a: Step)
    requires a.AdmissionStep? && a.recovery && s.web.at == Waiting
    ensures var n := Next(Next(Next(Next(s, a), a), a), a);
            if Free(s, a) && s.disk.status.value.source == Iphone then n == s.(web := s.web.(at := RecoveryAdmitting))
            else n == s.(web := n.web) && n.web.at in {Waiting, RecoveryReadStatus, RecoverySawNoRequest, RecoverySawNoProcessing}
  {
    var b := AdmissionNext(s, a);
    var c := AdmissionNext(b, a);
    var d := AdmissionNext(c, a);
  }

  lemma ThenQueues(s: State, a: Step)
    requires a.AdmissionStep? && a.recovery && s.web.at in {Waiting, RecoveryReadStatus, RecoverySawNoRequest, RecoverySawNoProcessing, RecoveryAdmitting}
    requires s.web.at == Waiting || s.web.at == RecoveryReadStatus || s.web.at == RecoverySawNoRequest ==> !Free(s, a) || s.disk.status.value.source != Iphone
    requires s.web.at == RecoverySawNoProcessing ==> s.disk.recoveryActive || s.disk.recoveryRequest
    ensures var n := Next(Next(s, a), a);
            n.disk == if s.web.at == RecoveryAdmitting then s.disk.(recoveryRequest := true, recoveryActive := true) else s.disk
  {
    var b := AdmissionNext(s, a);
  }

  /** An undisturbed reconnect is queued exactly if nothing is pending and the phone is published. */
  lemma ReconnectQueuedIff(s: State, a: Step)
    requires a.AdmissionStep? && a.recovery && s.web.at == Waiting
    ensures var n := Run(s, Repeated(a, 6));
            if Free(s, a) && s.disk.status.value.source == Iphone then n.disk == s.disk.(recoveryRequest := true, recoveryActive := true)
            else n.disk == s.disk
  {
    RunSeveral(s, a);
    LooksAgain(s, a);
    hide Run, Next;
    ThenQueues(Next(Next(Next(Next(s, a), a), a), a), a);
  }

  /** An undisturbed evaluation is positive exactly if the source is working, no activation is asked
      for, claimed or published as running, the status is fresh, and checker, heartbeat and published
      session agree. */
  lemma EvaluationIff(s: State, a: Step)
    requires a.GateStep? && s.gate.at == NoEvaluation
    ensures var n := Run(s, Repeated(a, 4));
            (n.gate.at == Ready && n.gate.checker == a.checker) <==>
              && a.beating && a.timely && Quiet(s) && s.disk.status.Some?
              && a.beat == a.checker == Session(s.disk.status.value.source, s.disk.status.value.epoch)
  {
    RunSeveral(s, a);
    var b := GateNext(s, a);
    var c := GateNext(b, a);
    var d := GateNext(c, a);
    hide Run, Open, UpEpochs;
  }
}
