/** The two readings of a diagnosis in checker/diagnosis.go: the verdict on a node and the verdict
    on each of its bindings, both drawn from the same probes. */
module Classifiers {
  const ATTEMPTS: nat := 3

  /** A binding of the diagnosed node; `sni` is its server name without surrounding space. */
  datatype Binding = Binding(stableID: string, port: int, udp: bool, tls: bool, sni: string)

  /** How often each probe succeeds. */
  datatype World = World(tunnel: Binding -> nat, connect: int -> nat, handshake: (int, string) -> nat)

  datatype PortReport = PortReport(port: int, udp: bool, attempts: nat, successes: nat)

  datatype TlsReport = TlsReport(port: int, serverName: string, attempts: nat, successes: nat)

  datatype BindingReport = BindingReport(stableID: string, attempts: nat, successes: nat)

  datatype Verdict = Healthy | Degraded | NetUnreachable | HandshakeFailed | TunnelFailed | Inconclusive

  datatype Report = Report(verdict: Verdict, ports: seq<PortReport>, tls: seq<TlsReport>, bindings: seq<BindingReport>)

  predicate ChecksTls(b: Binding) { !b.udp && b.tls && b.sni != "" }

  // ---- the direct probes ----

  /** A target: a network and a port. */
  type Target = (bool, int)

  function TargetOf(b: Binding): Target { (b.udp, b.port) }

  function PortReportOf(w: World, t: Target): PortReport {
    if t.0 then PortReport(t.1, true, 0, 0) else PortReport(t.1, false, ATTEMPTS, w.connect(t.1))
  }

  function TlsReportOf(w: World, port: int, name: string): TlsReport {
    TlsReport(port, name, ATTEMPTS, w.handshake(port, name))
  }

  function BindingReportOf(w: World, b: Binding): BindingReport {
    BindingReport(b.stableID, ATTEMPTS, w.tunnel(b))
  }

  /** Every port of the bindings is reported, and no other. */
  ghost predicate PortsCover(w: World, bindings: seq<Binding>, ports: seq<PortReport>) {
    && (forall b :: b in bindings ==> PortReportOf(w, TargetOf(b)) in ports)
    && (forall r :: r in ports ==> OfSomePort(w, bindings, r))
  }

  ghost predicate OfSomePort(w: World, bindings: seq<Binding>, r: PortReport) {
    exists b :: b in bindings && r == PortReportOf(w, TargetOf(b))
  }

  /** Every server name of a TCP port that accepts connections is reported, and nothing else. */
  ghost predicate TlsCovers(w: World, bindings: seq<Binding>, tls: seq<TlsReport>) {
    && (forall b :: b in bindings && Shakes(w, b) ==> TlsReportOf(w, b.port, b.sni) in tls)
    && (forall r :: r in tls ==> OfSomeName(w, bindings, r))
  }

  /** A server name of a port that accepts connections is tried. */
  predicate Shakes(w: World, b: Binding) { ChecksTls(b) && w.connect(b.port) > 0 }

  ghost predicate OfSomeName(w: World, bindings: seq<Binding>, r: TlsReport) {
    exists b :: b in bindings && Shakes(w, b) && r == TlsReportOf(w, b.port, b.sni)
  }

  /** The server names to try at each target. */
  ghost predicate TargetsOf(bindings: seq<Binding>, targets: map<Target, set<string>>) {
    && (forall t :: t in targets <==> exists b :: b in bindings && TargetOf(b) == t)
    && (forall t, name :: t in targets && name in targets[t] <==> exists b :: b in bindings && TargetOf(b) == t && ChecksTls(b) && b.sni == name)
  }

  lemma TargetsStep(bindings: seq<Binding>, targets: map<Target, set<string>>, b: Binding)
    requires TargetsOf(bindings, targets)
    ensures var names := if TargetOf(b) in targets then targets[TargetOf(b)] else {};
            TargetsOf(bindings + [b], targets[TargetOf(b) := if ChecksTls(b) then names + {b.sni} else names])
  {
    var names := if TargetOf(b) in targets then targets[TargetOf(b)] else {};
    var next := targets[TargetOf(b) := if ChecksTls(b) then names + {b.sni} else names];
    var all := bindings + [b];
    assert forall x :: x in all <==> x in bindings || x == b;
    forall t ensures t in next <==> exists x :: x in all && TargetOf(x) == t {
      if t == TargetOf(b) {
        assert b in all;
      }
    }
    forall t, name ensures t in next && name in next[t] <==> exists x :: x in all && TargetOf(x) == t && ChecksTls(x) && x.sni == name {
      if t == TargetOf(b) {
        assert b in all;
      }
    }
  }

  /** The first loop of runDirectDiagnostics. */
  method CollectTargets(bindings: seq<Binding>) returns (targets: map<Target, set<string>>)
    ensures TargetsOf(bindings, targets)
  {
    targets := map[];
    for i := 0 to |bindings|
      invariant TargetsOf(bindings[..i], targets)
    {
      var b := bindings[i];
      assert bindings[..i + 1] == bindings[..i] + [b];
      TargetsStep(bindings[..i], targets, b);
      var names := if TargetOf(b) in targets then targets[TargetOf(b)] else {};
      if !b.udp && b.tls && b.sni != "" {
        names := names + {b.sni};
      }
      targets := targets[TargetOf(b) := names];
    }
    assert bindings[..|bindings|] == bindings;
  }

  /** The probes of one target: the port, and behind a port that accepts connections every name. */
  method ProbeTarget(w: World, t: Target, names: set<string>) returns (port: PortReport, tls: seq<TlsReport>)
    ensures port == PortReportOf(w, t)
    ensures forall r :: r in tls <==> !t.0 && w.connect(t.1) > 0 && exists name :: name in names && r == TlsReportOf(w, t.1, name)
  {
    port := PortReportOf(w, t);
    tls := [];
    if !t.0 && port.successes > 0 {
      var pending := names;
      while pending != {}
        invariant pending <= names
        invariant forall r :: r in tls <==> exists name :: name in names - pending && r == TlsReportOf(w, t.1, name)
        decreases pending
      {
        var name :| name in pending;
        pending := pending - {name};
        tls := tls + [TlsReportOf(w, t.1, name)];
        assert names - pending == (names - pending - {name}) + {name};
      }
    }
  }

  /** What the goroutines have appended for the targets that are done. */
  ghost predicate Reported(w: World, targets: map<Target, set<string>>, done: set<Target>, ports: seq<PortReport>, tls: seq<TlsReport>) {
    && (forall r :: r in ports <==> exists t :: t in done && r == PortReportOf(w, t))
    && (forall r :: r in tls <==>
          exists t, name :: t in done && t in targets && !t.0 && w.connect(t.1) > 0 && name in targets[t] && r == TlsReportOf(w, t.1, name))
  }

  lemma ReportedStep(w: World, targets: map<Target, set<string>>, done: set<Target>, ports: seq<PortReport>, tls: seq<TlsReport>,
                     t: Target, localTls: seq<TlsReport>)
    requires Reported(w, targets, done, ports, tls) && t in targets
    requires forall r :: r in localTls <==> !t.0 && w.connect(t.1) > 0 && exists name :: name in targets[t] && r == TlsReportOf(w, t.1, name)
    ensures Reported(w, targets, done + {t}, ports + [PortReportOf(w, t)], tls + localTls)
  {
    forall r ensures r in ports + [PortReportOf(w, t)] <==> exists u :: u in done + {t} && r == PortReportOf(w, u) {
      if r == PortReportOf(w, t) {
        assert t in done + {t};
      }
    }
  }

  /** runDirectDiagnostics; the targets are probed in any order. */
  method RunDirectDiagnostics(w: World, bindings: seq<Binding>) returns (ports: seq<PortReport>, tls: seq<TlsReport>)
    ensures PortsCover(w, bindings, ports) && TlsCovers(w, bindings, tls)
  {
    var targets := CollectTargets(bindings);
    ports, tls := [], [];
    var pending := targets.Keys;
    while pending != {}
      invariant pending <= targets.Keys
      invariant Reported(w, targets, targets.Keys - pending, ports, tls)
      decreases pending
    {
      var t :| t in pending;
      var port, localTls := ProbeTarget(w, t, targets[t]);
      ReportedStep(w, targets, targets.Keys - pending, ports, tls, t, localTls);
      assert targets.Keys - (pending - {t}) == (targets.Keys - pending) + {t};
      pending := pending - {t};
      ports, tls := ports + [port], tls + localTls;
    }
    assert targets.Keys - {} == targets.Keys;
    ReportsCoverPorts(w, bindings, targets, ports, tls);
    ReportsCoverTls(w, bindings, targets, ports, tls);
  }

  lemma ReportsCoverPorts(w: World, bindings: seq<Binding>, targets: map<Target, set<string>>, ports: seq<PortReport>, tls: seq<TlsReport>)
    requires TargetsOf(bindings, targets) && Reported(w, targets, targets.Keys, ports, tls)
    ensures PortsCover(w, bindings, ports)
  {
    forall b | b in bindings ensures PortReportOf(w, TargetOf(b)) in ports {
      assert TargetOf(b) in targets;
    }
    forall r | r in ports ensures OfSomePort(w, bindings, r) {
      var t :| t in targets.Keys && r == PortReportOf(w, t);
      var b :| b in bindings && TargetOf(b) == t;
    }
  }

  lemma ReportsCoverTls(w: World, bindings: seq<Binding>, targets: map<Target, set<string>>, ports: seq<PortReport>, tls: seq<TlsReport>)
    requires TargetsOf(bindings, targets) && Reported(w, targets, targets.Keys, ports, tls)
    ensures TlsCovers(w, bindings, tls)
  {
    forall b | b in bindings && Shakes(w, b) ensures TlsReportOf(w, b.port, b.sni) in tls {
      assert TargetOf(b) in targets && b.sni in targets[TargetOf(b)];
    }
    forall r | r in tls ensures OfSomeName(w, bindings, r) {
      var t, name :| t in targets.Keys && t in targets && !t.0 && w.connect(t.1) > 0 && name in targets[t] && r == TlsReportOf(w, t.1, name);
      var b :| b in bindings && TargetOf(b) == t && ChecksTls(b) && b.sni == name;
    }
  }

  // ---- the verdict on a node ----

  predicate Works(r: BindingReport) { r.successes > 0 }

  predicate Perfect(r: BindingReport) { r.attempts > 0 && r.successes == r.attempts }

  predicate Tried(r: PortReport) { !r.udp && r.attempts > 0 }

  predicate NoPortReached(ports: seq<PortReport>) {
    (exists r :: r in ports && Tried(r)) && forall r :: r in ports && Tried(r) ==> r.successes == 0
  }

  predicate NoHandshake(tls: seq<TlsReport>) {
    tls != [] && forall r :: r in tls ==> r.successes == 0
  }

  predicate EveryTunnelPerfect(reports: seq<BindingReport>) {
    reports != [] && forall r :: r in reports ==> Perfect(r)
  }

  predicate AnyTunnelWorks(reports: seq<BindingReport>) { exists r :: r in reports && Works(r) }

  function NodeVerdict(r: Report): Verdict {
    if EveryTunnelPerfect(r.bindings) then Healthy
    else if AnyTunnelWorks(r.bindings) then Degraded
    else if NoPortReached(r.ports) then NetUnreachable
    else if NoHandshake(r.tls) then HandshakeFailed
    else TunnelFailed
  }

  method CountPorts(ports: seq<PortReport>) returns (tcp: nat, reachable: nat)
    ensures tcp > 0 && reachable == 0 <==> NoPortReached(ports)
  {
    tcp, reachable := 0, 0;
    for i := 0 to |ports|
      invariant tcp > 0 <==> exists j :: 0 <= j < i && Tried(ports[j])
      invariant reachable == 0 <==> forall j :: 0 <= j < i && Tried(ports[j]) ==> ports[j].successes == 0
    {
      var r := ports[i];
      if r.udp || r.attempts == 0 {
        continue;
      }
      tcp := tcp + 1;
      if r.successes > 0 {
        reachable := reachable + 1;
      }
    }
  }

  method CountTls(tls: seq<TlsReport>) returns (working: nat)
    ensures working == 0 <==> forall r :: r in tls ==> r.successes == 0
  {
    working := 0;
    for i := 0 to |tls|
      invariant working == 0 <==> forall r :: r in tls[..i] ==> r.successes == 0
    {
      assert tls[..i + 1] == tls[..i] + [tls[i]];
      if tls[i].successes > 0 {
        working := working + 1;
      }
    }
    assert tls[..|tls|] == tls;
  }

  /** classifyNodeDiagnosis. */
  method ClassifyNodeDiagnosis(run: Report) returns (verdict: Verdict)
    ensures verdict == NodeVerdict(run)
  {
    var working, perfect := 0, 0;
    for i := 0 to |run.bindings|
      invariant working > 0 <==> exists j :: 0 <= j < i && Works(run.bindings[j])
      invariant perfect <= i && (perfect == i <==> forall j :: 0 <= j < i ==> Perfect(run.bindings[j]))
    {
      var b := run.bindings[i];
      if b.successes > 0 {
        working := working + 1;
      }
      if b.successes == b.attempts && b.attempts > 0 {
        perfect := perfect + 1;
      }
    }
    if |run.bindings| > 0 && perfect == |run.bindings| {
      return Healthy;
    }
    if working > 0 {
      return Degraded;
    }
    var tcp, reachable := CountPorts(run.ports);
    if tcp > 0 && reachable == 0 {
      return NetUnreachable;
    }
    if |run.tls| > 0 {
      var handshakes := CountTls(run.tls);
      if handshakes == 0 {
        return HandshakeFailed;
      }
    }
    verdict := TunnelFailed;
  }

  // ---- the verdict on a binding ----

  predicate PortFailed(ports: seq<PortReport>, b: Binding) {
    exists r :: r in ports && !r.udp && r.port == b.port && r.attempts > 0 && r.successes == 0
  }

  predicate HandshakesFailed(tls: seq<TlsReport>, b: Binding) {
    exists r :: r in tls && r.port == b.port && r.serverName == b.sni && r.attempts > 0 && r.successes == 0
  }

  /** The first report of the binding. */
  function ReportFor(reports: seq<BindingReport>, id: string): (i: nat)
    ensures i <= |reports|
    ensures i < |reports| ==> reports[i].stableID == id
    ensures forall j :: 0 <= j < i ==> reports[j].stableID != id
  {
    if reports == [] then 0
    else
      var i := ReportFor(reports[..|reports| - 1], id);
      if i < |reports| - 1 || reports[|reports| - 1].stableID == id then i else |reports|
  }

  function BindingVerdict(run: Report, b: Binding): Verdict {
    var i := ReportFor(run.bindings, b.stableID);
    if i < |run.bindings| && Perfect(run.bindings[i]) then Healthy
    else if i < |run.bindings| && Works(run.bindings[i]) then Degraded
    else if !b.udp && PortFailed(run.ports, b) then NetUnreachable
    else if ChecksTls(b) && HandshakesFailed(run.tls, b) then HandshakeFailed
    else if run.verdict == Inconclusive then Inconclusive
    else TunnelFailed
  }

  /** The part of GetBindingDiagnosis that reads a completed report. */
  method GetBindingDiagnosis(run: Report, b: Binding) returns (verdict: Verdict)
    ensures verdict == BindingVerdict(run, b)
  {
    var i := 0;
    while i < |run.bindings|
      invariant i <= |run.bindings| && forall j :: 0 <= j < i ==> run.bindings[j].stableID != b.stableID
    {
      var report := run.bindings[i];
      if report.stableID == b.stableID {
        if report.attempts > 0 && report.successes == report.attempts {
          return Healthy;
        }
        if report.successes > 0 {
          return Degraded;
        }
        break;
      }
      i := i + 1;
    }
    if !b.udp {
      for k := 0 to |run.ports|
        invariant forall j :: 0 <= j < k ==> !(!run.ports[j].udp && run.ports[j].port == b.port && run.ports[j].attempts > 0 && run.ports[j].successes == 0)
      {
        if !run.ports[k].udp && run.ports[k].port == b.port && run.ports[k].attempts > 0 && run.ports[k].successes == 0 {
          assert run.ports[k] in run.ports;
          return NetUnreachable;
        }
      }
      if b.tls && b.sni != "" {
        for k := 0 to |run.tls|
          invariant forall j :: 0 <= j < k ==>
            !(run.tls[j].port == b.port && run.tls[j].serverName == b.sni && run.tls[j].attempts > 0 && run.tls[j].successes == 0)
        {
          var probe := run.tls[k];
          if probe.port == b.port && probe.serverName == b.sni && probe.attempts > 0 && probe.successes == 0 {
            assert run.tls[k] in run.tls;
            return HandshakeFailed;
          }
        }
      }
    }
    if run.verdict == Inconclusive {
      return Inconclusive;
    }
    verdict := TunnelFailed;
  }

  // ---- a whole diagnosis ----

  /** Every binding is reported once, in some order. */
  ghost predicate BindingsCover(w: World, bindings: seq<Binding>, reports: seq<BindingReport>) {
    && |reports| == |bindings|
    && (forall b :: b in bindings ==> BindingReportOf(w, b) in reports)
    && (forall r :: r in reports ==> OfSomeBinding(w, bindings, r))
  }

  ghost predicate OfSomeBinding(w: World, bindings: seq<Binding>, r: BindingReport) {
    exists b :: b in bindings && r == BindingReportOf(w, b)
  }

  predicate HasUdp(bindings: seq<Binding>) { exists b :: b in bindings && b.udp }

  /** The report of an uninterrupted diagnosis: when no TCP port accepts a connection and there is
      no UDP binding, the tunnels are not tried. */
  ghost predicate IsDiagnosis(w: World, bindings: seq<Binding>, run: Report) {
    && PortsCover(w, bindings, run.ports) && TlsCovers(w, bindings, run.tls)
    && if NoPortReached(run.ports) && !HasUdp(bindings) then run.bindings == [] && run.verdict == NetUnreachable
       else BindingsCover(w, bindings, run.bindings) && run.verdict == NodeVerdict(run)
  }

  /** allTCPPortsUnreachable. */
  method AllTCPPortsUnreachable(ports: seq<PortReport>) returns (r: bool)
    ensures r <==> NoPortReached(ports)
  {
    var tcp := 0;
    for i := 0 to |ports|
      invariant tcp > 0 <==> exists j :: 0 <= j < i && Tried(ports[j])
      invariant forall j :: 0 <= j < i && Tried(ports[j]) ==> ports[j].successes == 0
    {
      if ports[i].udp || ports[i].attempts == 0 {
        continue;
      }
      tcp := tcp + 1;
      if ports[i].successes > 0 {
        assert ports[i] in ports;
        return false;
      }
    }
    r := tcp > 0;
  }

  method HasUDPBindings(bindings: seq<Binding>) returns (r: bool)
    ensures r <==> HasUdp(bindings)
  {
    for i := 0 to |bindings|
      invariant forall j :: 0 <= j < i ==> !bindings[j].udp
    {
      if bindings[i].udp {
        assert bindings[i] in bindings;
        return true;
      }
    }
    r := false;
  }

  lemma VerdictReadsProbes(run: Report, v: Verdict)
    ensures NodeVerdict(run.(verdict := v)) == NodeVerdict(run)
  {
  }

  lemma NoBindings(w: World)
    ensures BindingsCover(w, [], [])
  {
  }

  lemma BindingsStep(w: World, bindings: seq<Binding>, reports: seq<BindingReport>, b: Binding)
    requires BindingsCover(w, bindings, reports)
    ensures BindingsCover(w, bindings + [b], reports + [BindingReportOf(w, b)])
  {
    var all, more := bindings + [b], reports + [BindingReportOf(w, b)];
    assert forall x :: x in all <==> x in bindings || x == b;
    assert forall r :: r in more <==> r in reports || r == BindingReportOf(w, b);
    forall r | r in more ensures OfSomeBinding(w, all, r) {
      if r in reports {
        assert OfSomeBinding(w, bindings, r);
        var x :| x in bindings && r == BindingReportOf(w, x);
        assert x in all;
      } else {
        assert b in all;
      }
    }
  }

  /** Where a diagnosis is interrupted, if it is: the network is not ready or the control request
      fails, or the network or the time is lost during the direct probes or during the tunnels. */
  datatype Interruption = Uninterrupted | BeforeProbes | DuringDirect | DuringTunnels

  /** The report of a diagnosis; `w` is what its probes did, interrupted or not. */
  ghost predicate EndsAs(w: World, bindings: seq<Binding>, stop: Interruption, run: Report) {
    match stop
    case Uninterrupted => IsDiagnosis(w, bindings, run)
    case BeforeProbes => run == Report(Inconclusive, [], [], [])
    case DuringDirect => PortsCover(w, bindings, run.ports) && TlsCovers(w, bindings, run.tls) && run.bindings == [] && run.verdict == Inconclusive
    case DuringTunnels =>
      if NoPortReached(run.ports) && !HasUdp(bindings) then IsDiagnosis(w, bindings, run)
      else
        && PortsCover(w, bindings, run.ports) && TlsCovers(w, bindings, run.tls) && BindingsCover(w, bindings, run.bindings)
        && run.verdict == Inconclusive
  }

  /** executeNodeDiagnosis; the tunnels are probed at the same time and reported in another order. */
  method Diagnose(w: World, bindings: seq<Binding>, stop: Interruption) returns (run: Report)
    ensures EndsAs(w, bindings, stop, run)
  {
    hide PortsCover, TlsCovers, BindingsCover, NodeVerdict, NoPortReached, HasUdp;
    if stop.BeforeProbes? {
      return Report(Inconclusive, [], [], []);
    }
    var ports, tls := RunDirectDiagnostics(w, bindings);
    run := Report(Inconclusive, ports, tls, []);
    if stop.DuringDirect? {
      return run;
    }
    var unreachable := AllTCPPortsUnreachable(ports);
    var udp := HasUDPBindings(bindings);
    if unreachable && !udp {
      return run.(verdict := NetUnreachable);
    }
    var reports: seq<BindingReport> := [];
    NoBindings(w);
    assert bindings[..0] == [];
    for i := 0 to |bindings|
      invariant BindingsCover(w, bindings[..i], reports)
    {
      assert bindings[..i + 1] == bindings[..i] + [bindings[i]];
      BindingsStep(w, bindings[..i], reports, bindings[i]);
      reports := reports + [BindingReportOf(w, bindings[i])];
    }
    assert bindings[..|bindings|] == bindings;
    run := run.(bindings := reports);
    if stop.DuringTunnels? {
      return run;
    }
    var verdict := ClassifyNodeDiagnosis(run);
    VerdictReadsProbes(run, verdict);
    run := run.(verdict := verdict);
  }

  // ---- how the two verdicts agree ----

  ghost predicate DistinctIDs(bindings: seq<Binding>) {
    forall a, b :: a in bindings && b in bindings && a.stableID == b.stableID ==> a == b
  }

  /** The tunnels were tried. */
  predicate Tunnelled(bindings: seq<Binding>, run: Report) { !NoPortReached(run.ports) || HasUdp(bindings) }

  predicate Refused(w: World, b: Binding) { !b.udp && w.connect(b.port) == 0 }

  predicate Rejected(w: World, b: Binding) { w.handshake(b.port, b.sni) == 0 }

  predicate NothingConnects(w: World, bindings: seq<Binding>) {
    (exists b :: b in bindings && !b.udp) && forall b :: b in bindings && !b.udp ==> Refused(w, b)
  }

  predicate NothingShakes(w: World, bindings: seq<Binding>) {
    (exists b :: b in bindings && Shakes(w, b)) && forall b :: b in bindings && Shakes(w, b) ==> Rejected(w, b)
  }

  lemma PortTells(w: World, bindings: seq<Binding>, ports: seq<PortReport>, b: Binding)
    requires PortsCover(w, bindings, ports) && b in bindings && !b.udp
    ensures PortFailed(ports, b) <==> Refused(w, b)
    ensures NoPortReached(ports) ==> Refused(w, b)
  {
    assert PortReportOf(w, TargetOf(b)) in ports && Tried(PortReportOf(w, TargetOf(b)));
    if r :| r in ports && !r.udp && r.port == b.port && r.attempts > 0 && r.successes == 0 {
      assert OfSomePort(w, bindings, r);
    }
  }

  lemma PortsTell(w: World, bindings: seq<Binding>, ports: seq<PortReport>)
    requires PortsCover(w, bindings, ports)
    ensures NoPortReached(ports) <==> NothingConnects(w, bindings)
  {
    if NoPortReached(ports) {
      var r :| r in ports && Tried(r);
      assert OfSomePort(w, bindings, r);
      var x :| x in bindings && r == PortReportOf(w, TargetOf(x));
      forall b | b in bindings && !b.udp ensures Refused(w, b) {
        PortTells(w, bindings, ports, b);
      }
    }
    if NothingConnects(w, bindings) {
      var b :| b in bindings && !b.udp;
      assert Tried(PortReportOf(w, TargetOf(b)));
      forall r | r in ports && Tried(r) ensures r.successes == 0 {
        assert OfSomePort(w, bindings, r);
        var x :| x in bindings && r == PortReportOf(w, TargetOf(x));
        assert Refused(w, x);
      }
    }
  }

  lemma NameTells(w: World, bindings: seq<Binding>, tls: seq<TlsReport>, b: Binding)
    requires TlsCovers(w, bindings, tls) && b in bindings && Shakes(w, b)
    ensures HandshakesFailed(tls, b) <==> Rejected(w, b)
    ensures NoHandshake(tls) ==> Rejected(w, b)
  {
    assert TlsReportOf(w, b.port, b.sni) in tls;
    if r :| r in tls && r.port == b.port && r.serverName == b.sni && r.attempts > 0 && r.successes == 0 {
      assert OfSomeName(w, bindings, r);
    }
  }

  lemma NamesTell(w: World, bindings: seq<Binding>, tls: seq<TlsReport>)
    requires TlsCovers(w, bindings, tls)
    ensures NoHandshake(tls) <==> NothingShakes(w, bindings)
  {
    if NoHandshake(tls) {
      assert tls[0] in tls;
      assert OfSomeName(w, bindings, tls[0]);
      forall b | b in bindings && Shakes(w, b) ensures Rejected(w, b) {
        NameTells(w, bindings, tls, b);
      }
    }
    if NothingShakes(w, bindings) {
      var b :| b in bindings && Shakes(w, b);
      assert TlsReportOf(w, b.port, b.sni) in tls;
      forall r | r in tls ensures r.successes == 0 {
        assert OfSomeName(w, bindings, r);
        var x :| x in bindings && Shakes(w, x) && r == TlsReportOf(w, x.port, x.sni);
        assert Rejected(w, x);
      }
    }
  }

  lemma BindingTells(w: World, bindings: seq<Binding>, reports: seq<BindingReport>, b: Binding)
    requires BindingsCover(w, bindings, reports) && DistinctIDs(bindings) && b in bindings
    ensures var i := ReportFor(reports, b.stableID); i < |reports| && reports[i] == BindingReportOf(w, b)
  {
    var i := ReportFor(reports, b.stableID);
    assert BindingReportOf(w, b) in reports;
    assert reports[i] in reports;
    assert OfSomeBinding(w, bindings, reports[i]);
  }

  predicate AllPerfect(w: World, bindings: seq<Binding>) { forall b :: b in bindings ==> w.tunnel(b) == 3 }

  predicate SomeTunnel(w: World, bindings: seq<Binding>) { exists b :: b in bindings && w.tunnel(b) > 0 }

  lemma TunnelsTell(w: World, bindings: seq<Binding>, reports: seq<BindingReport>)
    requires BindingsCover(w, bindings, reports) && bindings != []
    ensures EveryTunnelPerfect(reports) <==> AllPerfect(w, bindings)
    ensures AnyTunnelWorks(reports) <==> SomeTunnel(w, bindings)
  {
    if forall r :: r in reports ==> Perfect(r) {
      forall b | b in bindings ensures w.tunnel(b) == 3 {
        assert BindingReportOf(w, b) in reports && Perfect(BindingReportOf(w, b));
      }
    }
    if AllPerfect(w, bindings) {
      forall r | r in reports ensures Perfect(r) {
        assert OfSomeBinding(w, bindings, r);
      }
    }
    if r :| r in reports && Works(r) {
      assert OfSomeBinding(w, bindings, r);
      var b :| b in bindings && r == BindingReportOf(w, b);
    }
    if b :| b in bindings && w.tunnel(b) > 0 {
      assert BindingReportOf(w, b) in reports && Works(BindingReportOf(w, b));
    }
  }

  /** The verdict on a binding, in terms of what its probes did. */
  function Expected(w: World, tunnelled: bool, b: Binding): Verdict {
    if tunnelled && w.tunnel(b) == 3 then Healthy
    else if tunnelled && w.tunnel(b) > 0 then Degraded
    else if Refused(w, b) then NetUnreachable
    else if ChecksTls(b) && Rejected(w, b) then HandshakeFailed
    else TunnelFailed
  }

  /** The verdict on the node, in the same terms. */
  function ExpectedOfNode(w: World, tunnelled: bool, bindings: seq<Binding>): Verdict {
    if tunnelled && AllPerfect(w, bindings) then Healthy
    else if tunnelled && SomeTunnel(w, bindings) then Degraded
    else if NothingConnects(w, bindings) then NetUnreachable
    else if NothingShakes(w, bindings) then HandshakeFailed
    else TunnelFailed
  }

  /** A binding without a working report. */
  lemma DirectIsExpected(w: World, bindings: seq<Binding>, run: Report, b: Binding)
    requires PortsCover(w, bindings, run.ports) && TlsCovers(w, bindings, run.tls) && b in bindings
    ensures !b.udp && PortFailed(run.ports, b) <==> Refused(w, b)
    ensures !Refused(w, b) ==> (ChecksTls(b) && HandshakesFailed(run.tls, b) <==> ChecksTls(b) && Rejected(w, b))
  {
    if !b.udp {
      PortTells(w, bindings, run.ports, b);
    }
    if Shakes(w, b) {
      NameTells(w, bindings, run.tls, b);
    }
  }

  lemma DiagnosisParts(w: World, bindings: seq<Binding>, run: Report)
    requires IsDiagnosis(w, bindings, run)
    ensures PortsCover(w, bindings, run.ports) && TlsCovers(w, bindings, run.tls) && run.verdict != Inconclusive
    ensures if Tunnelled(bindings, run) then BindingsCover(w, bindings, run.bindings) && run.verdict == NodeVerdict(run)
            else run.bindings == [] && NoPortReached(run.ports) && !HasUdp(bindings) && run.verdict == NetUnreachable
  {
    hide PortsCover, TlsCovers, BindingsCover, NoPortReached, HasUdp, EveryTunnelPerfect, AnyTunnelWorks, NoHandshake;
  }

  lemma VerdictIsExpected(w: World, bindings: seq<Binding>, run: Report, b: Binding)
    requires IsDiagnosis(w, bindings, run) && DistinctIDs(bindings) && b in bindings
    ensures BindingVerdict(run, b) == Expected(w, Tunnelled(bindings, run), b)
  {
    DiagnosisParts(w, bindings, run);
    hide IsDiagnosis, Tunnelled, PortsCover, TlsCovers, BindingsCover, NoPortReached, PortFailed, HandshakesFailed, DistinctIDs, NodeVerdict;
    DirectIsExpected(w, bindings, run, b);
    if Tunnelled(bindings, run) {
      BindingTells(w, bindings, run.bindings, b);
    }
  }

  lemma TunnelledIsExpected(w: World, bindings: seq<Binding>, run: Report)
    requires IsDiagnosis(w, bindings, run) && bindings != [] && Tunnelled(bindings, run)
    ensures run.verdict == ExpectedOfNode(w, true, bindings)
  {
    DiagnosisParts(w, bindings, run);
    hide IsDiagnosis, Tunnelled, PortsCover, TlsCovers, BindingsCover, NoPortReached, NoHandshake, NothingConnects, NothingShakes,
         AllPerfect, SomeTunnel, EveryTunnelPerfect, AnyTunnelWorks;
    PortsTell(w, bindings, run.ports);
    NamesTell(w, bindings, run.tls);
    TunnelsTell(w, bindings, run.bindings);
  }

  lemma NodeIsExpected(w: World, bindings: seq<Binding>, run: Report)
    requires IsDiagnosis(w, bindings, run) && bindings != []
    ensures run.verdict == ExpectedOfNode(w, Tunnelled(bindings, run), bindings)
  {
    if Tunnelled(bindings, run) {
      TunnelledIsExpected(w, bindings, run);
    } else {
      DiagnosisParts(w, bindings, run);
      PortsTell(w, bindings, run.ports);
      hide PortsCover, TlsCovers, NoPortReached, NothingConnects;
    }
  }

  // ---- an inconclusive diagnosis ----

  /** What an inconclusive diagnosis still says of a binding: what a probe that was made has shown, and
      otherwise nothing. */
  function ExpectedInconclusive(w: World, stop: Interruption, b: Binding): Verdict {
    if stop.DuringTunnels? && w.tunnel(b) == 3 then Healthy
    else if stop.DuringTunnels? && w.tunnel(b) > 0 then Degraded
    else if !stop.BeforeProbes? && Refused(w, b) then NetUnreachable
    else if !stop.BeforeProbes? && Shakes(w, b) && Rejected(w, b) then HandshakeFailed
    else Inconclusive
  }

  /** A report without probes fails nothing. */
  lemma NothingProbed(run: Report, b: Binding)
    requires run == Report(Inconclusive, [], [], [])
    ensures BindingVerdict(run, b) == Inconclusive
  {
  }

  lemma InconclusiveTells(w: World, bindings: seq<Binding>, stop: Interruption, run: Report, b: Binding)
    requires EndsAs(w, bindings, stop, run) && run.verdict == Inconclusive && DistinctIDs(bindings) && b in bindings
    ensures BindingVerdict(run, b) == ExpectedInconclusive(w, stop, b)
  {
    if stop.BeforeProbes? {
      NothingProbed(run, b);
    } else {
      InconclusiveParts(w, bindings, stop, run);
      hide EndsAs, PortsCover, TlsCovers, BindingsCover, NoPortReached, PortFailed, HandshakesFailed, DistinctIDs, NodeVerdict;
      DirectIsExpected(w, bindings, run, b);
      if stop.DuringTunnels? {
        BindingTells(w, bindings, run.bindings, b);
      }
    }
  }

  lemma InconclusiveParts(w: World, bindings: seq<Binding>, stop: Interruption, run: Report)
    requires EndsAs(w, bindings, stop, run) && run.verdict == Inconclusive && !stop.BeforeProbes?
    ensures PortsCover(w, bindings, run.ports) && TlsCovers(w, bindings, run.tls)
    ensures if stop.DuringTunnels? then BindingsCover(w, bindings, run.bindings) else stop.DuringDirect? && run.bindings == []
  {
    if stop.Uninterrupted? || (stop.DuringTunnels? && NoPortReached(run.ports) && !HasUdp(bindings)) {
      DiagnosisParts(w, bindings, run);
    }
    hide PortsCover, TlsCovers, BindingsCover, NoPortReached, HasUdp, EveryTunnelPerfect, AnyTunnelWorks, NoHandshake;
  }

  /** A diagnosis is inconclusive exactly if it was interrupted, unless it had already found that no
      port can be reached; and only a conclusive one puts the blame on the tunnel. */
  lemma InconclusiveIff(w: World, bindings: seq<Binding>, stop: Interruption, run: Report)
    requires EndsAs(w, bindings, stop, run)
    ensures run.verdict == Inconclusive <==>
            stop.BeforeProbes? || stop.DuringDirect? || (stop.DuringTunnels? && (!NoPortReached(run.ports) || HasUdp(bindings)))
    ensures run.verdict == Inconclusive ==> forall b :: BindingVerdict(run, b) != TunnelFailed
  {
    if stop.Uninterrupted? || (stop.DuringTunnels? && NoPortReached(run.ports) && !HasUdp(bindings)) {
      DiagnosisParts(w, bindings, run);
    }
    hide PortsCover, TlsCovers, BindingsCover, NoPortReached, HasUdp, IsDiagnosis, PortFailed, HandshakesFailed, Perfect, Works;
  }

  // ---- the main result ----

  type Verdicts = map<Binding, Verdict>

  function VerdictsOf(run: Report, bindings: seq<Binding>): Verdicts {
    map b | b in bindings :: BindingVerdict(run, b)
  }

  predicate Working(v: Verdict) { v == Healthy || v == Degraded }

  predicate AllHealthy(vs: Verdicts) { forall b :: b in vs ==> vs[b] == Healthy }

  predicate SomeWorking(vs: Verdicts) { exists b :: b in vs && Working(vs[b]) }

  /** There are TCP bindings, and none of them gets a connection. */
  predicate TcpUnreachable(vs: Verdicts) {
    (exists b :: b in vs && !b.udp) && forall b :: b in vs && !b.udp ==> vs[b] == NetUnreachable
  }

  /** Some TCP binding with TLS and a server name fails the handshake, and every other one does not
      get as far. */
  predicate HandshakesFail(vs: Verdicts) {
    && (exists b :: b in vs && ChecksTls(b) && vs[b] == HandshakeFailed)
    && (forall b :: b in vs && ChecksTls(b) ==> vs[b] == HandshakeFailed || vs[b] == NetUnreachable)
  }

  /** What the verdicts on the bindings call for. */
  function Summary(vs: Verdicts): Verdict {
    if AllHealthy(vs) then Healthy
    else if SomeWorking(vs) then Degraded
    else if TcpUnreachable(vs) then NetUnreachable
    else if HandshakesFail(vs) then HandshakeFailed
    else TunnelFailed
  }

  ghost predicate AreExpected(w: World, tunnelled: bool, bindings: seq<Binding>, vs: Verdicts) {
    (forall b :: b in vs <==> b in bindings) && forall b :: b in vs ==> vs[b] == Expected(w, tunnelled, b)
  }

  lemma WorkingTells(w: World, tunnelled: bool, bindings: seq<Binding>, vs: Verdicts)
    requires AreExpected(w, tunnelled, bindings, vs) && bindings != []
    ensures AllHealthy(vs) <==> tunnelled && AllPerfect(w, bindings)
    ensures SomeWorking(vs) <==> tunnelled && SomeTunnel(w, bindings)
  {
    assert bindings[0] in bindings;
    if b :| b in vs && Working(vs[b]) {
      assert b in bindings && w.tunnel(b) > 0;
    }
    if tunnelled && SomeTunnel(w, bindings) {
      var b :| b in bindings && w.tunnel(b) > 0;
      assert b in vs && Working(vs[b]);
    }
    if AllHealthy(vs) {
      forall b | b in bindings ensures w.tunnel(b) == 3 {
        assert b in vs && vs[b] == Healthy;
      }
      assert bindings[0] in vs && vs[bindings[0]] == Healthy;
    }
  }

  lemma UnreachableTells(w: World, tunnelled: bool, bindings: seq<Binding>, vs: Verdicts)
    requires AreExpected(w, tunnelled, bindings, vs) && !SomeWorking(vs)
    ensures TcpUnreachable(vs) <==> NothingConnects(w, bindings)
  {
    forall b | b in vs && !b.udp ensures vs[b] == NetUnreachable <==> Refused(w, b) {
      assert !Working(vs[b]);
    }
  }

  lemma HandshakesTell(w: World, tunnelled: bool, bindings: seq<Binding>, vs: Verdicts)
    requires AreExpected(w, tunnelled, bindings, vs) && !SomeWorking(vs)
    ensures HandshakesFail(vs) <==> NothingShakes(w, bindings)
  {
    forall b | b in vs && ChecksTls(b)
      ensures vs[b] == HandshakeFailed <==> Shakes(w, b) && Rejected(w, b)
      ensures vs[b] == NetUnreachable <==> !Shakes(w, b)
    {
      assert !Working(vs[b]);
    }
    if NothingShakes(w, bindings) {
      var b :| b in bindings && Shakes(w, b);
      assert b in vs && ChecksTls(b) && vs[b] == HandshakeFailed;
    }
    if HandshakesFail(vs) {
      var b :| b in vs && ChecksTls(b) && vs[b] == HandshakeFailed;
      assert b in bindings && Shakes(w, b);
      forall x | x in bindings && Shakes(w, x) ensures Rejected(w, x) {
        assert x in vs && ChecksTls(x);
      }
    }
  }

  /** The two readings of an uninterrupted diagnosis agree: the verdict on the node is the one that
      the verdicts on its bindings call for. */
  lemma VerdictsAgree(w: World, bindings: seq<Binding>, run: Report)
    requires IsDiagnosis(w, bindings, run) && DistinctIDs(bindings) && bindings != []
    ensures run.verdict == Summary(VerdictsOf(run, bindings))
  {
    var vs, tunnelled := VerdictsOf(run, bindings), Tunnelled(bindings, run);
    NodeIsExpected(w, bindings, run);
    hide IsDiagnosis, BindingVerdict, Expected, Tunnelled;
    forall b | b in bindings ensures BindingVerdict(run, b) == Expected(w, tunnelled, b) {
      VerdictIsExpected(w, bindings, run, b);
    }
    hide SomeWorking, AllHealthy, TcpUnreachable, HandshakesFail, NothingConnects, NothingShakes, AllPerfect, SomeTunnel;
    WorkingTells(w, tunnelled, bindings, vs);
    if !SomeWorking(vs) {
      UnreachableTells(w, tunnelled, bindings, vs);
      HandshakesTell(w, tunnelled, bindings, vs);
    }
  }

  lemma SummaryBinds(vs: Verdicts, b: Binding)
    requires b in vs
    ensures Summary(vs) == Healthy ==> vs[b] == Healthy
    ensures Summary(vs) == NetUnreachable && !b.udp ==> vs[b] == NetUnreachable
    ensures Summary(vs) == HandshakeFailed && ChecksTls(b) ==> vs[b] == HandshakeFailed || vs[b] == NetUnreachable
    ensures Summary(vs) != Healthy && Summary(vs) != Degraded ==> !Working(vs[b])
  {
  }

  /** So a healthy verdict on the node makes every binding healthy, no failure verdict has a working
      binding, and a failure verdict holds for every binding that it is about. */
  lemma NodeVerdictBinds(w: World, bindings: seq<Binding>, run: Report, b: Binding)
    requires IsDiagnosis(w, bindings, run) && DistinctIDs(bindings) && b in bindings
    ensures run.verdict == Healthy ==> BindingVerdict(run, b) == Healthy
    ensures run.verdict == NetUnreachable && !b.udp ==> BindingVerdict(run, b) == NetUnreachable
    ensures run.verdict == HandshakeFailed && ChecksTls(b) ==> BindingVerdict(run, b) == HandshakeFailed || BindingVerdict(run, b) == NetUnreachable
    ensures run.verdict != Healthy && run.verdict != Degraded ==> !Working(BindingVerdict(run, b))
  {
    hide IsDiagnosis, BindingVerdict, DistinctIDs, Summary, Working, ChecksTls;
    VerdictsAgree(w, bindings, run);
    SummaryBinds(VerdictsOf(run, bindings), b);
  }

  /** A node is degraded exactly when some binding works and not all are healthy.  No binding needs
      to have failed: all may work only partly. */
  lemma DegradedIff(w: World, bindings: seq<Binding>, run: Report)
    requires IsDiagnosis(w, bindings, run) && DistinctIDs(bindings) && bindings != []
    ensures run.verdict == Degraded <==> SomeWorking(VerdictsOf(run, bindings)) && !AllHealthy(VerdictsOf(run, bindings))
  {
    VerdictsAgree(w, bindings, run);
    hide IsDiagnosis, BindingVerdict, DistinctIDs;
  }

  lemma DegradedWithoutFailure(w: World, b: Binding, run: Report)
    requires IsDiagnosis(w, [b], run) && !b.udp && w.connect(b.port) == 3 && w.tunnel(b) == 1
    ensures run.verdict == Degraded && BindingVerdict(run, b) == Degraded
  {
    assert b in [b];
    VerdictIsExpected(w, [b], run, b);
    PortsTell(w, [b], run.ports);
    NodeIsExpected(w, [b], run);
    hide IsDiagnosis, BindingVerdict;
    assert !Refused(w, b);
  }
}
