/** The per-binding repair state machine of checker/monitor.go.

  A binding's monitor record changes through check results, subscription edits, DNS
  refreshes, restarts and TCP suspicions.  `Apply` is one such change on a record seen as
  a value; the class NodeMonitorState below performs it field by field.  `Effect` says
  what a change means to a reader of the log who knows nothing about the record's
  counters, and the lemmas tie the counters, the state and the history to that log. */
module Repair {

  datatype NodeState =
    | Unknown | Healthy | Unstable | Suspected | NeedsReplacement
    | IPChanged | ConfigChanged | VerifyingNewIP | Fixed | NewIPFailed

  datatype CheckReason = Initial | InitialRetry | Scheduled | Changed | Manual | TCPProbe | Diagnosis

  /** The private connection settings that GenerateRevisionID hashes.  Two records carry
      the same revision exactly when these values are equal, so the value stands for its hash.
      `literal` is the canonical text of `server` when that is an IP address, and nothing otherwise. */
  datatype Connection = Connection(server: string, port: string, literal: seq<string>, secrets: int) {
    function Address(): (a: string)
      ensures a != ""
    {
      server + ":" + port
    }
  }

  /** One stored measurement; `at` is its time in nanoseconds. */
  datatype Result = Result(ok: bool, unstable: bool, at: int, error: string, exitIP: string) {
    function Seconds(): int { at / 1_000_000_000 }
    predicate Clean() { ok && !unstable }
  }

  datatype Kind = AddedKind | CheckKind | DiagnosisKind | RevisionKind | DnsKind | RenamedKind
                | RemovedKind | ReturnedKind | ReturnedChangedKind

  datatype Entry = Entry(at: int, kind: Kind, state: NodeState, from: seq<string>, to: seq<string>,
                         online: bool, unstable: bool, message: string)

  datatype Node = Node(
    seed: nat,  // FNV hash of the logical ID, which staggers the healthy rechecks
    state: NodeState,
    currentAddress: string,
    previousAddress: string,
    resolvedIPs: seq<string>,
    previousResolvedIPs: seq<string>,
    addressChangedAt: int,
    revision: Connection,
    failures: nat,
    successes: nat,
    lastCheck: int,
    lastSuccess: int,
    lastResultAt: int,
    failureEpisode: nat,
    failureStartedAt: int,
    recoveredAt: int,
    endpointSuspectedAt: int,
    lastError: string,
    exitIP: string,
    nextCheck: int,
    updatedAt: int,
    history: seq<Entry>)

  const HISTORY_LIMIT: nat := 40
  const EPISODES: nat := 0x1_0000_0000_0000_0000

  /** Everything that changes a record while the process runs, or when it restarts. */
  datatype Event =
    | Observed(result: Result, reason: CheckReason)    // recordMonitorResults
    | Revised(conn: Connection)                        // a ProxyChanged entry of a plan
    | Resolved(ips: seq<string>)                       // RefreshResolvedIPs
    | Renamed                                          // a ProxyRenamed entry of a plan
    | Removed                                          // a ProxyRemoved entry: the binding left the subscription
    | Readded(conn: Connection)                        // a ProxyAdded entry for a record that still exists
    | Restarted(conn: Connection, hasResult: bool)     // reconcileMonitorWithCurrentProxies
    | Doubted                                          // queueEndpointValidation

  predicate InReplacement(s: NodeState) {
    s.IPChanged? || s.VerifyingNewIP? || s.NewIPFailed?
  }

  function LastN<T>(s: seq<T>, n: nat): seq<T> {
    if |s| <= n then s else s[|s| - n..]
  }

  function Append(history: seq<Entry>, e: Entry): seq<Entry> {
    LastN(history + [e], HISTORY_LIMIT)
  }

  // ---- deadlines, in seconds ----

  function FailedRecheckDelay(failures: nat): int {
    if failures <= 1 then 60 else if failures == 2 then 120 else if failures == 3 then 300 else 600
  }

  function HealthyDelay(seed: nat): int { 180 + seed % 121 }

  function UnstableDelay(seed: nat): int { 270 + seed % 61 }

  // ---- the changes, as functions on a record ----

  /** applyMonitorResult. */
  function AfterResult(n: Node, r: Result, reason: CheckReason, now: int): Node {
    var replacement := InReplacement(n.state);
    var failures := if r.ok then 0 else n.failures + 1;
    var successes := if r.Clean() then n.successes + 1 else 0;
    var starts := !r.ok && n.failures == 0;
    var state :=
      if r.ok then
        if r.unstable then (if replacement then VerifyingNewIP else Unstable)
        else if replacement then (if successes >= 2 then Fixed else VerifyingNewIP)
        else Healthy
      else if replacement then (if failures >= 2 then NewIPFailed else VerifyingNewIP)
      else if failures >= 3 then NeedsReplacement
      else Suspected;
    var delay :=
      if r.ok then
        if r.unstable then (if replacement then 60 else UnstableDelay(n.seed))
        else if replacement && successes < 2 then 45
        else HealthyDelay(n.seed)
      else FailedRecheckDelay(failures);
    n.(state := state,
       failures := failures,
       successes := successes,
       lastCheck := r.Seconds(),
       lastResultAt := r.at,
       lastSuccess := if r.ok then r.Seconds() else n.lastSuccess,
       recoveredAt := if r.ok && n.failures >= 2 then r.Seconds() else n.recoveredAt,
       failureEpisode := if starts then (n.failureEpisode + 1) % EPISODES else n.failureEpisode,
       failureStartedAt := if starts then r.Seconds() else n.failureStartedAt,
       endpointSuspectedAt := 0,
       lastError := r.error,
       exitIP := r.exitIP,
       nextCheck := now + delay,
       updatedAt := now,
       history := Append(n.history,
         Entry(now, if reason.Diagnosis? then DiagnosisKind else CheckKind, state, [], [], r.ok, r.unstable, r.error)))
  }

  /** The guard under which an edit of an unmoved binding still counts as a replacement. */
  predicate Displaced(n: Node, address: string) {
    (n.previousAddress != "" && n.previousAddress != address) || n.previousResolvedIPs != n.resolvedIPs
  }

  /** markNodeRevisionChanged. */
  function AfterRevision(n: Node, c: Connection, now: int): Node {
    var current := c.Address();
    var previous := if n.currentAddress == "" then current else n.currentAddress;
    var moved := previous != current;
    var ips := if moved then c.literal else n.resolvedIPs;
    var state := if moved || (InReplacement(n.state) && Displaced(n, current)) then IPChanged else ConfigChanged;
    n.(state := state,
       previousAddress := if moved then previous else n.previousAddress,
       addressChangedAt := if moved then now else n.addressChangedAt,
       previousResolvedIPs := if moved then n.resolvedIPs else n.previousResolvedIPs,
       resolvedIPs := if ips == [] then c.literal else ips,
       currentAddress := current,
       revision := c,
       failures := 0,
       successes := 0,
       lastError := "",
       exitIP := "",
       nextCheck := now,
       updatedAt := now,
       history := Append(n.history, Entry(now, RevisionKind, state, [previous], [current], false, false, "")))
  }

  /** The per-record part of RefreshResolvedIPs. */
  function AfterResolve(n: Node, ips: seq<string>, now: int): Node {
    if ips == [] then n
    else if n.resolvedIPs == [] then n.(resolvedIPs := ips, updatedAt := now)
    else if n.resolvedIPs == ips then n
    else
      n.(previousResolvedIPs := n.resolvedIPs,
         resolvedIPs := ips,
         addressChangedAt := now,
         state := IPChanged,
         failures := 0,
         successes := 0,
         nextCheck := now,
         updatedAt := now,
         history := Append(n.history, Entry(now, DnsKind, IPChanged, n.resolvedIPs, ips, false, false, "")))
  }

  /** The ProxyAdded branch of ApplyProxyUpdate for a record that still exists. */
  function AfterReturn(n: Node, c: Connection, now: int): Node {
    if n.currentAddress == c.Address() && n.revision == c then
      n.(resolvedIPs := c.literal, nextCheck := now, updatedAt := now,
         history := Append(n.history,
           Entry(now, ReturnedKind, n.state, [n.currentAddress], [c.Address()], false, false, "")))
    else
      var m := AfterRevision(n, c, now);
      m.(history := Append(m.history,
           Entry(now, ReturnedChangedKind, m.state, [n.currentAddress], [c.Address()], false, false, "")))
  }

  /** The start-up repairs that reconcileMonitorWithCurrentProxies makes before it looks at
      the revision: a settled record without a result waits again, and a replacement whose
      origin is where the binding is now is no replacement. */
  function Repaired(n: Node, hasResult: bool, now: int): Node {
    var a := if !hasResult && (n.state.Healthy? || n.state.Fixed?) then n.(state := Unknown, nextCheck := now) else n;
    if a.previousAddress == a.currentAddress && a.previousAddress != "" && a.previousResolvedIPs == a.resolvedIPs then
      var cleared := a.(previousAddress := "", addressChangedAt := 0);
      if InReplacement(a.state) then cleared.(state := ConfigChanged, nextCheck := now)
      else if a.state.Fixed? then cleared.(state := Healthy)
      else cleared
    else a
  }

  /** reconcileMonitorWithCurrentProxies for a record of the current snapshot version. */
  function AfterRestart(n: Node, c: Connection, hasResult: bool, now: int): Node {
    var b := Repaired(n, hasResult, now);
    if b.revision != c then AfterRevision(b, c, now)
    else
      var d := b.(currentAddress := c.Address(), revision := c,
                  resolvedIPs := if b.resolvedIPs == [] then c.literal else b.resolvedIPs,
                  updatedAt := now);
      var next := now + HealthyDelay(d.seed);
      if (d.state.Healthy? || d.state.Fixed?) && (d.nextCheck <= now || d.nextCheck > next) then d.(nextCheck := next) else d
  }

  /** queueEndpointValidation. */
  function AfterDoubt(n: Node, now: int): Node {
    n.(endpointSuspectedAt := if n.endpointSuspectedAt == 0 then now else n.endpointSuspectedAt,
       nextCheck := if n.nextCheck <= 0 || n.nextCheck > now then now else n.nextCheck)
  }

  function Note(n: Node, kind: Kind, from: seq<string>, now: int): Node {
    n.(updatedAt := now, history := Append(n.history, Entry(now, kind, n.state, from, [], false, false, "")))
  }

  function Apply(n: Node, e: Event, now: int): Node {
    match e
    case Observed(r, reason) => if n.lastResultAt >= r.at then n else AfterResult(n, r, reason, now)
    case Revised(c) => AfterRevision(n, c, now)
    case Resolved(ips) => AfterResolve(n, ips, now)
    case Renamed => Note(n, RenamedKind, [], now)
    case Removed => Note(n, RemovedKind, [n.currentAddress], now)
    case Readded(c) => AfterReturn(n, c, now)
    case Restarted(c, hasResult) => AfterRestart(n, c, hasResult, now)
    case Doubted => AfterDoubt(n, now)
  }

  /** A record for a binding seen for the first time (ApplyProxyUpdate, ProxyAdded). */
  function Fresh(seed: nat, c: Connection, now: int): Node {
    Node(seed, Unknown, c.Address(), "", c.literal, [], 0, c, 0, 0, 0, 0, 0, 0, 0, 0, 0, "", "", now, now,
         [Entry(now, AddedKind, Unknown, [], [c.Address()], false, false, "")])
  }

  /** A record created at start-up from a restored result (initializeNodeFromResult). */
  function FromResult(seed: nat, c: Connection, r: Result, now: int): Node {
    var n := Fresh(seed, c, now).(history := []);
    var m := n.(lastResultAt := r.at, lastCheck := r.Seconds(), lastError := r.error, exitIP := r.exitIP);
    if r.ok then
      m.(lastSuccess := r.Seconds(), successes := 1,
         state := if r.unstable then Unstable else Healthy,
         nextCheck := now + (if r.unstable then UnstableDelay(seed) else HealthyDelay(seed)))
    else
      m.(failureEpisode := 1, failureStartedAt := r.Seconds(), state := Suspected, failures := 1,
         nextCheck := now + FailedRecheckDelay(1))
  }

  // ---- what a change means to the log ----

  datatype Effect =
    | OpenedFresh               // first effect of every log: a record without a result ...
    | OpenedFrom(result: Result)  // ... or one created from a restored result
    | Counted(result: Result)   // a newer measurement
    | Reset(edited: bool)       // an edit, a move or a DNS change: the evidence so far is void
    | Quiet                     // nothing that bears on health

  function EffectOf(n: Node, e: Event): Effect {
    match e
    case Observed(r, _) => if n.lastResultAt >= r.at then Quiet else Counted(r)
    case Revised(_) => Reset(true)
    case Resolved(ips) => if ips == [] || n.resolvedIPs == [] || n.resolvedIPs == ips then Quiet else Reset(false)
    case Readded(c) => if n.currentAddress == c.Address() && n.revision == c then Quiet else Reset(true)
    case Restarted(c, _) => if n.revision != c then Reset(true) else Quiet
    case Renamed => Quiet
    case Removed => Quiet
    case Doubted => Quiet
  }

  /** The number of failed measurements at the end of the log, read past quiet effects. */
  function FailureRun(log: seq<Effect>): nat {
    if log == [] then 0
    else
      var rest := log[..|log| - 1];
      match log[|log| - 1]
      case Quiet => FailureRun(rest)
      case Counted(r) => if r.ok then 0 else 1 + FailureRun(rest)
      case OpenedFrom(r) => if r.ok then 0 else 1
      case _ => 0
  }

  /** The number of clean measurements at the end of the log, read past quiet effects. */
  function CleanRun(log: seq<Effect>): nat {
    if log == [] then 0
    else
      var rest := log[..|log| - 1];
      match log[|log| - 1]
      case Quiet => CleanRun(rest)
      case Counted(r) => if r.Clean() then 1 + CleanRun(rest) else 0
      case OpenedFrom(r) => if r.Clean() then 1 else 0
      case _ => 0
  }

  /** How many failure runs the log contains: failed measurements that do not continue a run. */
  function FailureStarts(log: seq<Effect>): nat {
    if log == [] then 0
    else
      var rest := log[..|log| - 1];
      var failed := match log[|log| - 1]
                    case Counted(r) => !r.ok
                    case OpenedFrom(r) => !r.ok
                    case _ => false;
      FailureStarts(rest) + (if failed && FailureRun(rest) == 0 then 1 else 0)
  }

  /** The log is a restored partial success followed only by clean measurements: the one
      shape in which the success counter runs ahead of the evidence, because
      initializeNodeFromResult counts a partial success as a clean one. */
  predicate OpensPartial(log: seq<Effect>) {
    log != [] &&
    match log[|log| - 1]
    case Quiet => OpensPartial(log[..|log| - 1])
    case Counted(r) => r.Clean() && OpensPartial(log[..|log| - 1])
    case OpenedFrom(r) => r.ok && r.unstable
    case _ => false
  }

  function Stamp(e: Effect): seq<int> {
    match e
    case Counted(r) => [r.at]
    case OpenedFrom(r) => [r.at]
    case _ => []
  }

  /** The times of the measurements the log counts, oldest first. */
  function Stamps(log: seq<Effect>): seq<int> {
    if log == [] then [] else Stamps(log[..|log| - 1]) + Stamp(log[|log| - 1])
  }

  ghost predicate StrictlyIncreasing(s: seq<int>) {
    forall i, j :: 0 <= i < j < |s| ==> s[i] < s[j]
  }

  /** A record together with the log of its effects and the history it would have if
      nothing were ever trimmed. */
  datatype Trace = Trace(node: Node, log: seq<Effect>, full: seq<Entry>)

  /** The entries an event appends, before trimming. */
  function Appended(n: Node, e: Event, now: int): seq<Entry> {
    match e
    case Observed(r, reason) =>
      if n.lastResultAt >= r.at then [] else Newest(AfterResult(n, r, reason, now))
    case Revised(c) => Newest(AfterRevision(n, c, now))
    case Resolved(ips) => if EffectOf(n, e).Reset? then Newest(AfterResolve(n, ips, now)) else []
    case Renamed => Newest(Apply(n, e, now))
    case Removed => Newest(Apply(n, e, now))
    case Readded(c) =>
      (if EffectOf(n, e).Reset? then Newest(AfterRevision(n, c, now)) else []) + Newest(AfterReturn(n, c, now))
    case Restarted(c, hasResult) => if n.revision != c then Newest(AfterRestart(n, c, hasResult, now)) else []
    case Doubted => []
  }

  function Newest(n: Node): seq<Entry> {
    if n.history == [] then [] else [n.history[|n.history| - 1]]
  }

  function StepTrace(t: Trace, e: Event, now: int): Trace {
    Trace(Apply(t.node, e, now), t.log + [EffectOf(t.node, e)], t.full + Appended(t.node, e, now))
  }

  /** The counters, the episode number, the clock guard and the stored history are what
      the log says they are. */
  ghost predicate Refines(t: Trace) {
    && t.log != []
    && t.node.failures == FailureRun(t.log)
    && t.node.successes == CleanRun(t.log) + (if OpensPartial(t.log) then 1 else 0)
    && t.node.failureEpisode == FailureStarts(t.log) % EPISODES
    && StrictlyIncreasing(Stamps(t.log))
    && t.node.lastResultAt == (if Stamps(t.log) == [] then 0 else Stamps(t.log)[|Stamps(t.log)| - 1])
    && t.node.history == LastN(t.full, 40)
  }

  /** What the state alone tells about the counters. */
  predicate StateBounds(n: Node) {
    && (n.failures > 0 ==> n.successes == 0)
    && match n.state
       case NeedsReplacement => n.failures >= 3
       case Suspected => 1 <= n.failures <= 2
       case NewIPFailed => n.failures >= 2
       case VerifyingNewIP => n.failures <= 1 && n.successes <= 1
       case IPChanged => n.failures == 0 && n.successes == 0
       case ConfigChanged => true
       case Fixed => n.failures == 0 && n.successes >= 2
       case _ => n.failures == 0
  }

  /** A record in a replacement remembers where the binding was before. */
  predicate RemembersOrigin(n: Node) {
    && n.currentAddress == n.revision.Address()
    && (InReplacement(n.state) ==>
          || (n.previousAddress != "" && n.previousAddress != n.currentAddress)
          || (n.resolvedIPs != [] && n.previousResolvedIPs != n.resolvedIPs))
  }

  // ---- counters, episodes, clock and history refine the log ----

  lemma LastNAppend<T>(f: seq<T>, e: T, n: nat)
    requires n > 0
    ensures LastN(LastN(f, n) + [e], n) == LastN(f + [e], n)
  {
  }

  lemma LogStep(log: seq<Effect>, e: Effect)
    requires log != []
    ensures (log + [e])[..|log|] == log
    ensures FailureRun(log + [e]) ==
            match e { case Quiet => FailureRun(log) case Counted(r) => (if r.ok then 0 else 1 + FailureRun(log))
                      case OpenedFrom(r) => (if r.ok then 0 else 1) case _ => 0 }
    ensures CleanRun(log + [e]) ==
            match e { case Quiet => CleanRun(log) case Counted(r) => (if r.Clean() then 1 + CleanRun(log) else 0)
                      case OpenedFrom(r) => (if r.Clean() then 1 else 0) case _ => 0 }
    ensures Stamps(log + [e]) == Stamps(log) + Stamp(e)
  {
    assert (log + [e])[..|log|] == log;
  }

  /** One change moves the counters exactly as its effect says. */
  lemma CountersFollow(n: Node, e: Event, now: int)
    ensures var m, f := Apply(n, e, now), EffectOf(n, e);
            && !f.OpenedFresh? && !f.OpenedFrom?
            && m.failures == (match f { case Quiet => n.failures case Counted(r) => (if r.ok then 0 else n.failures + 1) case _ => 0 })
            && m.successes == (match f { case Quiet => n.successes case Counted(r) => (if r.Clean() then n.successes + 1 else 0) case _ => 0 })
            && m.lastResultAt == (if f.Counted? then f.result.at else n.lastResultAt)
            && (f.Counted? ==> f.result.at > n.lastResultAt)
            && m.failureEpisode == (if f.Counted? && !f.result.ok && n.failures == 0 then (n.failureEpisode + 1) % EPISODES else n.failureEpisode)
  {
    hide AfterResult, AfterRevision, Repaired;
    match e
    case Observed(r, reason) => ResultCounters(n, r, reason, now);
    case Revised(c) => RevisionCounters(n, c, now);
    case Readded(c) => RevisionCounters(n, c, now);
    case Restarted(c, hasResult) =>
      RepairedKeeps(n, hasResult, now);
      RevisionCounters(Repaired(n, hasResult, now), c, now);
    case _ =>
  }

  lemma ResultCounters(n: Node, r: Result, reason: CheckReason, now: int)
    ensures var m := AfterResult(n, r, reason, now);
            && m.failures == (if r.ok then 0 else n.failures + 1) && m.successes == (if r.Clean() then n.successes + 1 else 0)
            && m.lastResultAt == r.at
            && m.failureEpisode == (if !r.ok && n.failures == 0 then (n.failureEpisode + 1) % EPISODES else n.failureEpisode)
  {
  }

  lemma RevisionCounters(n: Node, c: Connection, now: int)
    ensures var m := AfterRevision(n, c, now);
            m.failures == m.successes == 0 && m.lastResultAt == n.lastResultAt && m.failureEpisode == n.failureEpisode
  {
  }

  /** Every change keeps the refinement. */
  lemma RefinesStep(t: Trace, e: Event, now: int)
    requires Refines(t)
    ensures Refines(StepTrace(t, e, now))
  {
    CountersFollow(t.node, e, now);
    HistoryStep(t, e, now);
    LogFollows(t, EffectOf(t.node, e), Apply(t.node, e, now), t.full + Appended(t.node, e, now));
  }

  lemma LogFollows(t: Trace, f: Effect, m: Node, full: seq<Entry>)
    requires Refines(t)
    requires !f.OpenedFresh? && !f.OpenedFrom?
    requires m.failures == (match f { case Quiet => t.node.failures case Counted(r) => (if r.ok then 0 else t.node.failures + 1) case _ => 0 })
    requires m.successes == (match f { case Quiet => t.node.successes case Counted(r) => (if r.Clean() then t.node.successes + 1 else 0) case _ => 0 })
    requires m.lastResultAt == (if f.Counted? then f.result.at else t.node.lastResultAt)
    requires f.Counted? ==> f.result.at > t.node.lastResultAt
    requires m.failureEpisode == (if f.Counted? && !f.result.ok && t.node.failures == 0 then (t.node.failureEpisode + 1) % EPISODES else t.node.failureEpisode)
    requires m.history == LastN(full, HISTORY_LIMIT)
    ensures Refines(Trace(m, t.log + [f], full))
  {
    LogStep(t.log, f);
    var log := t.log + [f];
    assert log[..|log| - 1] == t.log;
    if f.Counted? {
      StampsExtend(t.log, f.result);
    }
  }

  lemma StampsExtend(log: seq<Effect>, r: Result)
    requires StrictlyIncreasing(Stamps(log))
    requires Stamps(log) != [] ==> Stamps(log)[|Stamps(log)| - 1] < r.at
    ensures StrictlyIncreasing(Stamps(log) + [r.at])
  {
  }

  function AppendAll(history: seq<Entry>, added: seq<Entry>): seq<Entry>
    decreases |added|
  {
    if added == [] then history else AppendAll(Append(history, added[0]), added[1..])
  }

  lemma AppendNewest(history: seq<Entry>, n: Node, e: Entry)
    requires n.history == Append(history, e)
    ensures Newest(n) == [e]
    ensures AppendAll(history, Newest(n)) == n.history
  {
    assert Append(history, e)[|Append(history, e)| - 1] == e;
    assert AppendAll(history, [e]) == AppendAll(Append(history, e), [e][1..]);
  }

  lemma RevisionAppends(n: Node, c: Connection, now: int)
    ensures AppendAll(n.history, Newest(AfterRevision(n, c, now))) == AfterRevision(n, c, now).history
  {
    var m := AfterRevision(n, c, now);
    var previous := if n.currentAddress == "" then c.Address() else n.currentAddress;
    AppendNewest(n.history, m, Entry(now, RevisionKind, m.state, [previous], [c.Address()], false, false, ""));
  }

  lemma ResultAppends(n: Node, r: Result, reason: CheckReason, now: int)
    ensures AppendAll(n.history, Newest(AfterResult(n, r, reason, now))) == AfterResult(n, r, reason, now).history
  {
    var m := AfterResult(n, r, reason, now);
    AppendNewest(n.history, m, Entry(now, if reason.Diagnosis? then DiagnosisKind else CheckKind, m.state, [], [], r.ok, r.unstable, r.error));
  }

  lemma ReturnAppends(n: Node, c: Connection, now: int)
    ensures AppendAll(n.history, Appended(n, Readded(c), now)) == AfterReturn(n, c, now).history
  {
    var m := AfterReturn(n, c, now);
    if n.currentAddress == c.Address() && n.revision == c {
      AppendNewest(n.history, m, Entry(now, ReturnedKind, n.state, [n.currentAddress], [c.Address()], false, false, ""));
    } else {
      var k := AfterRevision(n, c, now);
      var previous := if n.currentAddress == "" then c.Address() else n.currentAddress;
      var first := Entry(now, RevisionKind, k.state, [previous], [c.Address()], false, false, "");
      AppendNewest(n.history, k, first);
      AppendNewest(k.history, m, Entry(now, ReturnedChangedKind, k.state, [n.currentAddress], [c.Address()], false, false, ""));
      assert Appended(n, Readded(c), now) == [first] + Newest(m);
      assert ([first] + Newest(m))[1..] == Newest(m);
    }
  }

  lemma RepairedKeeps(n: Node, hasResult: bool, now: int)
    ensures var b := Repaired(n, hasResult, now);
            b.history == n.history && b.revision == n.revision && b.failures == n.failures && b.successes == n.successes &&
            b.failureEpisode == n.failureEpisode && b.lastResultAt == n.lastResultAt && b.resolvedIPs == n.resolvedIPs &&
            b.currentAddress == n.currentAddress
  {
  }

  lemma RestartAppends(n: Node, c: Connection, hasResult: bool, now: int)
    ensures AppendAll(n.history, Appended(n, Restarted(c, hasResult), now)) == AfterRestart(n, c, hasResult, now).history
  {
    RepairedKeeps(n, hasResult, now);
    var b := Repaired(n, hasResult, now);
    if n.revision != c {
      assert AfterRestart(n, c, hasResult, now) == AfterRevision(b, c, now);
      RevisionAppends(b, c, now);
    }
  }

  lemma HistoryFollows(n: Node, e: Event, now: int)
    ensures Apply(n, e, now).history == AppendAll(n.history, Appended(n, e, now))
  {
    match e {
      case Observed(r, reason) => ResultAppends(n, r, reason, now);
      case Revised(c) => RevisionAppends(n, c, now);
      case Resolved(ips) =>
        if EffectOf(n, e).Reset? {
          AppendNewest(n.history, AfterResolve(n, ips, now), Entry(now, DnsKind, IPChanged, n.resolvedIPs, ips, false, false, ""));
        }
      case Renamed => AppendNewest(n.history, Apply(n, e, now), Entry(now, RenamedKind, n.state, [], [], false, false, ""));
      case Removed => AppendNewest(n.history, Apply(n, e, now), Entry(now, RemovedKind, n.state, [n.currentAddress], [], false, false, ""));
      case Readded(c) => ReturnAppends(n, c, now);
      case Restarted(c, hasResult) => RestartAppends(n, c, hasResult, now);
      case Doubted =>
    }
  }

  lemma {:induction false} TrimmedOnce(full: seq<Entry>, history: seq<Entry>, added: seq<Entry>)
    requires history == LastN(full, HISTORY_LIMIT)
    ensures AppendAll(history, added) == LastN(full + added, HISTORY_LIMIT)
    decreases |added|
  {
    if added == [] {
      assert full + added == full;
    } else {
      LastNAppend(full, added[0], HISTORY_LIMIT);
      TrimmedOnce(full + [added[0]], Append(history, added[0]), added[1..]);
      assert full + [added[0]] + added[1..] == full + added;
    }
  }

  lemma HistoryStep(t: Trace, e: Event, now: int)
    requires t.node.history == LastN(t.full, HISTORY_LIMIT)
    ensures Apply(t.node, e, now).history == LastN(t.full + Appended(t.node, e, now), HISTORY_LIMIT)
  {
    HistoryFollows(t.node, e, now);
    TrimmedOnce(t.full, t.node.history, Appended(t.node, e, now));
  }

  // ---- whole runs ----

  datatype Timed = Timed(event: Event, now: int)

  function Run(t: Trace, es: seq<Timed>): Trace {
    if es == [] then t
    else
      var last := es[|es| - 1];
      StepTrace(Run(t, es[..|es| - 1]), last.event, last.now)
  }

  /** What the i-th event of a run meant, given the record it met. */
  function EffectAt(t: Trace, es: seq<Timed>, i: nat): Effect
    requires i < |es|
  {
    EffectOf(Run(t, es[..i]).node, es[i].event)
  }

  function Opened(seed: nat, c: Connection, now: int): Trace {
    var n := Fresh(seed, c, now);
    Trace(n, [OpenedFresh], n.history)
  }

  function Restored(seed: nat, c: Connection, r: Result, now: int): Trace {
    Trace(FromResult(seed, c, r, now), [OpenedFrom(r)], [])
  }

  lemma RunStep(t: Trace, es: seq<Timed>, e: Timed)
    ensures Run(t, es + [e]) == StepTrace(Run(t, es), e.event, e.now)
  {
    assert (es + [e])[..|es|] == es;
  }

  lemma OpenRefines(seed: nat, c: Connection, r: Result, now: int)
    ensures Refines(Opened(seed, c, now)) && StateBounds(Opened(seed, c, now).node) && RemembersOrigin(Opened(seed, c, now).node)
    ensures Refines(Restored(seed, c, r, now)) && StateBounds(Restored(seed, c, r, now).node) && RemembersOrigin(Restored(seed, c, r, now).node)
  {
    assert [OpenedFresh][..0] == [];
    assert [OpenedFrom(r)][..0] == [];
    assert Stamps([OpenedFrom(r)]) == [r.at];
    assert Stamps([OpenedFresh]) == [];
  }

  lemma ResultBounds(n: Node, r: Result, reason: CheckReason, now: int)
    requires StateBounds(n)
    ensures StateBounds(AfterResult(n, r, reason, now))
  {
  }

  lemma RevisionBounds(n: Node, c: Connection, now: int)
    ensures StateBounds(AfterRevision(n, c, now))
  {
  }

  lemma RestartBounds(n: Node, c: Connection, hasResult: bool, now: int)
    requires StateBounds(n)
    ensures StateBounds(AfterRestart(n, c, hasResult, now))
  {
    RevisionBounds(Repaired(n, hasResult, now), c, now);
    hide AfterRevision;
  }

  lemma BoundsStep(n: Node, e: Event, now: int)
    requires StateBounds(n)
    ensures StateBounds(Apply(n, e, now))
  {
    hide AfterResult, AfterRevision, AfterRestart;
    match e
    case Observed(r, reason) => ResultBounds(n, r, reason, now);
    case Revised(c) => RevisionBounds(n, c, now);
    case Readded(c) => RevisionBounds(n, c, now);
    case Restarted(c, hasResult) => RestartBounds(n, c, hasResult, now);
    case _ =>
  }

  /** Along every run, of any events in any order, the counters are the trailing runs of
      the log, the episode number counts the failure runs, no measurement time is counted
      twice, the stored history is the end of the full one, and the state bounds the counters. */
  lemma {:induction false} RunRefines(t: Trace, es: seq<Timed>)
    requires Refines(t) && StateBounds(t.node)
    ensures Refines(Run(t, es)) && StateBounds(Run(t, es).node)
    decreases |es|
  {
    if es != [] {
      var last := es[|es| - 1];
      var u := Run(t, es[..|es| - 1]);
      RunRefines(t, es[..|es| - 1]);
      RefinesStep(u, last.event, last.now);
      BoundsStep(u.node, last.event, last.now);
    }
  }

  /** The success counter is the trailing run of clean measurements exactly when the log
      is not a restored partial success followed by clean ones only. */
  lemma SuccessesExact(t: Trace, es: seq<Timed>)
    requires Refines(t) && StateBounds(t.node)
    ensures Run(t, es).node.successes == CleanRun(Run(t, es).log) <==> !OpensPartial(Run(t, es).log)
  {
    RunRefines(t, es);
  }

  /** A restored partial success already counts one clean confirmation. */
  lemma RestoredPartialOvercounts(seed: nat, c: Connection)
    ensures var r := Result(true, true, 5, "", "");
            Restored(seed, c, r, 0).node.successes == 1 && CleanRun(Restored(seed, c, r, 0).log) == 0
  {
    var r := Result(true, true, 5, "", "");
    assert [OpenedFrom(r)][..0] == [];
  }

  // ---- a replacement is confirmed twice ----

  predicate Unmoved(n: Node, c: Connection) {
    n.currentAddress == "" || n.currentAddress == c.Address()
  }

  predicate Artifact(n: Node) {
    n.previousAddress == n.currentAddress && n.previousAddress != "" && n.previousResolvedIPs == n.resolvedIPs
  }

  /** The guards under which the code ends a replacement that nothing has confirmed. */
  predicate UnconfirmedExit(n: Node, e: Event) {
    match e
    case Revised(c) => Unmoved(n, c) && !Displaced(n, c.Address())
    case Readded(c) => !(n.currentAddress == c.Address() && n.revision == c) && Unmoved(n, c) && !Displaced(n, c.Address())
    case Restarted(c, _) =>
      (n.revision == c || Unmoved(n, c)) && (Artifact(n) || (n.revision != c && !Displaced(n, c.Address())))
    case _ => false
  }

  /** Exactly when one change takes a record out of a replacement: a clean result after an
      unbroken clean one, or one of the guards above. */
  lemma LeavesReplacementIff(n: Node, e: Event, now: int)
    requires InReplacement(n.state)
    ensures !InReplacement(Apply(n, e, now).state) <==>
            || (EffectOf(n, e).Counted? && EffectOf(n, e).result.Clean() && n.successes >= 1)
            || UnconfirmedExit(n, e)
    ensures EffectOf(n, e).Counted? && EffectOf(n, e).result.Clean() && n.successes >= 1 ==> Apply(n, e, now).state.Fixed?
  {
  }

  lemma NoUnconfirmedExit(n: Node, e: Event)
    requires RemembersOrigin(n) && InReplacement(n.state)
    ensures !UnconfirmedExit(n, e)
  {
  }

  lemma OriginAfterRevision(n: Node, c: Connection, now: int)
    requires RemembersOrigin(n)
    ensures RemembersOrigin(AfterRevision(n, c, now))
  {
  }

  lemma OriginAfterResult(n: Node, r: Result, reason: CheckReason, now: int)
    requires RemembersOrigin(n)
    ensures RemembersOrigin(AfterResult(n, r, reason, now))
  {
  }

  lemma OriginAfterRestart(n: Node, c: Connection, hasResult: bool, now: int)
    requires RemembersOrigin(n)
    ensures RemembersOrigin(AfterRestart(n, c, hasResult, now))
  {
    var b := Repaired(n, hasResult, now);
    assert RemembersOrigin(b);
    if b.revision != c {
      OriginAfterRevision(b, c, now);
    }
  }

  /** The return of an unchanged binding that forgets where it was replaced from: only its resolved
      addresses told, and they are lost, or are again those from before. */
  predicate Forgets(n: Node, e: Event) {
    && e.Readded? && n.currentAddress == e.conn.Address() && n.revision == e.conn && InReplacement(n.state)
    && (n.previousAddress == "" || n.previousAddress == n.currentAddress)
    && (e.conn.literal == [] || e.conn.literal == n.previousResolvedIPs)
  }

  /** Exactly the changes that do not forget it keep the origin of a replacement. */
  lemma OriginStep(n: Node, e: Event, now: int)
    requires RemembersOrigin(n)
    ensures RemembersOrigin(Apply(n, e, now)) <==> !Forgets(n, e)
  {
    match e {
      case Observed(r, reason) => OriginAfterResult(n, r, reason, now);
      case Revised(c) => OriginAfterRevision(n, c, now);
      case Readded(c) => OriginAfterRevision(n, c, now);
      case Restarted(c, hasResult) => OriginAfterRestart(n, c, hasResult, now);
      case Resolved(ips) =>
      case _ =>
    }
  }

  /** No event of the run is such a return. */
  ghost predicate Remembered(t: Trace, es: seq<Timed>) {
    forall i :: 0 <= i < |es| ==> !ForgetsAt(t, es, i)
  }

  predicate ForgetsAt(t: Trace, es: seq<Timed>, i: nat)
    requires i < |es|
  {
    Forgets(Run(t, es[..i]).node, es[i].event)
  }

  lemma RememberedPrefix(t: Trace, es: seq<Timed>, e: Timed)
    requires Remembered(t, es + [e])
    ensures Remembered(t, es) && !Forgets(Run(t, es).node, e.event)
  {
    PrefixFacts(t, es, e);
    forall i | 0 <= i < |es| ensures !ForgetsAt(t, es, i) {
      assert !ForgetsAt(t, es + [e], i) && (es + [e])[..i] == es[..i] && (es + [e])[i] == es[i];
    }
    assert !ForgetsAt(t, es + [e], |es|) && (es + [e])[..|es|] == es;
  }

  /** Two clean measurements with nothing but quiet events between them. */
  ghost predicate Confirmation(t: Trace, es: seq<Timed>, i: nat, j: nat) {
    && i < j < |es|
    && IsClean(EffectAt(t, es, i)) && IsClean(EffectAt(t, es, j))
    && forall k :: i < k < j ==> EffectAt(t, es, k).Quiet?
  }

  predicate IsClean(f: Effect) { f.Counted? && f.result.Clean() }

  ghost predicate HeldTo(t: Trace, es: seq<Timed>, n: nat)
    requires n <= |es|
  {
    forall k :: 0 <= k <= n ==> InReplacement(Run(t, es[..k]).node.state)
  }

  lemma PrefixFacts(t: Trace, es: seq<Timed>, e: Timed)
    ensures forall k :: 0 <= k <= |es| ==> (es + [e])[..k] == es[..k]
    ensures forall k :: 0 <= k < |es| ==> EffectAt(t, es + [e], k) == EffectAt(t, es, k)
    ensures EffectAt(t, es + [e], |es|) == EffectOf(Run(t, es).node, e.event)
  {
    forall k | 0 <= k <= |es| ensures (es + [e])[..k] == es[..k] {
    }
    assert (es + [e])[..|es|] == es;
  }

  /** While a replacement is held, one counted success means that a clean measurement
      arrived and only quiet events followed. */
  ghost predicate FirstClean(t: Trace, es: seq<Timed>, i: nat) {
    && i < |es| && IsClean(EffectAt(t, es, i))
    && forall k :: i < k < |es| ==> EffectAt(t, es, k).Quiet?
  }

  lemma {:induction false} HeldEvidence(t: Trace, es: seq<Timed>)
    requires RemembersOrigin(t.node) && t.node.successes == 0 && Remembered(t, es)
    requires HeldTo(t, es, |es|)
    ensures RemembersOrigin(Run(t, es).node)
    ensures Run(t, es).node.successes >= 1 ==> exists i :: FirstClean(t, es, i)
    decreases |es|
  {
    if es != [] {
      var rest, last := es[..|es| - 1], es[|es| - 1];
      assert es == rest + [last];
      PrefixFacts(t, rest, last);
      RememberedPrefix(t, rest, last);
      assert HeldTo(t, rest, |rest|) by {
        forall k | 0 <= k <= |rest| ensures InReplacement(Run(t, rest[..k]).node.state) {
          assert es[..k] == rest[..k];
        }
      }
      HeldEvidence(t, rest);
      var u := Run(t, rest);
      RunStep(t, rest, last);
      OriginStep(u.node, last.event, last.now);
      CountersFollow(u.node, last.event, last.now);
      if Run(t, es).node.successes >= 1 {
        if EffectAt(t, es, |rest|).Quiet? {
          var i :| FirstClean(t, rest, i);
          assert FirstClean(t, es, i);
        } else {
          assert FirstClean(t, es, |rest|);
        }
      }
    }
  }

  /** One more event keeps the replacement or confirms it. */
  lemma HeldOnceMore(t: Trace, rest: seq<Timed>, last: Timed)
    requires RemembersOrigin(t.node) && t.node.successes == 0 && Remembered(t, rest + [last]) && HeldTo(t, rest, |rest|)
    ensures var es := rest + [last];
            HeldTo(t, es, |es|) || exists i :: Confirmation(t, es, i, |rest|) && HeldTo(t, es, |rest|) && Run(t, es[..|es|]).node.state.Fixed?
  {
    var es := rest + [last];
    hide Apply, EffectOf, UnconfirmedExit, Forgets, RemembersOrigin, InReplacement, Appended, Remembered;
    PrefixFacts(t, rest, last);
    HeldToExtends(t, rest, last, |rest|);
    RememberedPrefix(t, rest, last);
    HeldEvidence(t, rest);
    assert rest[..|rest|] == rest && es[..|es|] == es && es[|rest|] == last;
    var u := Run(t, rest);
    RunStep(t, rest, last);
    LeavesReplacementIff(u.node, last.event, last.now);
    NoUnconfirmedExit(u.node, last.event);
    if InReplacement(Run(t, es).node.state) {
      assert HeldTo(t, es, |es|);
    } else {
      var i :| FirstClean(t, rest, i);
      assert Confirmation(t, es, i, |rest|);
    }
  }

  /** Unless a return forgets its origin, a record in a replacement stays in one until two
      clean results arrive with no failed, partial, edit or change event between them; the
      second of them makes it fixed.  This holds along every run. */
  lemma {:induction false} ReplacementHeldUntilConfirmed(t: Trace, es: seq<Timed>)
    requires RemembersOrigin(t.node) && InReplacement(t.node.state) && t.node.successes == 0
    requires Remembered(t, es)
    ensures HeldTo(t, es, |es|) ||
            exists i, j :: Confirmation(t, es, i, j) && HeldTo(t, es, j) && Run(t, es[..j + 1]).node.state.Fixed?
    decreases |es|
  {
    if es != [] {
      var rest, last := es[..|es| - 1], es[|es| - 1];
      assert es == rest + [last];
      RememberedPrefix(t, rest, last);
      hide Confirmation, HeldTo, Remembered, RemembersOrigin;
      ReplacementHeldUntilConfirmed(t, rest);
      if HeldTo(t, rest, |rest|) {
        HeldOnceMore(t, rest, last);
        assert es[..|rest| + 1] == es[..|es|];
      } else {
        var i, j :| Confirmation(t, rest, i, j) && HeldTo(t, rest, j) && Run(t, rest[..j + 1]).node.state.Fixed?;
        ConfirmationExtends(t, rest, last, i, j);
      }
    }
  }

  lemma ConfirmationExtends(t: Trace, es: seq<Timed>, e: Timed, i: nat, j: nat)
    requires Confirmation(t, es, i, j) && HeldTo(t, es, j)
    ensures Confirmation(t, es + [e], i, j) && HeldTo(t, es + [e], j) && (es + [e])[..j + 1] == es[..j + 1]
  {
    PrefixFacts(t, es, e);
    HeldToExtends(t, es, e, j);
  }

  lemma HeldToExtends(t: Trace, es: seq<Timed>, e: Timed, n: nat)
    requires n <= |es| && HeldTo(t, es, n)
    ensures HeldTo(t, es + [e], n)
  {
    forall k | 0 <= k <= n ensures InReplacement(Run(t, (es + [e])[..k]).node.state) {
      assert (es + [e])[..k] == es[..k];
    }
  }

  /** Every address or DNS change opens a replacement that meets the conditions above. */
  lemma ChangeOpensReplacement(n: Node, e: Event, now: int)
    requires RemembersOrigin(n)
    requires (e.Revised? && e.conn.Address() != n.currentAddress) || (e.Resolved? && EffectOf(n, e).Reset?)
    ensures var m := Apply(n, e, now); m.state.IPChanged? && m.successes == 0 && RemembersOrigin(m)
  {
    OriginStep(n, e, now);
  }

  /** Detachment loses the resolved addresses of a host name, so a binding that leaves,
      returns and resolves to its former address ends the replacement without evidence. */
  lemma ReturnWaivesConfirmation(c: Connection, edited: Connection)
    requires c.literal == [] && edited.Address() == c.Address() && edited != c
    ensures var n := Fresh(0, c, 0);
            var m2 := Apply(Apply(n, Resolved(["old"]), 1), Resolved(["new"]), 2);
            var m4 := Apply(Apply(m2, Removed, 3), Readded(c), 4);
            var m6 := Apply(Apply(m4, Resolved(["old"]), 5), Revised(edited), 6);
            m2.state.IPChanged? && RemembersOrigin(m2) && Forgets(Apply(m2, Removed, 3), Readded(c)) && m6.state.ConfigChanged? && m6.lastResultAt == 0
  {
  }
}
