/** What a monitor record shows: its state, deadline and measurement fields in terms of its log. */
module Evidence {
  import opened Repair
  import opened Monitor

  // ---- what one counted measurement leaves ----

  /** A record in a replacement has left a restored partial success behind. */
  predicate Traceable(t: Trace) {
    InReplacement(t.node.state) ==> !OpensPartial(t.log)
  }

  lemma OpenIsTraceable(seed: nat, c: Connection, r: Result, now: int)
    ensures Traceable(Opened(seed, c, now)) && Traceable(Restored(seed, c, r, now))
  {
  }

  lemma OnlyResetsOpen(n: Node, e: Event, now: int)
    requires InReplacement(Apply(n, e, now).state)
    ensures EffectOf(n, e).Reset? || InReplacement(n.state)
  {
  }

  lemma TraceableStep(t: Trace, e: Event, now: int)
    requires Traceable(t)
    ensures Traceable(StepTrace(t, e, now))
  {
    var log := t.log + [EffectOf(t.node, e)];
    assert log[..|log| - 1] == t.log;
    if InReplacement(Apply(t.node, e, now).state) {
      OnlyResetsOpen(t.node, e, now);
      CountersFollow(t.node, e, now);
    }
    hide Apply, EffectOf, Appended;
  }

  lemma {:induction false} RunIsTraceable(t: Trace, es: seq<Timed>)
    requires Traceable(t)
    ensures Traceable(Run(t, es))
    decreases |es|
  {
    if es != [] {
      RunIsTraceable(t, es[..|es| - 1]);
      TraceableStep(Run(t, es[..|es| - 1]), es[|es| - 1].event, es[|es| - 1].now);
    }
  }

  /** After every run, a newer measurement leaves the state and the deadline that the log calls for:
      outside a replacement healthy, unstable, suspected for the first two failures of a run and
      needs_replacement from the third on; in one, fixed from the second clean one of a run on,
      new_ip_failed from the second failure on, and verifying_new_ip otherwise. */
  lemma ResultTells(t: Trace, es: seq<Timed>, r: Result, reason: CheckReason, now: int)
    requires Refines(t) && StateBounds(t.node) && Traceable(t) && Run(t, es).node.lastResultAt < r.at
    ensures var u := Run(t, es); var v := StepTrace(u, Observed(r, reason), now);
            && Verdict(InReplacement(u.node.state), FailureRun(v.log), CleanRun(v.log), r, v.node.state)
            && Rechecks(FailureRun(v.log), r, v.node.state, v.node.nextCheck - now)
  {
    var u := Run(t, es);
    RunRefines(t, es);
    RunIsTraceable(t, es);
    RefinesStep(u, Observed(r, reason), now);
    ResultStep(u, r, reason, now);
  }

  lemma ResultStep(u: Trace, r: Result, reason: CheckReason, now: int)
    requires Refines(u) && StateBounds(u.node) && Traceable(u) && u.node.lastResultAt < r.at
    ensures var v := StepTrace(u, Observed(r, reason), now);
            && Verdict(InReplacement(u.node.state), FailureRun(v.log), CleanRun(v.log), r, v.node.state)
            && Rechecks(FailureRun(v.log), r, v.node.state, v.node.nextCheck - now)
  {
    LogStep(u.log, Counted(r));
    hide FailureRun, CleanRun, OpensPartial, Stamps, Stamp;
  }

  // ---- which measurements a record shows ----

  /** What an effect measured. */
  function MeasuredBy(e: Effect): seq<Result> {
    if e.Counted? || e.OpenedFrom? then [e.result] else []
  }

  /** The measurements that the log counts, oldest first, ... */
  function Measured(log: seq<Effect>): seq<Result> {
    if log == [] then [] else Measured(log[..|log| - 1]) + MeasuredBy(log[|log| - 1])
  }

  predicate Succeeds(e: Effect) { (e.Counted? || e.OpenedFrom?) && e.result.ok }

  /** ... the successful ones, ... */
  function Succeeded(log: seq<Effect>): seq<Result> {
    if log == [] then []
    else Succeeded(log[..|log| - 1]) + (if Succeeds(log[|log| - 1]) then MeasuredBy(log[|log| - 1]) else [])
  }

  /** ... and those since the binding was last edited. */
  function SinceEdit(log: seq<Effect>): seq<Result> {
    if log == [] || IsEdit(log[|log| - 1]) then [] else SinceEdit(log[..|log| - 1]) + MeasuredBy(log[|log| - 1])
  }

  predicate IsEdit(e: Effect) { e.Reset? && e.edited }

  lemma MeasuredAppend(log: seq<Effect>, e: Effect)
    ensures Measured(log + [e]) == Measured(log) + MeasuredBy(e)
    ensures Succeeded(log + [e]) == Succeeded(log) + (if Succeeds(e) then MeasuredBy(e) else [])
    ensures SinceEdit(log + [e]) == if IsEdit(e) then [] else SinceEdit(log) + MeasuredBy(e)
  {
    assert (log + [e])[..|log|] == log;
  }

  /** The times are those of the last measurement and the last success; the error and the exit
      address are those of the last measurement of the connection in use. */
  predicate ShowsLast(t: Trace) {
    var all, good, own := Measured(t.log), Succeeded(t.log), SinceEdit(t.log);
    && t.node.lastCheck == (if all == [] then 0 else all[|all| - 1].Seconds())
    && t.node.lastResultAt == (if all == [] then 0 else all[|all| - 1].at)
    && t.node.lastSuccess == (if good == [] then 0 else good[|good| - 1].Seconds())
    && t.node.lastError == (if own == [] then "" else own[|own| - 1].error)
    && t.node.exitIP == (if own == [] then "" else own[|own| - 1].exitIP)
  }

  /** The failure run began with the first of its measurements. */
  predicate ShowsStart(t: Trace) {
    var all, n := Measured(t.log), FailureRun(t.log);
    n > 0 ==> n <= |all| && t.node.failureStartedAt == all[|all| - n].Seconds()
  }

  /** The successes that ended at least two failures in a row. */
  function Recoveries(log: seq<Effect>): seq<Result> {
    if log == [] then []
    else
      var rest, last := log[..|log| - 1], log[|log| - 1];
      Recoveries(rest) + (if last.Counted? && last.result.ok && FailureRun(rest) >= 2 then [last.result] else [])
  }

  predicate ShowsRecovery(t: Trace) {
    var all := Recoveries(t.log);
    t.node.recoveredAt == if all == [] then 0 else all[|all| - 1].Seconds()
  }

  lemma RecoveryStep(t: Trace, f: Effect, m: Node, full: seq<Entry>)
    requires ShowsRecovery(t) && FieldsFollow(t.node, f, m) && t.node.failures == FailureRun(t.log)
    ensures ShowsRecovery(Trace(m, t.log + [f], full))
  {
    assert (t.log + [f])[..|t.log|] == t.log;
    hide FailureRun;
  }

  /** What a measurement and what any other event does to these fields. */
  predicate FieldsFollow(n: Node, f: Effect, m: Node) {
    && !f.OpenedFrom? && !f.OpenedFresh?
    && m.lastCheck == (if f.Counted? then f.result.Seconds() else n.lastCheck)
    && m.lastResultAt == (if f.Counted? then f.result.at else n.lastResultAt)
    && m.lastSuccess == (if f.Counted? && f.result.ok then f.result.Seconds() else n.lastSuccess)
    && m.failureStartedAt == (if f.Counted? && !f.result.ok && n.failures == 0 then f.result.Seconds() else n.failureStartedAt)
    && m.recoveredAt == (if f.Counted? && f.result.ok && n.failures >= 2 then f.result.Seconds() else n.recoveredAt)
    && m.lastError == (if f.Counted? then f.result.error else if IsEdit(f) then "" else n.lastError)
    && m.exitIP == (if f.Counted? then f.result.exitIP else if IsEdit(f) then "" else n.exitIP)
  }

  lemma ResultFields(n: Node, r: Result, reason: CheckReason, now: int)
    ensures FieldsFollow(n, Counted(r), AfterResult(n, r, reason, now))
  {
  }

  lemma RevisionFields(n: Node, c: Connection, now: int)
    ensures FieldsFollow(n, Reset(true), AfterRevision(n, c, now))
  {
  }

  lemma RepairedFields(n: Node, hasResult: bool, now: int)
    ensures FieldsFollow(n, Quiet, Repaired(n, hasResult, now)) && Repaired(n, hasResult, now).revision == n.revision
  {
  }

  lemma EventFields(n: Node, e: Event, now: int)
    ensures FieldsFollow(n, EffectOf(n, e), Apply(n, e, now))
  {
    hide AfterResult, AfterRevision, Repaired;
    match e
    case Observed(r, reason) => ResultFields(n, r, reason, now);
    case Revised(c) => RevisionFields(n, c, now);
    case Readded(c) => RevisionFields(n, c, now);
    case Restarted(c, hasResult) =>
      RepairedFields(n, hasResult, now);
      RevisionFields(Repaired(n, hasResult, now), c, now);
    case _ =>
  }

  lemma LastStep(t: Trace, f: Effect, m: Node, full: seq<Entry>)
    requires ShowsLast(t) && FieldsFollow(t.node, f, m)
    ensures ShowsLast(Trace(m, t.log + [f], full))
  {
    MeasuredAppend(t.log, f);
    hide Measured, Succeeded, SinceEdit;
  }

  lemma StartStep(t: Trace, f: Effect, m: Node, full: seq<Entry>)
    requires ShowsStart(t) && FieldsFollow(t.node, f, m) && t.log != [] && t.node.failures == FailureRun(t.log)
    ensures ShowsStart(Trace(m, t.log + [f], full))
  {
    MeasuredAppend(t.log, f);
    LogStep(t.log, f);
    hide Measured, FailureRun, CleanRun, Stamps;
  }

  lemma ShowsStep(t: Trace, e: Event, now: int)
    requires Refines(t) && ShowsLast(t) && ShowsStart(t) && ShowsRecovery(t)
    ensures ShowsLast(StepTrace(t, e, now)) && ShowsStart(StepTrace(t, e, now)) && ShowsRecovery(StepTrace(t, e, now))
  {
    EventFields(t.node, e, now);
    hide Apply, EffectOf, Appended, ShowsLast, ShowsStart, ShowsRecovery, FieldsFollow;
    RecoveryStep(t, EffectOf(t.node, e), Apply(t.node, e, now), t.full + Appended(t.node, e, now));
    LastStep(t, EffectOf(t.node, e), Apply(t.node, e, now), t.full + Appended(t.node, e, now));
    StartStep(t, EffectOf(t.node, e), Apply(t.node, e, now), t.full + Appended(t.node, e, now));
  }

  lemma OpenShows(seed: nat, c: Connection, r: Result, now: int)
    ensures ShowsLast(Opened(seed, c, now)) && ShowsStart(Opened(seed, c, now)) && ShowsRecovery(Opened(seed, c, now))
    ensures ShowsLast(Restored(seed, c, r, now)) && ShowsStart(Restored(seed, c, r, now)) && ShowsRecovery(Restored(seed, c, r, now))
  {
    MeasuredAppend([], OpenedFresh);
    MeasuredAppend([], OpenedFrom(r));
    assert [] + [OpenedFresh] == [OpenedFresh] && [] + [OpenedFrom(r)] == [OpenedFrom(r)];
  }

  /** Along every run the record shows the last measurement, the last success, the last recovery and the
      start of the failures, and nothing of a connection that is not in use any more. */
  lemma {:induction false} RunShowsLast(t: Trace, es: seq<Timed>)
    requires Refines(t) && StateBounds(t.node) && ShowsLast(t) && ShowsStart(t) && ShowsRecovery(t)
    ensures ShowsLast(Run(t, es)) && ShowsStart(Run(t, es)) && ShowsRecovery(Run(t, es))
    decreases |es|
  {
    if es != [] {
      var rest, last := es[..|es| - 1], es[|es| - 1];
      RunShowsLast(t, rest);
      RunRefines(t, rest);
      hide ShowsLast, ShowsStart, ShowsRecovery, Refines, StateBounds;
      ShowsStep(Run(t, rest), last.event, last.now);
    }
  }

  // ---- what the other events leave ----

  /** A new binding is due at once; one with a restored result starts with the verdict on it. */
  lemma OpenTells(seed: nat, c: Connection, r: Result, now: int)
    ensures var n := Fresh(seed, c, now);
            && n.state.Unknown? && n.nextCheck == now && n.currentAddress == c.Address() && n.revision == c && n.resolvedIPs == c.literal
    ensures var n := FromResult(seed, c, r, now);
            && Verdict(false, n.failures, n.successes, r, n.state) && Rechecks(n.failures, r, n.state, n.nextCheck - now)
            && n.failures == (if r.ok then 0 else 1)
  {
  }

  /** An edit asks for a check at once, with the new connection and nothing of the old evidence; it
      opens or continues a replacement exactly when the address changed or one was under way. */
  lemma EditTells(n: Node, c: Connection, now: int)
    requires RemembersOrigin(n)
    ensures var m := Apply(n, Revised(c), now);
            && m.revision == c && m.currentAddress == c.Address() && m.nextCheck == now && m.updatedAt == now
            && m.failures == m.successes == 0
            && (m.state.IPChanged? <==> n.currentAddress != c.Address() || InReplacement(n.state))
            && (m.state.ConfigChanged? <==> n.currentAddress == c.Address() && !InReplacement(n.state))
            && (n.currentAddress != c.Address() ==>
                  m.previousAddress == n.currentAddress && m.previousResolvedIPs == n.resolvedIPs && m.resolvedIPs == c.literal && m.addressChangedAt == now)
            && (n.currentAddress == c.Address() ==>
                  m.previousAddress == n.previousAddress && m.previousResolvedIPs == n.previousResolvedIPs
                  && m.resolvedIPs == (if n.resolvedIPs == [] then c.literal else n.resolvedIPs)
                  && m.addressChangedAt == n.addressChangedAt)
            && m.seed == n.seed && m.endpointSuspectedAt == n.endpointSuspectedAt
  {
  }

  /** A lookup is remembered; one that differs from a former one asks for a check at once. */
  lemma LookupTells(n: Node, ips: seq<string>, now: int)
    ensures var m := Apply(n, Resolved(ips), now);
            && m.resolvedIPs == (if ips == [] then n.resolvedIPs else ips)
            && (ips != [] && n.resolvedIPs != [] && ips != n.resolvedIPs <==> EffectOf(n, Resolved(ips)).Reset?)
            && (if EffectOf(n, Resolved(ips)).Reset? then
                  m.nextCheck == now && m.previousResolvedIPs == n.resolvedIPs && m.addressChangedAt == now && m.state.IPChanged?
                else m.nextCheck == n.nextCheck && m.previousResolvedIPs == n.previousResolvedIPs && m.state == n.state)
  {
  }

  /** A TCP doubt makes the binding due and changes neither its state nor its evidence; the first
      doubt is kept until a measurement clears it. */
  lemma DoubtTells(n: Node, r: Result, reason: CheckReason, now: int)
    requires now > 0 && n.endpointSuspectedAt >= 0
    ensures var m := Apply(n, Doubted, now);
            && 0 < m.nextCheck <= now && (0 < n.nextCheck <= now ==> m.nextCheck == n.nextCheck)
            && m.endpointSuspectedAt == (if n.endpointSuspectedAt > 0 then n.endpointSuspectedAt else now)
            && m == n.(nextCheck := m.nextCheck, endpointSuspectedAt := m.endpointSuspectedAt)
            && (n.lastResultAt < r.at ==> Apply(m, Observed(r, reason), now).endpointSuspectedAt == 0)
  {
  }

  /** A binding that returns unchanged keeps its state and counters and is due at once. */
  lemma ReturnTells(n: Node, c: Connection, now: int)
    ensures var m := Apply(n, Readded(c), now);
            && m.nextCheck == now && m.revision == c && m.currentAddress == c.Address()
            && (n.currentAddress == c.Address() && n.revision == c ==>
                  m.state == n.state && m.failures == n.failures && m.successes == n.successes && m.resolvedIPs == c.literal)
            && (n.currentAddress != c.Address() || n.revision != c ==> m.failures == m.successes == 0)
  {
  }

  // ---- the history ----

  /** What an entry says about its event. */
  predicate Describes(x: Entry, n: Node, e: Event, m: Node, now: int) {
    && x.at == now && x.state == m.state
    && match e
       case Observed(r, reason) =>
         x.kind == (if reason.Diagnosis? then DiagnosisKind else CheckKind) && x.from == x.to == [] && x.online == r.ok && x.unstable == r.unstable && x.message == r.error
       case Revised(c) => x.kind == RevisionKind && x.to == [c.Address()]
       case Resolved(ips) => x.kind == DnsKind && x.from == n.resolvedIPs && x.to == ips
       case Renamed => x.kind == RenamedKind && x.from == x.to == []
       case Removed => x.kind == RemovedKind && x.from == [n.currentAddress] && x.to == []
       case Readded(c) =>
         if n.currentAddress == c.Address() && n.revision == c then x.kind == ReturnedKind && x.from == x.to == [c.Address()]
         else x.kind == RevisionKind || (x.kind == ReturnedChangedKind && x.from == [n.currentAddress] && x.to == [c.Address()])
       case Restarted(c, _) => x.kind == RevisionKind && x.to == [c.Address()]
       case Doubted => false
  }

  lemma LastAppended(history: seq<Entry>, x: Entry)
    ensures Append(history, x) != [] && Append(history, x)[|Append(history, x)| - 1] == x
  {
  }

  lemma RevisionDescribes(n: Node, c: Connection, now: int)
    ensures var added := Newest(AfterRevision(n, c, now));
            |added| == 1 && added[0].at == now && added[0].state == AfterRevision(n, c, now).state && added[0].kind == RevisionKind
            && added[0].from == [if n.currentAddress == "" then c.Address() else n.currentAddress] && added[0].to == [c.Address()]
  {
    var m := AfterRevision(n, c, now);
    LastAppended(n.history, Entry(now, RevisionKind, m.state, [if n.currentAddress == "" then c.Address() else n.currentAddress], [c.Address()], false, false, ""));
  }

  lemma ReturnDescribes(n: Node, c: Connection, now: int)
    ensures forall x :: x in Appended(n, Readded(c), now) ==> Describes(x, n, Readded(c), Apply(n, Readded(c), now), now)
    ensures |Appended(n, Readded(c), now)| == if EffectOf(n, Readded(c)).Quiet? then 1 else 2
  {
    if n.currentAddress == c.Address() && n.revision == c {
      LastAppended(n.history, Entry(now, ReturnedKind, n.state, [n.currentAddress], [c.Address()], false, false, ""));
    } else {
      RevisionDescribes(n, c, now);
      var m := AfterRevision(n, c, now);
      LastAppended(m.history, Entry(now, ReturnedChangedKind, m.state, [n.currentAddress], [c.Address()], false, false, ""));
    }
  }

  /** Every event adds entries that describe it: one for a counted measurement, a change, a renaming,
      a removal or an unchanged return, two for a changed return, none for the others. */
  lemma EntriesDescribe(n: Node, e: Event, now: int)
    ensures forall x :: x in Appended(n, e, now) ==> Describes(x, n, e, Apply(n, e, now), now)
    ensures |Appended(n, e, now)| ==
            if e.Renamed? || e.Removed? then 1
            else if EffectOf(n, e).Quiet? then (if e.Readded? then 1 else 0)
            else if e.Readded? then 2 else 1
  {
    match e
    case Observed(r, reason) =>
      LastAppended(n.history, Entry(now, if reason.Diagnosis? then DiagnosisKind else CheckKind, AfterResult(n, r, reason, now).state, [], [],
                                    r.ok, r.unstable, r.error));
    case Revised(c) => RevisionDescribes(n, c, now);
    case Resolved(ips) => LastAppended(n.history, Entry(now, DnsKind, IPChanged, n.resolvedIPs, ips, false, false, ""));
    case Renamed => LastAppended(n.history, Entry(now, RenamedKind, n.state, [], [], false, false, ""));
    case Removed => LastAppended(n.history, Entry(now, RemovedKind, n.state, [n.currentAddress], [], false, false, ""));
    case Readded(c) => ReturnDescribes(n, c, now);
    case Restarted(c, hasResult) =>
      RepairedKeeps(n, hasResult, now);
      RevisionDescribes(Repaired(n, hasResult, now), c, now);
    case Doubted =>
  }

  /** After a restart the record has the connection of the set.  If that is another one, this is an
      edit; otherwise nothing is forgotten, a replacement goes on, and a settled record without a
      result waits again. */
  lemma RestartTells(n: Node, c: Connection, hasResult: bool, now: int)
    requires RemembersOrigin(n)
    ensures var m := Apply(n, Restarted(c, hasResult), now);
            && m.revision == c && m.currentAddress == c.Address()
            && (n.revision != c ==> m.nextCheck == now && (m.state.IPChanged? || m.state.ConfigChanged?))
            && (n.revision == c ==> Resumes(n, hasResult, m, now))
  {
    if n.revision == c {
      RestartResumes(n, c, hasResult, now);
    } else {
      RepairedFields(n, hasResult, now);
      hide Repaired;
    }
  }

  predicate Resumes(n: Node, hasResult: bool, m: Node, now: int) {
    && m.failures == n.failures && m.successes == n.successes
    && (InReplacement(n.state) ==> m.state == n.state && m.nextCheck == n.nextCheck)
    && ((n.state.Healthy? || n.state.Fixed?) && !hasResult ==> m.state.Unknown? && m.nextCheck == now)
    && (n.state.Healthy? && hasResult ==> m.state.Healthy? && now < m.nextCheck <= now + 300)
    && (n.state.Fixed? && hasResult ==> (m.state.Fixed? || m.state.Healthy?) && now < m.nextCheck <= now + 300)
  }

  lemma RestartResumes(n: Node, c: Connection, hasResult: bool, now: int)
    requires RemembersOrigin(n) && n.revision == c
    ensures Resumes(n, hasResult, AfterRestart(n, c, hasResult, now), now)
  {
    hide AfterRevision;
    RepairedFields(n, hasResult, now);
  }
}
