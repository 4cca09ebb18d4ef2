/** The monitor table of checker/monitor.go: one mutable record per binding. */
module Monitor {
  import opened Repair

  /** A checkable binding.  `seed` is the hash of its logical ID. */
  datatype Binding = Binding(stableID: string, subName: string, logicalID: string, index: nat, seed: nat, conn: Connection)

  /** What both branches of applyMonitorResult copy from the measurement first. */
  function Stamped(n: Node, r: Result, now: int): Node {
    n.(lastCheck := r.Seconds(), lastResultAt := r.at, lastError := r.error, endpointSuspectedAt := 0,
       exitIP := r.exitIP, updatedAt := now)
  }

  /** A measurement's whole effect on a record but for its history entry. */
  function Judged(n: Node, r: Result, now: int): Node {
    AfterResult(n, r, Manual, now).(history := n.history)
  }

  /** The state after a measurement with which `failed` failures or `clean` clean ones are in a row:
      of a binding that was being replaced, or of another. */
  predicate Verdict(replaced: bool, failed: nat, clean: nat, r: Result, state: NodeState) {
    if replaced then
      && (state.Fixed? <==> clean >= 2)
      && (state.NewIPFailed? <==> failed >= 2)
      && (state.VerifyingNewIP? <==> clean < 2 && failed < 2)
    else
      && (state.Healthy? <==> r.ok && !r.unstable)
      && (state.Unstable? <==> r.ok && r.unstable)
      && (state.Suspected? <==> !r.ok && failed <= 2)
      && (state.NeedsReplacement? <==> !r.ok && failed >= 3)
  }

  /** How many seconds later the next check is due. */
  predicate Rechecks(failed: nat, r: Result, state: NodeState, delay: int) {
    && (state.Healthy? || state.Fixed? ==> 180 <= delay <= 300)
    && (state.Unstable? ==> 270 <= delay <= 330)
    && (state.VerifyingNewIP? && r.ok ==> delay == if r.unstable then 60 else 45)
    && (!r.ok ==> delay == if failed == 1 then 60 else if failed == 2 then 120 else if failed == 3 then 300 else 600)
  }

  lemma ResultIsJudged(n: Node, r: Result, reason: CheckReason, now: int)
    ensures var m := AfterResult(n, r, reason, now);
            Verdict(InReplacement(n.state), m.failures, m.successes, r, m.state) && Rechecks(m.failures, r, m.state, m.nextCheck - now)
  {
  }

  /** NodeMonitorState, with a log of what happened to it.  Each method assigns the fields in
      the order the source does and is specified by the function on records of the same change. */
  class NodeMonitorState {
    var node: Node
    ghost var log: seq<Effect>
    ghost var full: seq<Entry>

    ghost function Traced(): Trace
      reads this
    {
      Trace(node, log, full)
    }

    /** Counters, episode, clock guard and history are what the log says, and the state
        bounds the counters. */
    ghost predicate Valid()
      reads this
    {
      Refines(Traced()) && StateBounds(node)
    }

    /** The record that recordMonitorResults creates for a binding it has never seen. */
    constructor (b: Binding)
      ensures Valid() && node == Blank(b) && log == [OpenedFresh]
    {
      node := Node(b.seed, Unknown, b.conn.Address(), "", [], [], 0, b.conn, 0, 0, 0, 0, 0, 0, 0, 0, 0, "", "", 0, 0, []);
      log, full := [OpenedFresh], [];
      new;
      assert log[..0] == [];
    }

    method AppendNodeEvent(event: Entry)
      modifies this`node
      ensures node == old(node).(history := Append(old(node).history, event))
    {
      var history := node.history + [event];
      if |history| > HISTORY_LIMIT {
        history := history[|history| - HISTORY_LIMIT..];
      }
      node := node.(history := history);
    }

    /** The success branch of applyMonitorResult. */
    method JudgeSuccess(result: Result, now: int)
      requires result.ok
      modifies this`node
      ensures node == Judged(old(node), result, now)
    {
      var n := Stamped(node, result, now);
      var wasReplacement := node.state.IPChanged? || node.state.VerifyingNewIP? || node.state.NewIPFailed?;
      if n.failures >= 2 {
        n := n.(recoveredAt := result.Seconds());
      }
      n := n.(lastSuccess := result.Seconds());
      n := n.(failures := 0);
      if result.unstable {
        n := n.(successes := 0);
        if wasReplacement {
          n := n.(state := VerifyingNewIP, nextCheck := now + 60);
        } else {
          n := n.(state := Unstable, nextCheck := now + UnstableDelay(n.seed));
        }
      } else if wasReplacement {
        n := n.(successes := n.successes + 1);
        if n.successes >= 2 {
          n := n.(state := Fixed, nextCheck := now + HealthyDelay(n.seed));
        } else {
          n := n.(state := VerifyingNewIP, nextCheck := now + 45);
        }
      } else {
        n := n.(successes := n.successes + 1);
        n := n.(state := Healthy, nextCheck := now + HealthyDelay(n.seed));
      }
      node := n;
    }

    /** The failure branch of applyMonitorResult. */
    method JudgeFailure(result: Result, now: int)
      requires !result.ok
      modifies this`node
      ensures node == Judged(old(node), result, now)
    {
      var n := Stamped(node, result, now);
      var wasReplacement := node.state.IPChanged? || node.state.VerifyingNewIP? || node.state.NewIPFailed?;
      if n.failures == 0 {
        n := n.(failureEpisode := (n.failureEpisode + 1) % EPISODES);
        n := n.(failureStartedAt := result.Seconds());
      }
      n := n.(successes := 0);
      n := n.(failures := n.failures + 1);
      if wasReplacement {
        n := n.(state := if n.failures >= 2 then NewIPFailed else VerifyingNewIP);
      } else if n.failures >= 3 {
        n := n.(state := NeedsReplacement);
      } else {
        n := n.(state := Suspected);
      }
      n := n.(nextCheck := now + FailedRecheckDelay(n.failures));
      node := n;
    }

    /** applyMonitorResult. */
    method ApplyMonitorResult(result: Result, reason: CheckReason, now: int)
      modifies this`node
      ensures node == AfterResult(old(node), result, reason, now)
      ensures Verdict(InReplacement(old(node).state), node.failures, node.successes, result, node.state)
      ensures Rechecks(node.failures, result, node.state, node.nextCheck - now)
    {
      ResultIsJudged(node, result, reason, now);
      if result.ok {
        JudgeSuccess(result, now);
      } else {
        JudgeFailure(result, now);
      }
      var kind := if reason.Diagnosis? then DiagnosisKind else CheckKind;
      AppendNodeEvent(Entry(now, kind, node.state, [], [], result.ok, result.unstable, result.error));
    }

    /** markNodeRevisionChanged. */
    method MarkNodeRevisionChanged(conn: Connection, now: int)
      modifies this`node
      ensures node == AfterRevision(old(node), conn, now)
    {
      var previous := node.currentAddress;
      if previous == "" {
        previous := conn.Address();
      }
      var current := conn.Address();
      var wasReplacement := node.state.IPChanged? || node.state.VerifyingNewIP? || node.state.NewIPFailed?;
      node := node.(state := ConfigChanged);
      if previous != current {
        node := node.(previousAddress := previous);
        node := node.(addressChangedAt := now);
        node := node.(previousResolvedIPs := node.resolvedIPs);
        node := node.(resolvedIPs := conn.literal);
        node := node.(state := IPChanged);
      } else if wasReplacement &&
                ((node.previousAddress != "" && node.previousAddress != current) || node.previousResolvedIPs != node.resolvedIPs) {
        node := node.(state := IPChanged);
      }
      node := node.(currentAddress := current);
      if node.resolvedIPs == [] {
        node := node.(resolvedIPs := conn.literal);
      }
      node := node.(revision := conn);
      node := node.(failures := 0, successes := 0);
      node := node.(lastError := "", exitIP := "");
      node := node.(nextCheck := now, updatedAt := now);
      AppendNodeEvent(Entry(now, RevisionKind, node.state, [previous], [node.currentAddress], false, false, ""));
    }

    /** The body of the loop in RefreshResolvedIPs; `changed` asks for an immediate check. */
    method RefreshResolved(ips: seq<string>, now: int) returns (changed: bool)
      modifies this`node
      ensures node == AfterResolve(old(node), ips, now)
      ensures changed <==> EffectOf(old(node), Resolved(ips)).Reset?
    {
      changed := false;
      if ips == [] {
        return;
      }
      if node.resolvedIPs == [] {
        node := node.(resolvedIPs := ips, updatedAt := now);
        return;
      }
      if node.resolvedIPs == ips {
        return;
      }
      node := node.(previousResolvedIPs := node.resolvedIPs);
      node := node.(resolvedIPs := ips);
      node := node.(addressChangedAt := now);
      node := node.(state := IPChanged);
      node := node.(failures := 0, successes := 0);
      node := node.(nextCheck := now, updatedAt := now);
      AppendNodeEvent(Entry(now, DnsKind, IPChanged, node.previousResolvedIPs, node.resolvedIPs, false, false, ""));
      changed := true;
    }

    /** queueEndpointValidation: a TCP doubt makes the binding due now, in the first lane. */
    method QueueEndpointValidation(now: int)
      modifies this`node
      ensures node == AfterDoubt(old(node), now)
    {
      if node.endpointSuspectedAt == 0 {
        node := node.(endpointSuspectedAt := now);
      }
      if node.nextCheck <= 0 || node.nextCheck > now {
        node := node.(nextCheck := now);
      }
    }

    /** What the callers do with a record: recordMonitorResults counts a measurement only if
        it is newer than the last one, ApplyProxyUpdate marks edits, RefreshResolvedIPs and
        queueEndpointValidation pass their findings on.  The log follows. */
    method Handle(e: Event, now: int)
      requires Valid()
      requires e.Observed? || e.Revised? || e.Resolved? || e.Doubted?
      modifies this
      ensures Traced() == StepTrace(old(Traced()), e, now)
      ensures Valid()
    {
      ghost var before := Traced();
      match e {
        case Observed(result, reason) =>
          if node.lastResultAt < result.at {
            ApplyMonitorResult(result, reason, now);
          }
        case Revised(conn) => MarkNodeRevisionChanged(conn, now);
        case Resolved(ips) => var _ := RefreshResolved(ips, now);
        case Doubted => QueueEndpointValidation(now);
      }
      log := log + [EffectOf(before.node, e)];
      full := full + Appended(before.node, e, now);
      RefinesStep(before, e, now);
      BoundsStep(before.node, e, now);
    }
  }

  // ---- recordMonitorResults on the whole table ----

  type Table = map<string, Node>

  function Blank(b: Binding): Node {
    Fresh(b.seed, b.conn, 0).(resolvedIPs := [], nextCheck := 0, history := [])
  }

  function Current(t: Table, b: Binding): Node {
    if b.logicalID in t then t[b.logicalID] else Blank(b)
  }

  /** The stored result of `b` is newer than what has been counted. */
  predicate Newer(t: Table, b: Binding, results: map<Binding, Result>) {
    b in results && Current(t, b).lastResultAt < results[b].at
  }

  function RecordOne(t: Table, b: Binding, results: map<Binding, Result>, reason: CheckReason, now: int): Table {
    if b !in results then t
    else t[b.logicalID := Apply(Current(t, b), Observed(results[b], reason), now)]
  }

  /** Record the stored results of `bs`, one binding after the other. */
  function RecordAll(t: Table, bs: seq<Binding>, results: map<Binding, Result>, reason: CheckReason, now: int): Table {
    if bs == [] then t
    else RecordOne(RecordAll(t, bs[..|bs| - 1], results, reason, now), bs[|bs| - 1], results, reason, now)
  }

  /** Every counted measurement moves the deadline at least 45 seconds past the recording. */
  lemma ResultPushesDeadline(n: Node, r: Result, reason: CheckReason, now: int)
    ensures AfterResult(n, r, reason, now).nextCheck >= now + 45
  {
  }

  /** The bindings of `bs` whose stored result was newer than what had been counted. */
  function Updated(t: Table, bs: seq<Binding>, results: map<Binding, Result>, reason: CheckReason, now: int): seq<Binding> {
    if bs == [] then []
    else
      var rest, b := bs[..|bs| - 1], bs[|bs| - 1];
      var u := RecordAll(t, rest, results, reason, now);
      Updated(t, rest, results, reason, now) +
      (if Newer(u, b, results) then [b] else [])
  }

  /** The table as recordMonitorResults sees it; records are values here, because the table is
      the only place that refers to them. */
  class ProxyMonitor {
    var monitor: Table
    ghost var traces: map<string, Trace>

    /** Every record is what its log says. */
    ghost predicate Valid()
      reads this
    {
      AllFaithful(traces, monitor)
    }

    /** The body of the loop in recordMonitorResults. */
    method RecordResult(b: Binding, results: map<Binding, Result>, reason: CheckReason, now: int) returns (counted: bool)
      requires Valid()
      modifies this
      ensures Valid()
      ensures monitor == RecordOne(old(monitor), b, results, reason, now)
      ensures counted <==> Newer(old(monitor), b, results)
    {
      counted := Newer(monitor, b, results);
      if b in results {
        TableStep(traces, monitor, b, Observed(results[b], reason), now);
        traces := traces[b.logicalID := StepTrace(CurrentTrace(traces, b), Observed(results[b], reason), now)];
        monitor := monitor[b.logicalID := Apply(Current(monitor, b), Observed(results[b], reason), now)];
      }
    }

    /** recordMonitorResults. */
    method RecordMonitorResults(bs: seq<Binding>, results: map<Binding, Result>, reason: CheckReason, now: int)
      returns (updated: seq<Binding>)
      requires Valid()
      modifies this
      ensures Valid()
      ensures monitor == RecordAll(old(monitor), bs, results, reason, now)
      ensures updated == Updated(old(monitor), bs, results, reason, now)
    {
      updated := [];
      hide Valid;
      for i := 0 to |bs|
        invariant Valid()
        invariant monitor == RecordAll(old(monitor), bs[..i], results, reason, now)
        invariant updated == Updated(old(monitor), bs[..i], results, reason, now)
      {
        var counted := RecordResult(bs[i], results, reason, now);
        assert bs[..i + 1][..i] == bs[..i];
        if counted {
          updated := updated + [bs[i]];
        }
      }
      assert bs[..|bs|] == bs;
    }
  }

  ghost predicate Faithful(t: Trace, n: Node) {
    t.node == n && Refines(t) && StateBounds(n)
  }

  ghost predicate AllFaithful(traces: map<string, Trace>, table: Table) {
    traces.Keys == table.Keys && forall id :: id in table ==> Faithful(traces[id], table[id])
  }

  ghost function CurrentTrace(traces: map<string, Trace>, b: Binding): Trace {
    if b.logicalID in traces then traces[b.logicalID] else Trace(Blank(b), [OpenedFresh], [])
  }

  lemma BlankIsFaithful(b: Binding)
    ensures Faithful(Trace(Blank(b), [OpenedFresh], []), Blank(b))
  {
    assert [OpenedFresh][..0] == [];
  }

  lemma FaithfulStep(t: Trace, n: Node, e: Event, now: int)
    requires Faithful(t, n)
    ensures Faithful(StepTrace(t, e, now), Apply(n, e, now))
  {
    RefinesStep(t, e, now);
    BoundsStep(n, e, now);
  }

  lemma TableStep(traces: map<string, Trace>, table: Table, b: Binding, e: Event, now: int)
    requires AllFaithful(traces, table)
    ensures AllFaithful(traces[b.logicalID := StepTrace(CurrentTrace(traces, b), e, now)],
                        table[b.logicalID := Apply(Current(table, b), e, now)])
  {
    BlankIsFaithful(b);
    var t, n := CurrentTrace(traces, b), Current(table, b);
    FaithfulStep(t, n, e, now);
    TableUpdate(traces, table, b.logicalID, StepTrace(t, e, now), Apply(n, e, now));
  }

  lemma TableUpdate(traces: map<string, Trace>, table: Table, id: string, t: Trace, n: Node)
    requires AllFaithful(traces, table) && Faithful(t, n)
    ensures AllFaithful(traces[id := t], table[id := n])
  {
  }

  /** Recording changes only the bindings recorded, and moves each of their deadlines to at
      least 45 seconds later when it has a newer result. */
  lemma {:induction false} RecordAllFrame(t: Table, bs: seq<Binding>, results: map<Binding, Result>, reason: CheckReason, now: int, id: string)
    requires id in t
    ensures id in RecordAll(t, bs, results, reason, now)
    ensures var m := RecordAll(t, bs, results, reason, now)[id];
            m == t[id] || m.nextCheck >= now + 45
    ensures (exists b :: b in bs && b.logicalID == id && b in results && results[b].at > t[id].lastResultAt) ==>
              RecordAll(t, bs, results, reason, now)[id].nextCheck >= now + 45
  {
    if bs != [] {
      var rest, last := bs[..|bs| - 1], bs[|bs| - 1];
      RecordAllFrame(t, rest, results, reason, now, id);
      assert bs == rest + [last];
    }
  }

  ghost predicate DistinctIDs(bs: seq<Binding>) {
    forall i, j :: 0 <= i < j < |bs| ==> bs[i].logicalID != bs[j].logicalID
  }

  lemma DistinctFront(bs: seq<Binding>)
    requires DistinctIDs(bs) && bs != []
    ensures DistinctIDs(bs[..|bs| - 1]) && forall b :: b in bs[..|bs| - 1] ==> b.logicalID != bs[|bs| - 1].logicalID
  {
    var rest := bs[..|bs| - 1];
    forall i | 0 <= i < |rest| ensures rest[i] == bs[i] {
    }
  }

  /** A record of no binding in the set stays as it is. */
  lemma {:induction false} RecordAllKeeps(t: Table, bs: seq<Binding>, results: map<Binding, Result>, reason: CheckReason, now: int, id: string)
    requires forall b :: b in bs ==> b.logicalID != id
    ensures var m := RecordAll(t, bs, results, reason, now); (id in m <==> id in t) && (id in t ==> m[id] == t[id])
  {
    if bs != [] {
      var rest := bs[..|bs| - 1];
      assert bs == rest + [bs[|bs| - 1]];
      RecordAllKeeps(t, rest, results, reason, now, id);
      hide Apply, Current;
    }
  }

  /** Recording looks at every binding alone: a stored result that is newer is judged once, an older
      one or none changes nothing. */
  lemma {:induction false} RecordAllTells(t: Table, bs: seq<Binding>, results: map<Binding, Result>, reason: CheckReason, now: int, b: Binding)
    requires DistinctIDs(bs) && b in bs
    ensures var m := RecordAll(t, bs, results, reason, now);
            && Current(m, b) == (if Newer(t, b, results) then AfterResult(Current(t, b), results[b], reason, now) else Current(t, b))
            && (b.logicalID in m <==> b.logicalID in t || b in results)
  {
    var rest, last := bs[..|bs| - 1], bs[|bs| - 1];
    assert bs == rest + [last];
    DistinctFront(bs);
    RecordOneTells(RecordAll(t, rest, results, reason, now), last, results, reason, now, b);
    hide AfterResult, Blank, DistinctIDs, RecordOne, Current;
    if b in rest {
      RecordAllTells(t, rest, results, reason, now, b);
    } else {
      RecordAllKeeps(t, rest, results, reason, now, b.logicalID);
      SameRecord(t, RecordAll(t, rest, results, reason, now), b);
    }
  }

  lemma SameRecord(t: Table, m: Table, b: Binding)
    requires (b.logicalID in m <==> b.logicalID in t) && (b.logicalID in t ==> m[b.logicalID] == t[b.logicalID])
    ensures Current(m, b) == Current(t, b)
  {
  }

  lemma RecordOneTells(t: Table, c: Binding, results: map<Binding, Result>, reason: CheckReason, now: int, b: Binding)
    ensures var m := RecordOne(t, c, results, reason, now);
            && (b == c ==> Current(m, b) == (if Newer(t, b, results) then AfterResult(Current(t, b), results[b], reason, now) else Current(t, b)))
            && (b == c ==> (b.logicalID in m <==> b.logicalID in t || b in results))
            && (b.logicalID != c.logicalID ==> Current(m, b) == Current(t, b) && (b.logicalID in m <==> b.logicalID in t))
  {
    hide AfterResult;
  }

  /** The bindings reported are exactly those with a newer result. */
  lemma {:induction false} UpdatedIff(t: Table, bs: seq<Binding>, results: map<Binding, Result>, reason: CheckReason, now: int, b: Binding)
    requires DistinctIDs(bs)
    ensures b in Updated(t, bs, results, reason, now) <==> b in bs && b in results && Current(t, b).lastResultAt < results[b].at
  {
    if bs != [] {
      var rest, last := bs[..|bs| - 1], bs[|bs| - 1];
      assert bs == rest + [last];
      DistinctFront(bs);
      UpdatedIff(t, rest, results, reason, now, b);
      RecordAllKeeps(t, rest, results, reason, now, last.logicalID);
      hide RecordAll, Blank, DistinctIDs;
    }
  }
}
