/** The result store: checker/checker.go and checker/diagnosis.go write it, checker/results_store.go
    saves and restores it. */
module Results {
  datatype Option<+T> = None | Some(value: T)

  /** A proxyResult; times are in nanoseconds. */
  datatype Result = Result(online: bool, unstable: bool, latency: int, lastCheck: int, error: string, exitIP: string)

  // ---- writing: checks and diagnosis evidence ----

  /** A check stores what it has just measured; evidence is older than the moment it is stored. */
  datatype Kind = Check | Evidence(measuredAt: int)

  datatype Position = Waiting | Locked | Compared | Done

  /** A writer of the result of one binding. */
  datatype Job = Job(binding: string, kind: Kind, at: Position, exitIP: string)

  /** The clock never goes back; `holders` are the per-binding locks. */
  datatype State = State(clock: int, results: map<string, Result>, holders: map<string, nat>, jobs: map<nat, Job>)

  datatype Step =
    | Tick(elapsed: nat)
    | StartCheck(id: nat, binding: string)
    | StartEvidence(id: nat, binding: string, measuredAt: int)
    | Lock(id: nat)
    | StoreCheck(id: nat, ready: bool, online: bool, unstable: bool, latency: int, error: string, exitIP: string)
    | Compare(id: nat)
    | StoreEvidence(id: nat, unstable: bool, latency: int, error: string)

  function Moved(s: State, id: nat, at: Position): State
    requires id in s.jobs
  {
    s.(jobs := s.jobs[id := s.jobs[id].(at := at)])
  }

  function Unlocked(s: State, id: nat): State
    requires id in s.jobs
  {
    Moved(s, id, Done).(holders := s.holders - {s.jobs[id].binding})
  }

  predicate IsAt(s: State, id: nat, at: Position) { id in s.jobs && s.jobs[id].at == at }

  /** A step that is not possible changes nothing. */
  function Next(s: State, a: Step): State {
    match a
    case Tick(elapsed) => s.(clock := s.clock + elapsed)
    case StartCheck(id, binding) =>
      if id in s.jobs then s else s.(jobs := s.jobs[id := Job(binding, Check, Waiting, "")])
    case StartEvidence(id, binding, measuredAt) =>
      if id in s.jobs || measuredAt > s.clock then s else s.(jobs := s.jobs[id := Job(binding, Evidence(measuredAt), Waiting, "")])
    case Lock(id) =>
      if IsAt(s, id, Waiting) && s.jobs[id].binding !in s.holders then
        Moved(s, id, Locked).(holders := s.holders[s.jobs[id].binding := id])
      else s
    case StoreCheck(id, ready, online, unstable, latency, error, exitIP) =>
      if !IsAt(s, id, Locked) || !s.jobs[id].kind.Check? then s
      else if !ready then Unlocked(s, id)
      else Unlocked(s, id).(results := s.results[s.jobs[id].binding := Result(online, unstable, latency, s.clock, error, exitIP)])
    case Compare(id) =>
      if !IsAt(s, id, Locked) || !s.jobs[id].kind.Evidence? then s
      else
        var b := s.jobs[id].binding;
        if b !in s.results then Moved(s, id, Compared)
        else if s.results[b].lastCheck > s.jobs[id].kind.measuredAt then Unlocked(s, id)
        else s.(jobs := s.jobs[id := s.jobs[id].(at := Compared, exitIP := s.results[b].exitIP)])
    case StoreEvidence(id, unstable, latency, error) =>
      if !IsAt(s, id, Compared) || !s.jobs[id].kind.Evidence? then s
      else
        var j := s.jobs[id];
        Unlocked(s, id).(results := s.results[j.binding := Result(true, unstable, latency, j.kind.measuredAt, error, j.exitIP)])
  }

  function Run(s: State, steps: seq<Step>): State {
    if steps == [] then s else Next(Run(s, steps[..|steps| - 1]), steps[|steps| - 1])
  }

  /** A job past the lock holds it; evidence that has been compared is not older than what is stored
      and carries on its exit address; nothing is from the future. */
  predicate JobSafe(s: State, id: nat)
    requires id in s.jobs
  {
    var j := s.jobs[id];
    && (j.at == Locked || j.at == Compared ==> j.binding in s.holders && s.holders[j.binding] == id)
    && (j.kind.Evidence? ==> j.kind.measuredAt <= s.clock)
    && (j.at == Compared && j.kind.Evidence? && j.binding in s.results ==>
          s.results[j.binding].lastCheck <= j.kind.measuredAt && j.exitIP == s.results[j.binding].exitIP)
  }

  predicate Safe(s: State) {
    && (forall id :: id in s.jobs ==> JobSafe(s, id))
    && (forall b :: b in s.results ==> s.results[b].lastCheck <= s.clock)
  }

  /** The locks keep two writers of a binding apart. */
  lemma JobStep(s: State, a: Step, id: nat)
    requires Safe(s) && id in Next(s, a).jobs && (a.Tick? || a.id != id)
    ensures JobSafe(Next(s, a), id)
  {
    assert JobSafe(s, id);
    if !a.Tick? && a.id in s.jobs {
      assert JobSafe(s, a.id);
    }
  }

  lemma OwnStep(s: State, a: Step, id: nat)
    requires Safe(s) && id in Next(s, a).jobs && !a.Tick? && a.id == id
    ensures JobSafe(Next(s, a), id)
  {
    if id in s.jobs {
      assert JobSafe(s, id);
    }
  }

  lemma TimesStep(s: State, a: Step, b: string)
    requires Safe(s) && b in Next(s, a).results
    ensures Next(s, a).results[b].lastCheck <= Next(s, a).clock
  {
    if !a.Tick? && a.id in s.jobs {
      assert JobSafe(s, a.id);
    }
  }

  lemma SafeStep(s: State, a: Step)
    requires Safe(s)
    ensures Safe(Next(s, a))
  {
    hide Next, JobSafe;
    var n := Next(s, a);
    forall id | id in n.jobs ensures JobSafe(n, id) {
      if a.Tick? || a.id != id {
        JobStep(s, a, id);
      } else {
        OwnStep(s, a, id);
      }
    }
    forall b | b in n.results ensures n.results[b].lastCheck <= n.clock {
      TimesStep(s, a, b);
    }
  }

  /** In every step the stored time of every binding stays or grows, and evidence replaces a result
      only if it was measured no earlier; so a newer failure survives older evidence. */
  lemma StoredTimeGrows(s: State, a: Step, b: string)
    requires Safe(s) && b in s.results
    ensures b in Next(s, a).results && Next(s, a).results[b].lastCheck >= s.results[b].lastCheck
    ensures a.StoreEvidence? && Next(s, a).results[b] != s.results[b] ==>
              s.jobs[a.id].kind.measuredAt >= s.results[b].lastCheck && Next(s, a).results[b].exitIP == s.results[b].exitIP
  {
    if !a.Tick? && a.id in s.jobs {
      assert JobSafe(s, a.id);
    }
  }

  lemma {:induction false} RunIsSafe(s: State, steps: seq<Step>)
    requires Safe(s)
    ensures Safe(Run(s, steps))
  {
    if steps != [] {
      RunIsSafe(s, steps[..|steps| - 1]);
      SafeStep(Run(s, steps[..|steps| - 1]), steps[|steps| - 1]);
    }
  }

  /** Over any run of checks and evidence for any bindings, however they interleave. */
  lemma {:induction false} StoredTimeNeverDecreases(s: State, steps: seq<Step>, b: string)
    requires Safe(s) && b in s.results
    ensures b in Run(s, steps).results && Run(s, steps).results[b].lastCheck >= s.results[b].lastCheck
  {
    if steps != [] {
      StoredTimeNeverDecreases(s, steps[..|steps| - 1], b);
      RunIsSafe(s, steps[..|steps| - 1]);
      StoredTimeGrows(Run(s, steps[..|steps| - 1]), steps[|steps| - 1], b);
    }
  }

  /** The result that a step writes for a binding: a check's own if the network was ready, and a
      diagnosis' with the time of its measurement and the exit address known at the comparison. */
  function Written(s: State, a: Step, b: string): Option<Result> {
    if a.StoreCheck? && IsAt(s, a.id, Locked) && s.jobs[a.id].kind.Check? && s.jobs[a.id].binding == b && a.ready then
      Some(Result(a.online, a.unstable, a.latency, s.clock, a.error, a.exitIP))
    else if a.StoreEvidence? && IsAt(s, a.id, Compared) && s.jobs[a.id].kind.Evidence? && s.jobs[a.id].binding == b then
      Some(Result(true, a.unstable, a.latency, s.jobs[a.id].kind.measuredAt, a.error, s.jobs[a.id].exitIP))
    else None
  }

  /** The last result that the steps of a run write for a binding. */
  function LastWritten(start: State, steps: seq<Step>, b: string): Option<Result> {
    if steps == [] then None
    else
      var w := Written(Run(start, steps[..|steps| - 1]), steps[|steps| - 1], b);
      if w.Some? then w else LastWritten(start, steps[..|steps| - 1], b)
  }

  lemma WriteStep(s: State, a: Step, b: string)
    ensures var n, w := Next(s, a), Written(s, a, b);
            if w.Some? then b in n.results && n.results[b] == w.value
            else (b in n.results <==> b in s.results) && (b in s.results ==> n.results[b] == s.results[b])
  {
  }

  /** Over every run the table holds for a binding the last result written for it, or the one from
      before if none was. */
  lemma {:induction false} TableIsLastWritten(start: State, steps: seq<Step>, b: string)
    ensures var s, w := Run(start, steps), LastWritten(start, steps, b);
            if w.Some? then b in s.results && s.results[b] == w.value
            else (b in s.results <==> b in start.results) && (b in start.results ==> s.results[b] == start.results[b])
  {
    if steps != [] {
      TableIsLastWritten(start, steps[..|steps| - 1], b);
      WriteStep(Run(start, steps[..|steps| - 1]), steps[|steps| - 1], b);
    }
  }

  lemma RunTwo(s: State, a: Step, b: Step)
    ensures Run(s, [a, b]) == Next(Next(s, a), b)
  {
    var two, one := [a, b], [a];
    assert two[..1] == one && one[..0] == [];
    assert Run(s, one) == Next(Run(s, []), a);
    hide Next;
  }

  /** An undisturbed check stores what it measured exactly if the network is ready. */
  lemma CheckLeaves(s: State, id: nat, ready: bool, r: Result)
    requires IsAt(s, id, Waiting) && s.jobs[id].kind.Check? && s.jobs[id].binding !in s.holders && r.lastCheck == s.clock
    ensures var b := s.jobs[id].binding;
            var n := Run(s, [Lock(id), StoreCheck(id, ready, r.online, r.unstable, r.latency, r.error, r.exitIP)]);
            n.results == (if ready then s.results[b := r] else s.results) && n.holders == s.holders && IsAt(n, id, Done)
  {
    RunTwo(s, Lock(id), StoreCheck(id, ready, r.online, r.unstable, r.latency, r.error, r.exitIP));
    assert s.holders[s.jobs[id].binding := id] - {s.jobs[id].binding} == s.holders;
  }

  /** An undisturbed diagnosis promotes its evidence exactly if nothing newer is stored, and keeps the
      exit address. */
  lemma EvidenceLeaves(s: State, id: nat, r: Result)
    requires IsAt(s, id, Waiting) && s.jobs[id].kind == Evidence(r.lastCheck) && s.jobs[id].exitIP == "" && s.jobs[id].binding !in s.holders
    requires r.online && r.exitIP == (if s.jobs[id].binding in s.results then s.results[s.jobs[id].binding].exitIP else "")
    ensures var b := s.jobs[id].binding;
            var n := Next(Run(s, [Lock(id), Compare(id)]), StoreEvidence(id, r.unstable, r.latency, r.error));
            && n.results == (if b in s.results && s.results[b].lastCheck > r.lastCheck then s.results else s.results[b := r])
            && n.holders == s.holders && IsAt(n, id, Done)
  {
    RunTwo(s, Lock(id), Compare(id));
    hide Run;
    var b := s.jobs[id].binding;
    assert s.holders[b := id] - {b} == s.holders;
    var locked := Next(s, Lock(id));
    assert locked == Moved(s, id, Locked).(holders := s.holders[b := id]);
    ComparedThenStored(locked, id, r);
  }

  lemma ComparedThenStored(s: State, id: nat, r: Result)
    requires IsAt(s, id, Locked) && s.jobs[id].kind == Evidence(r.lastCheck) && s.jobs[id].exitIP == ""
    requires r.online && r.exitIP == (if s.jobs[id].binding in s.results then s.results[s.jobs[id].binding].exitIP else "")
    ensures var b := s.jobs[id].binding; var n := Next(Next(s, Compare(id)), StoreEvidence(id, r.unstable, r.latency, r.error));
            && n.results == (if b in s.results && s.results[b].lastCheck > r.lastCheck then s.results else s.results[b := r])
            && n.holders == s.holders - {b} && IsAt(n, id, Done)
  {
  }

  // ---- saving and restoring ----

  /** What identifies a binding in the result store, and the revision of its connection. */
  datatype Labels = Labels(protocol: string, address: string, name: string, subName: string, stableID: string, groupName: string)

  datatype Proxy = Proxy(labels: Labels, revision: string)

  /** The key under which a snapshot is searched when the stable ID is unknown. */
  datatype Display = Display(protocol: string, name: string, subName: string, groupName: string)

  function DisplayOf(l: Labels): Display { Display(l.protocol, l.name, l.subName, l.groupName) }

  type Stored = map<Labels, Result>

  /** A saved result; its time is in seconds. */
  datatype Item = Item(labels: Labels, revision: string, online: bool, unstable: bool, latency: int, seconds: int, error: string, exitIP: string)

  datatype Snapshot = Snapshot(complete: bool, items: seq<Item>)

  const SECOND: int := 1_000_000_000

  function ItemOf(p: Proxy, r: Result): Item {
    Item(p.labels, p.revision, r.online, r.unstable, r.latency, r.lastCheck / SECOND, r.error, r.exitIP)
  }

  function ResultOf(i: Item): Result {
    Result(i.online, i.unstable, i.latency, i.seconds * SECOND, i.error, i.exitIP)
  }

  /** A result as it comes back: its time is cut to seconds. */
  function Cut(r: Result): Result { r.(lastCheck := r.lastCheck / SECOND * SECOND) }

  /** The items of a snapshot: the current set's results, in order. */
  function Saved(proxies: seq<Proxy>, results: Stored): seq<Item> {
    if proxies == [] then []
    else
      var p := proxies[|proxies| - 1];
      Saved(proxies[..|proxies| - 1], results) + (if p.labels in results then [ItemOf(p, results[p.labels])] else [])
  }

  /** The same items under the revisions of a table, one for all bindings with the same labels. */
  function SavedWith(proxies: seq<Proxy>, revisions: map<Labels, string>, results: Stored): seq<Item>
    requires forall p :: p in proxies ==> p.labels in revisions
  {
    if proxies == [] then []
    else
      var l := proxies[|proxies| - 1].labels;
      SavedWith(proxies[..|proxies| - 1], revisions, results) +
      (if l in results then [ItemOf(Proxy(l, revisions[l]), results[l])] else [])
  }

  /** The revision of the last binding with those labels. */
  function Revisions(proxies: seq<Proxy>): (m: map<Labels, string>)
    ensures forall p :: p in proxies ==> p.labels in m
  {
    if proxies == [] then map[]
    else
      var p := proxies[|proxies| - 1];
      assert proxies == proxies[..|proxies| - 1] + [p];
      Revisions(proxies[..|proxies| - 1])[p.labels := p.revision]
  }

  /** Bindings whose result is saved and whose labels are the same have the same revision. */
  ghost predicate OneRevisionEach(proxies: seq<Proxy>, results: Stored) {
    forall p, q :: p in proxies && q in proxies && p.labels == q.labels && p.labels in results ==> p.revision == q.revision
  }

  /** No two bindings of the set share a stable ID. */
  ghost predicate DistinctIDs(proxies: seq<Proxy>) {
    forall i, j :: 0 <= i < j < |proxies| ==> proxies[i].labels.stableID != proxies[j].labels.stableID
  }

  /** The first of the latest items with that stable ID. */
  function Latest(items: seq<Item>, id: string): Option<Item> {
    if items == [] then None
    else
      var rest, last := Latest(items[..|items| - 1], id), items[|items| - 1];
      if last.labels.stableID == id && (rest.None? || last.seconds > rest.value.seconds) then Some(last) else rest
  }

  function Shown(items: seq<Item>, d: Display): seq<Item> {
    if items == [] then []
    else
      var last := items[|items| - 1];
      Shown(items[..|items| - 1], d) + (if DisplayOf(last.labels) == d then [last] else [])
  }

  function AtAddress(items: seq<Item>, address: string): Option<Item> {
    if items == [] then None
    else
      var rest, last := AtAddress(items[..|items| - 1], address), items[|items| - 1];
      if rest.Some? then rest else if last.labels.address == address then Some(last) else None
  }

  /** The item that is tried for a binding: by stable ID, or as the only one shown alike, or as the
      first one shown alike at its address. */
  function Chosen(items: seq<Item>, p: Proxy): Option<Item> {
    var latest := Latest(items, p.labels.stableID);
    if latest.Some? then latest
    else
      var candidates := Shown(items, DisplayOf(p.labels));
      if |candidates| == 1 then Some(candidates[0]) else AtAddress(candidates, p.labels.address)
  }

  predicate Restores(items: seq<Item>, p: Proxy) {
    var item := Chosen(items, p);
    item.Some? && item.value.revision != "" && item.value.revision == p.revision
  }

  function LoadOne(results: Stored, items: seq<Item>, p: Proxy): Stored {
    if Restores(items, p) then results[p.labels := ResultOf(Chosen(items, p).value)] else results
  }

  function LoadAll(results: Stored, items: seq<Item>, proxies: seq<Proxy>): Stored {
    if proxies == [] then results
    else LoadOne(LoadAll(results, items, proxies[..|proxies| - 1]), items, proxies[|proxies| - 1])
  }

  function Count(items: seq<Item>, proxies: seq<Proxy>): nat {
    if proxies == [] then 0
    else Count(items, proxies[..|proxies| - 1]) + (if Restores(items, proxies[|proxies| - 1]) then 1 else 0)
  }

  predicate Covered(proxies: seq<Proxy>, results: Stored) {
    proxies != [] && forall i :: 0 <= i < |proxies| ==> proxies[i].labels in results
  }

  /** persistResults.  The items are the set's results under its own revisions unless two bindings
      share their labels but not their revision. */
  method PersistResults(proxies: seq<Proxy>, results: Stored, complete: bool) returns (snapshot: Snapshot)
    ensures snapshot == Snapshot(complete, SavedWith(proxies, Revisions(proxies), results))
    ensures snapshot.items == Saved(proxies, results) <==> OneRevisionEach(proxies, results)
    ensures DistinctIDs(proxies) ==> snapshot.items == Saved(proxies, results)
  {
    var keys: seq<Labels> := [];
    var revisions: map<Labels, string> := map[];
    for i := 0 to |proxies|
      invariant |keys| == i && forall j :: 0 <= j < i ==> keys[j] == proxies[j].labels
      invariant revisions == Revisions(proxies[..i])
    {
      assert proxies[..i + 1][..i] == proxies[..i];
      assert proxies[..i + 1][i] == proxies[i];
      keys := keys + [proxies[i].labels];
      revisions := revisions[proxies[i].labels := proxies[i].revision];
    }
    assert proxies[..|proxies|] == proxies;
    hide Revisions, OneRevisionEach, DistinctIDs;
    var items: seq<Item> := [];
    for i := 0 to |proxies|
      invariant items == SavedWith(proxies[..i], revisions, results)
    {
      assert proxies[..i + 1] == proxies[..i] + [proxies[i]];
      SavedWithAppend(proxies[..i], proxies[i], revisions, results);
      var key := keys[i];
      if key in results {
        var result := results[key];
        items := items + [Item(key, revisions[key], result.online, result.unstable, result.latency,
                               result.lastCheck / SECOND, result.error, result.exitIP)];
      }
    }
    snapshot := Snapshot(complete, items);
    SavedWithIff(proxies, results);
  }

  lemma {:induction false} RevisionIsOfSome(proxies: seq<Proxy>, l: Labels)
    requires l in Revisions(proxies)
    ensures exists p :: p in proxies && p.labels == l && p.revision == Revisions(proxies)[l]
  {
    var rest, last := proxies[..|proxies| - 1], proxies[|proxies| - 1];
    assert proxies == rest + [last];
    if last.labels == l {
      assert last in proxies;
    } else {
      RevisionIsOfSome(rest, l);
      var p :| p in rest && p.labels == l && p.revision == Revisions(rest)[l];
      assert p in proxies;
    }
  }

  lemma SavedWithIff(proxies: seq<Proxy>, results: Stored)
    ensures SavedWith(proxies, Revisions(proxies), results) == Saved(proxies, results) <==> OneRevisionEach(proxies, results)
    ensures DistinctIDs(proxies) ==> OneRevisionEach(proxies, results)
  {
    SavedWithTells(proxies, Revisions(proxies), results);
    if OneRevisionEach(proxies, results) {
      forall p | p in proxies ensures UnderItsOwn(p, Revisions(proxies), results) {
        RevisionIsOfSome(proxies, p.labels);
      }
    } else {
      var p, q :| p in proxies && q in proxies && p.labels == q.labels && p.labels in results && p.revision != q.revision;
      assert !UnderItsOwn(p, Revisions(proxies), results) || !UnderItsOwn(q, Revisions(proxies), results);
    }
    if DistinctIDs(proxies) {
      forall p, q | p in proxies && q in proxies && p.labels == q.labels ensures p.revision == q.revision {
        var i :| 0 <= i < |proxies| && proxies[i] == p;
        var j :| 0 <= j < |proxies| && proxies[j] == q;
      }
    }
  }

  /** What is saved of it is under its own revision. */
  predicate UnderItsOwn(p: Proxy, revisions: map<Labels, string>, results: Stored) {
    p.labels in results ==> p.labels in revisions && revisions[p.labels] == p.revision
  }

  lemma {:induction false} SavedWithTells(proxies: seq<Proxy>, revisions: map<Labels, string>, results: Stored)
    requires forall p :: p in proxies ==> p.labels in revisions
    ensures |SavedWith(proxies, revisions, results)| == |Saved(proxies, results)|
    ensures SavedWith(proxies, revisions, results) == Saved(proxies, results) <==>
            forall p :: p in proxies ==> UnderItsOwn(p, revisions, results)
  {
    if proxies != [] {
      var rest, last := proxies[..|proxies| - 1], proxies[|proxies| - 1];
      assert proxies == rest + [last];
      SavedWithTells(rest, revisions, results);
      assert (forall p :: p in proxies ==> UnderItsOwn(p, revisions, results)) <==>
             (forall p :: p in rest ==> UnderItsOwn(p, revisions, results)) && UnderItsOwn(last, revisions, results);
      SavedAppend(rest, last, results);
      SavedWithAppend(rest, last, revisions, results);
      if last.labels in results {
        SameAppended(SavedWith(rest, revisions, results), Saved(rest, results),
                     ItemOf(Proxy(last.labels, revisions[last.labels]), results[last.labels]), ItemOf(last, results[last.labels]));
      }
    }
  }

  lemma SameAppended(a: seq<Item>, b: seq<Item>, x: Item, y: Item)
    requires |a| == |b|
    ensures a + [x] == b + [y] <==> a == b && x == y
  {
    assert (a + [x])[..|a|] == a && (b + [y])[..|b|] == b && (a + [x])[|a|] == x && (b + [y])[|b|] == y;
  }

  lemma SavedWithAppend(proxies: seq<Proxy>, p: Proxy, revisions: map<Labels, string>, results: Stored)
    requires forall q :: q in proxies + [p] ==> q.labels in revisions
    ensures p in proxies + [p] && (forall q :: q in proxies ==> q in proxies + [p])
    ensures SavedWith(proxies + [p], revisions, results) ==
            if p.labels in results then SavedWith(proxies, revisions, results) + [ItemOf(Proxy(p.labels, revisions[p.labels]), results[p.labels])]
            else SavedWith(proxies, revisions, results)
  {
    assert (proxies + [p])[..|proxies|] == proxies && (proxies + [p])[|proxies|] == p;
  }

  /** The two indexes of loadResults. */
  method Index(items: seq<Item>) returns (byStableID: map<string, Item>, byDisplay: map<Display, seq<Item>>)
    ensures forall id: string :: Latest(items, id) == (if id in byStableID then Some(byStableID[id]) else None)
    ensures forall d: Display :: Shown(items, d) == (if d in byDisplay then byDisplay[d] else [])
  {
    byStableID, byDisplay := map[], map[];
    for i := 0 to |items|
      invariant forall id: string :: Latest(items[..i], id) == (if id in byStableID then Some(byStableID[id]) else None)
      invariant forall d: Display :: Shown(items[..i], d) == (if d in byDisplay then byDisplay[d] else [])
    {
      var item := items[i];
      assert items[..i + 1][..i] == items[..i];
      if item.labels.stableID !in byStableID || item.seconds > byStableID[item.labels.stableID].seconds {
        byStableID := byStableID[item.labels.stableID := item];
      }
      var d := DisplayOf(item.labels);
      byDisplay := byDisplay[d := (if d in byDisplay then byDisplay[d] else []) + [item]];
    }
    assert items[..|items|] == items;
  }

  /** The search for a binding's item. */
  method Choose(p: Proxy, byStableID: map<string, Item>, byDisplay: map<Display, seq<Item>>, ghost items: seq<Item>)
    returns (item: Option<Item>)
    requires Latest(items, p.labels.stableID) == (if p.labels.stableID in byStableID then Some(byStableID[p.labels.stableID]) else None)
    requires Shown(items, DisplayOf(p.labels)) == (if DisplayOf(p.labels) in byDisplay then byDisplay[DisplayOf(p.labels)] else [])
    ensures item == Chosen(items, p)
  {
    if p.labels.stableID in byStableID {
      return Some(byStableID[p.labels.stableID]);
    }
    var candidates := if DisplayOf(p.labels) in byDisplay then byDisplay[DisplayOf(p.labels)] else [];
    if |candidates| == 1 {
      return Some(candidates[0]);
    }
    for i := 0 to |candidates|
      invariant AtAddress(candidates[..i], p.labels.address) == None
    {
      assert candidates[..i + 1][..i] == candidates[..i];
      if candidates[i].labels.address == p.labels.address {
        AtAddressFirst(candidates, p.labels.address, i);
        return Some(candidates[i]);
      }
    }
    assert candidates[..|candidates|] == candidates;
    item := None;
  }

  lemma {:induction false} AtAddressFirst(items: seq<Item>, address: string, i: nat)
    requires i < |items| && items[i].labels.address == address && AtAddress(items[..i], address) == None
    ensures AtAddress(items, address) == Some(items[i])
  {
    var rest := items[..|items| - 1];
    if i < |rest| {
      assert rest[..i] == items[..i];
      AtAddressFirst(rest, address, i);
    }
  }

  /** loadResults, once the file has been decoded. */
  method LoadResults(proxies: seq<Proxy>, before: Stored, snapshot: Snapshot)
    returns (results: Stored, complete: bool, resume: bool, resumeWasComplete: bool)
    ensures results == LoadAll(before, snapshot.items, proxies)
    ensures complete <==> snapshot.complete && Covered(proxies, results)
    ensures resume <==> Count(snapshot.items, proxies) > 0 && !complete
    ensures resumeWasComplete <==> resume && snapshot.complete
  {
    var byStableID, byDisplay := Index(snapshot.items);
    results := before;
    var restored := 0;
    for i := 0 to |proxies|
      invariant results == LoadAll(before, snapshot.items, proxies[..i])
      invariant restored == Count(snapshot.items, proxies[..i])
    {
      assert proxies[..i + 1][..i] == proxies[..i];
      var p := proxies[i];
      var item := Choose(p, byStableID, byDisplay, snapshot.items);
      if item.Some? && item.value.revision != "" && item.value.revision == p.revision {
        results := results[p.labels := ResultOf(item.value)];
        restored := restored + 1;
      }
    }
    assert proxies[..|proxies|] == proxies;
    var covered := CurrentProxySetHasResults(proxies, results);
    complete := snapshot.complete && covered;
    resume := restored > 0 && !complete;
    resumeWasComplete := snapshot.complete && restored > 0 && !complete;
  }

  /** currentProxySetHasResults. */
  method CurrentProxySetHasResults(proxies: seq<Proxy>, results: Stored) returns (covered: bool)
    ensures covered <==> Covered(proxies, results)
  {
    if |proxies| == 0 {
      return false;
    }
    for i := 0 to |proxies|
      invariant forall j :: 0 <= j < i ==> proxies[j].labels in results
    {
      if proxies[i].labels !in results {
        return false;
      }
    }
    covered := true;
  }

  // ---- main results ----

  lemma {:induction false} LatestIsItem(items: seq<Item>, id: string)
    ensures Latest(items, id).Some? ==> Latest(items, id).value in items && Latest(items, id).value.labels.stableID == id
  {
    if items != [] {
      LatestIsItem(items[..|items| - 1], id);
    }
  }

  lemma {:induction false} ShownIsItem(items: seq<Item>, d: Display)
    ensures forall i :: i in Shown(items, d) ==> i in items && DisplayOf(i.labels) == d
  {
    if items != [] {
      ShownIsItem(items[..|items| - 1], d);
    }
  }

  lemma {:induction false} AtAddressIsItem(items: seq<Item>, address: string)
    ensures AtAddress(items, address).Some? ==> AtAddress(items, address).value in items
  {
    if items != [] {
      AtAddressIsItem(items[..|items| - 1], address);
    }
  }

  lemma ChosenIsItem(items: seq<Item>, p: Proxy)
    ensures Chosen(items, p).Some? ==> Chosen(items, p).value in items
    ensures Chosen(items, p).Some? && Latest(items, p.labels.stableID).None? ==> DisplayOf(Chosen(items, p).value.labels) == DisplayOf(p.labels)
  {
    LatestIsItem(items, p.labels.stableID);
    ShownIsItem(items, DisplayOf(p.labels));
    AtAddressIsItem(Shown(items, DisplayOf(p.labels)), p.labels.address);
  }

  /** A result of the current set after loading is either the one from before or was saved under the
      binding's own, non-empty revision. */
  lemma {:induction false} NeverAnotherRevision(before: Stored, items: seq<Item>, proxies: seq<Proxy>, l: Labels)
    requires l in LoadAll(before, items, proxies)
    ensures (l in before && LoadAll(before, items, proxies)[l] == before[l]) ||
            exists p, i :: p in proxies && i in items && p.labels == l && i.revision == p.revision != "" && LoadAll(before, items, proxies)[l] == ResultOf(i)
  {
    if proxies != [] {
      var rest, p := proxies[..|proxies| - 1], proxies[|proxies| - 1];
      assert proxies == rest + [p];
      if Restores(items, p) && p.labels == l {
        ChosenIsItem(items, p);
        var i := Chosen(items, p).value;
        assert p in proxies && i in items;
      } else {
        NeverAnotherRevision(before, items, rest, l);
        if q, i :| q in rest && i in items && q.labels == l && i.revision == q.revision != "" && LoadAll(before, items, rest)[l] == ResultOf(i) {
          assert q in proxies;
        }
      }
    }
  }

  lemma {:induction false} SavedIsOf(proxies: seq<Proxy>, results: Stored)
    ensures forall i :: i in Saved(proxies, results) ==>
              exists p :: p in proxies && p.labels in results && i == ItemOf(p, results[p.labels])
  {
    if proxies != [] {
      var rest, last := proxies[..|proxies| - 1], proxies[|proxies| - 1];
      assert proxies == rest + [last];
      SavedIsOf(rest, results);
      forall i | i in Saved(proxies, results) ensures exists p :: p in proxies && p.labels in results && i == ItemOf(p, results[p.labels]) {
        if i in Saved(rest, results) {
          var p :| p in rest && p.labels in results && i == ItemOf(p, results[p.labels]);
          assert p in proxies;
        } else {
          assert last in proxies && i == ItemOf(last, results[last.labels]);
        }
      }
    }
  }

  lemma DistinctRest(proxies: seq<Proxy>)
    requires DistinctIDs(proxies) && proxies != []
    ensures DistinctIDs(proxies[..|proxies| - 1])
    ensures forall p :: p in proxies[..|proxies| - 1] ==> p.labels.stableID != proxies[|proxies| - 1].labels.stableID
  {
    var rest := proxies[..|proxies| - 1];
    forall i | 0 <= i < |rest| ensures rest[i] == proxies[i] {
    }
  }

  lemma LatestAppend(items: seq<Item>, i: Item, id: string)
    ensures Latest(items + [i], id) ==
            if i.labels.stableID == id && (Latest(items, id).None? || i.seconds > Latest(items, id).value.seconds) then Some(i) else Latest(items, id)
  {
    assert (items + [i])[..|items|] == items;
  }

  lemma SavedAppend(proxies: seq<Proxy>, p: Proxy, results: Stored)
    ensures Saved(proxies + [p], results) ==
            if p.labels in results then Saved(proxies, results) + [ItemOf(p, results[p.labels])] else Saved(proxies, results)
  {
    assert (proxies + [p])[..|proxies|] == proxies;
  }

  /** Nothing is saved under a stable ID that no binding of the set has. */
  lemma {:induction false} LatestMissing(proxies: seq<Proxy>, results: Stored, id: string)
    requires forall p :: p in proxies ==> p.labels.stableID != id
    ensures Latest(Saved(proxies, results), id) == None
  {
    if proxies != [] {
      var rest, last := proxies[..|proxies| - 1], proxies[|proxies| - 1];
      assert proxies == rest + [last];
      LatestMissing(rest, results, id);
      SavedAppend(rest, last, results);
      if last.labels in results {
        LatestAppend(Saved(rest, results), ItemOf(last, results[last.labels]), id);
      }
    }
  }

  lemma {:induction false} LatestSaved(proxies: seq<Proxy>, results: Stored, p: Proxy)
    requires DistinctIDs(proxies) && p in proxies
    ensures Latest(Saved(proxies, results), p.labels.stableID) ==
            if p.labels in results then Some(ItemOf(p, results[p.labels])) else None
  {
    var rest, last := proxies[..|proxies| - 1], proxies[|proxies| - 1];
    assert proxies == rest + [last];
    DistinctRest(proxies);
    SavedAppend(rest, last, results);
    if last.labels in results {
      LatestAppend(Saved(rest, results), ItemOf(last, results[last.labels]), p.labels.stableID);
    }
    if p in rest {
      LatestSaved(rest, results, p);
    } else {
      LatestMissing(rest, results, p.labels.stableID);
    }
  }

  /** Loading a set decides about each of its bindings alone. */
  lemma {:induction false} LoadedAt(before: Stored, items: seq<Item>, proxies: seq<Proxy>, p: Proxy)
    requires DistinctIDs(proxies) && p in proxies
    ensures Restores(items, p) ==> p.labels in LoadAll(before, items, proxies) && LoadAll(before, items, proxies)[p.labels] == ResultOf(Chosen(items, p).value)
    ensures !Restores(items, p) ==> (p.labels in LoadAll(before, items, proxies) <==> p.labels in before)
  {
    var rest, last := proxies[..|proxies| - 1], proxies[|proxies| - 1];
    assert proxies == rest + [last];
    DistinctRest(proxies);
    if p in rest {
      LoadedAt(before, items, rest, p);
    } else {
      NotLoaded(before, items, rest, p.labels);
    }
  }

  lemma {:induction false} NotLoaded(before: Stored, items: seq<Item>, proxies: seq<Proxy>, l: Labels)
    requires forall p :: p in proxies ==> p.labels.stableID != l.stableID
    ensures l in LoadAll(before, items, proxies) <==> l in before
  {
    if proxies != [] {
      var rest, last := proxies[..|proxies| - 1], proxies[|proxies| - 1];
      assert proxies == rest + [last];
      NotLoaded(before, items, rest, l);
    }
  }

  /** Another binding of the set that looks the same, has the same connection and has a result. */
  ghost predicate HasTwin(proxies: seq<Proxy>, results: Stored, p: Proxy) {
    exists q :: q in proxies && q.labels in results && DisplayOf(q.labels) == DisplayOf(p.labels) && q.revision == p.revision
  }

  /** Saving the results of an unchanged set and loading them again gives back every result, with
      its time cut to seconds; a binding without one can only get that of a twin. */
  lemma RoundTrip(proxies: seq<Proxy>, results: Stored, p: Proxy)
    requires DistinctIDs(proxies) && p in proxies && p.revision != ""
    ensures var loaded := LoadAll(map[], Saved(proxies, results), proxies);
            && (p.labels in results ==> p.labels in loaded && loaded[p.labels] == Cut(results[p.labels]))
            && (p.labels !in results && p.labels in loaded ==> HasTwin(proxies, results, p))
  {
    var items := Saved(proxies, results);
    LatestSaved(proxies, results, p);
    LoadedAt(map[], items, proxies, p);
    if p.labels !in results && Restores(items, p) {
      ChosenIsItem(items, p);
      SavedIsOf(proxies, results);
      var q :| q in proxies && q.labels in results && Chosen(items, p).value == ItemOf(q, results[q.labels]);
      assert HasTwin(proxies, results, p);
    }
  }

  // ---- what a binding without a result gets ----

  /** The binding at `i` has a result and looks like `p`. */
  predicate SavedAlike(proxies: seq<Proxy>, results: Stored, p: Proxy, i: nat) {
    i < |proxies| && proxies[i].labels in results &&
    var l := proxies[i].labels;
    l.protocol == p.labels.protocol && l.name == p.labels.name && l.subName == p.labels.subName && l.groupName == p.labels.groupName
  }

  /** It is the only one, or the first of them at the address of `p`. */
  ghost predicate GivesTo(proxies: seq<Proxy>, results: Stored, p: Proxy, i: nat) {
    && SavedAlike(proxies, results, p, i)
    && ((forall j: nat :: SavedAlike(proxies, results, p, j) ==> j == i) ||
        (proxies[i].labels.address == p.labels.address &&
         forall j: nat :: SavedAlike(proxies, results, p, j) && j < i ==> proxies[j].labels.address != p.labels.address))
  }

  /** The places of those bindings, in order. */
  function AlikePlaces(proxies: seq<Proxy>, results: Stored, p: Proxy): seq<nat> {
    if proxies == [] then []
    else
      var i: nat := |proxies| - 1;
      AlikePlaces(proxies[..i], results, p) + (if SavedAlike(proxies, results, p, i) then [i] else [])
  }

  lemma ShownAppend(items: seq<Item>, i: Item, d: Display)
    ensures Shown(items + [i], d) == if DisplayOf(i.labels) == d then Shown(items, d) + [i] else Shown(items, d)
  {
    assert (items + [i])[..|items|] == items;
  }

  lemma {:induction false} PlacesOfAlike(proxies: seq<Proxy>, results: Stored, p: Proxy)
    ensures forall i: nat :: i in AlikePlaces(proxies, results, p) <==> SavedAlike(proxies, results, p, i)
    ensures forall j, k :: 0 <= j < k < |AlikePlaces(proxies, results, p)| ==> AlikePlaces(proxies, results, p)[j] < AlikePlaces(proxies, results, p)[k]
  {
    if proxies != [] {
      var rest := proxies[..|proxies| - 1];
      PlacesOfAlike(rest, results, p);
      forall i: nat ensures i in AlikePlaces(proxies, results, p) <==> SavedAlike(proxies, results, p, i) {
        assert i in AlikePlaces(rest, results, p) <==> SavedAlike(rest, results, p, i);
      }
      forall j | 0 <= j < |AlikePlaces(rest, results, p)| ensures AlikePlaces(rest, results, p)[j] < |rest| {
        assert AlikePlaces(rest, results, p)[j] in AlikePlaces(rest, results, p);
      }
    }
  }

  /** What is shown alike in a snapshot is what those bindings have saved. */
  lemma {:induction false} ShownIsSavedAlike(proxies: seq<Proxy>, results: Stored, p: Proxy)
    ensures var shown := Shown(Saved(proxies, results), DisplayOf(p.labels)); var places := AlikePlaces(proxies, results, p);
            && |shown| == |places|
            && forall k :: 0 <= k < |places| ==>
                 SavedAlike(proxies, results, p, places[k]) && shown[k] == ItemOf(proxies[places[k]], results[proxies[places[k]].labels])
  {
    if proxies != [] {
      var rest, last := proxies[..|proxies| - 1], proxies[|proxies| - 1];
      assert proxies == rest + [last];
      ShownIsSavedAlike(rest, results, p);
      SavedAppend(rest, last, results);
      if last.labels in results {
        ShownAppend(Saved(rest, results), ItemOf(last, results[last.labels]), DisplayOf(p.labels));
      }
      hide Saved, Shown;
      var shown, places := Shown(Saved(rest, results), DisplayOf(p.labels)), AlikePlaces(rest, results, p);
      forall k | 0 <= k < |places|
        ensures SavedAlike(proxies, results, p, places[k]) && shown[k] == ItemOf(proxies[places[k]], results[proxies[places[k]].labels])
      {
        assert SavedAlike(rest, results, p, places[k]);
      }
    }
  }

  /** AtAddress is the first item at the address. */
  lemma {:induction false} AtAddressTells(items: seq<Item>, address: string) returns (k: nat)
    ensures AtAddress(items, address).None? ==> forall j :: 0 <= j < |items| ==> items[j].labels.address != address
    ensures AtAddress(items, address).Some? ==>
              && k < |items| && items[k] == AtAddress(items, address).value && items[k].labels.address == address
              && forall j :: 0 <= j < k ==> items[j].labels.address != address
  {
    k := 0;
    if items != [] {
      var rest := items[..|items| - 1];
      k := AtAddressTells(rest, address);
      if AtAddress(rest, address).None? {
        k := |rest|;
      }
    }
  }

  /** The places of what is shown alike tell the donor: none of them, ... */
  lemma NobodyGives(proxies: seq<Proxy>, results: Stored, p: Proxy, places: seq<nat>)
    requires forall i: nat :: i in places <==> SavedAlike(proxies, results, p, i)
    requires forall j, k :: 0 <= j < k < |places| ==> places[j] < places[k]
    requires |places| != 1 && forall n :: 0 <= n < |places| ==> places[n] < |proxies| && proxies[places[n]].labels.address != p.labels.address
    ensures forall i: nat :: !GivesTo(proxies, results, p, i)
  {
    hide SavedAlike;
    forall i: nat | i in places ensures !GivesTo(proxies, results, p, i) {
      assert places[0] in places && places[1] in places && places[0] < places[1];
    }
  }

  /** ... or the only one, or the first at the address. */
  lemma GivesAtPlace(proxies: seq<Proxy>, results: Stored, p: Proxy, places: seq<nat>, m: nat)
    requires forall i: nat :: i in places <==> SavedAlike(proxies, results, p, i)
    requires forall j, k :: 0 <= j < k < |places| ==> places[j] < places[k]
    requires m < |places| && forall n :: 0 <= n < |places| ==> places[n] < |proxies|
    requires |places| != 1 ==>
               proxies[places[m]].labels.address == p.labels.address && forall n :: 0 <= n < m ==> proxies[places[n]].labels.address != p.labels.address
    ensures GivesTo(proxies, results, p, places[m])
  {
    hide SavedAlike;
    forall j: nat | SavedAlike(proxies, results, p, j) && j < places[m] ensures j < |proxies| && proxies[j].labels.address != p.labels.address {
      var n :| 0 <= n < |places| && places[n] == j;
      assert n < m;
    }
  }

  /** The item tried for a binding without a result is what its donor has saved. */
  lemma ChosenIsDonors(proxies: seq<Proxy>, results: Stored, p: Proxy)
    requires DistinctIDs(proxies) && p in proxies && p.labels !in results
    ensures Chosen(Saved(proxies, results), p).None? ==> forall i: nat :: !GivesTo(proxies, results, p, i)
    ensures Chosen(Saved(proxies, results), p).Some? ==>
              exists i: nat :: GivesTo(proxies, results, p, i) && Chosen(Saved(proxies, results), p).value == ItemOf(proxies[i], results[proxies[i].labels])
  {
    hide Saved, Latest, Shown, AtAddress, AlikePlaces, DistinctIDs, SavedAlike, GivesTo, ItemOf, Chosen, DisplayOf;
    var items := Saved(proxies, results);
    var shown, places := Shown(items, DisplayOf(p.labels)), AlikePlaces(proxies, results, p);
    LatestSaved(proxies, results, p);
    ChosenAmongShown(items, p);
    ShownHasPlaces(proxies, results, p);
    PlacesOfAlike(proxies, results, p);
    var k := AtAddressTells(shown, p.labels.address);
    if Chosen(items, p).None? {
      NobodyGives(proxies, results, p, places);
    } else {
      GivesAtPlace(proxies, results, p, places, if |shown| == 1 then 0 else k);
    }
  }

  lemma ChosenAmongShown(items: seq<Item>, p: Proxy)
    requires Latest(items, p.labels.stableID).None?
    ensures var shown := Shown(items, DisplayOf(p.labels));
            Chosen(items, p) == if |shown| == 1 then Some(shown[0]) else AtAddress(shown, p.labels.address)
  {
    hide Latest, Shown, AtAddress;
  }

  lemma ShownHasPlaces(proxies: seq<Proxy>, results: Stored, p: Proxy)
    ensures var shown := Shown(Saved(proxies, results), DisplayOf(p.labels)); var places := AlikePlaces(proxies, results, p);
            && |shown| == |places|
            && forall k :: 0 <= k < |places| ==>
                 && places[k] < |proxies| && shown[k].labels == proxies[places[k]].labels && proxies[places[k]].labels in results
                 && shown[k] == ItemOf(proxies[places[k]], results[proxies[places[k]].labels])
  {
    ShownIsSavedAlike(proxies, results, p);
    hide Saved, Shown, AlikePlaces;
  }

  lemma OneDonor(proxies: seq<Proxy>, results: Stored, p: Proxy, i: nat, j: nat)
    requires GivesTo(proxies, results, p, i) && GivesTo(proxies, results, p, j)
    ensures i == j
  {
  }

  /** A binding without a result gets one exactly when its donor has its connection, and then it is
      the donor's. */
  lemma UncheckedGetsIff(proxies: seq<Proxy>, results: Stored, p: Proxy)
    requires DistinctIDs(proxies) && p in proxies && p.labels !in results && p.revision != ""
    ensures var loaded := LoadAll(map[], Saved(proxies, results), proxies);
            && (p.labels in loaded <==> exists i: nat :: GivesTo(proxies, results, p, i) && proxies[i].revision == p.revision)
            && (forall i: nat :: GivesTo(proxies, results, p, i) && proxies[i].revision == p.revision ==>
                  p.labels in loaded && loaded[p.labels] == Cut(results[proxies[i].labels]))
  {
    var items := Saved(proxies, results);
    LoadedAt(map[], items, proxies, p);
    ChosenIsDonors(proxies, results, p);
    hide Saved, Chosen, LoadAll, GivesTo, DistinctIDs;
    forall i: nat, j: nat | GivesTo(proxies, results, p, i) && GivesTo(proxies, results, p, j) ensures i == j {
      OneDonor(proxies, results, p, i, j);
    }
    forall i: nat | GivesTo(proxies, results, p, i) ensures i < |proxies| && proxies[i].labels in results {
      assert GivesTo(proxies, results, p, i) ==> i < |proxies|;
    }
  }

  lemma OnlyItem(i: Item, p: Proxy)
    requires i.labels.stableID != p.labels.stableID && DisplayOf(i.labels) == DisplayOf(p.labels)
    ensures Latest([i], p.labels.stableID) == None && Shown([i], DisplayOf(p.labels)) == [i]
  {
    var items := [i];
    assert items[..|items| - 1] == [] && items[|items| - 1] == i;
    assert Shown([], DisplayOf(p.labels)) == [];
    assert Latest([], p.labels.stableID) == None;
  }

  /** A binding that has not been checked does get the result of its only twin. */
  lemma TwinGetsResult(p: Proxy, q: Proxy, r: Result)
    requires p.revision == q.revision != "" && DisplayOf(p.labels) == DisplayOf(q.labels) && p.labels.stableID != q.labels.stableID
    ensures var loaded := LoadAll(map[], Saved([q, p], map[q.labels := r]), [q, p]);
            p.labels in loaded && loaded[p.labels] == Cut(r)
  {
    var i := ItemOf(q, r);
    TwinSaved(p, q, r);
    OnlyItem(i, p);
    assert Chosen([i], p) == Some(i);
    assert Restores([i], p) && ResultOf(i) == Cut(r);
    hide Saved, Latest, Shown, LoadAll, Restores, Chosen;
    LoadedAt(map[], [i], [q, p], p);
  }

  lemma TwinSaved(p: Proxy, q: Proxy, r: Result)
    requires p.labels.stableID != q.labels.stableID
    ensures Saved([q, p], map[q.labels := r]) == [ItemOf(q, r)]
  {
    var results := map[q.labels := r];
    SavedAppend([], q, results);
    SavedAppend([q], p, results);
    assert [] + [q] == [q] && [q] + [p] == [q, p];
    assert Saved([], results) == [];
  }

  /** Restoring says that the sweep was complete only if it was and every binding got a result. */
  lemma CompleteAfterRoundTrip(proxies: seq<Proxy>, results: Stored)
    requires DistinctIDs(proxies) && Covered(proxies, results) && forall p :: p in proxies ==> p.revision != ""
    ensures Covered(proxies, LoadAll(map[], Saved(proxies, results), proxies))
  {
    forall i | 0 <= i < |proxies| ensures proxies[i].labels in LoadAll(map[], Saved(proxies, results), proxies) {
      RoundTrip(proxies, results, proxies[i]);
    }
  }
}
