/** The fair batch scheduler of checker/monitor.go (dueProxies). */
module Scheduler {
  import opened Repair
  import opened Monitor
  import opened Ordering

  /** A due binding with its deadline and the lane its state puts it in. */
  datatype Candidate = Candidate(proxy: Binding, due: int, lane: nat)

  const LANES: nat := 3

  /** Lane 0 holds confirmations and recovery probes, lane 1 healthy rechecks, lane 2 first checks. */
  function LaneOf(n: Node): (lane: nat)
    ensures lane < LANES
  {
    if n.endpointSuspectedAt > 0 then 0
    else match n.state
      case Healthy => 1
      case Fixed => 1
      case Unknown => 2
      case IPChanged => 2
      case ConfigChanged => 2
      case _ => 0
  }

  predicate IsDue(m: Table, p: Binding, now: int) {
    p.logicalID in m && 0 < m[p.logicalID].nextCheck <= now
  }

  function CandidateOf(m: Table, p: Binding): Candidate
    requires p.logicalID in m
  {
    Candidate(p, m[p.logicalID].nextCheck, LaneOf(m[p.logicalID]))
  }

  /** Every due binding, in display order. */
  function Candidates(proxies: seq<Binding>, m: Table, now: int): seq<Candidate> {
    if proxies == [] then []
    else
      var p := proxies[|proxies| - 1];
      Candidates(proxies[..|proxies| - 1], m, now) + (if IsDue(m, p, now) then [CandidateOf(m, p)] else [])
  }

  function InLane(s: seq<Candidate>, lane: nat): seq<Candidate> {
    if s == [] then []
    else
      var c := s[|s| - 1];
      InLane(s[..|s| - 1], lane) + (if c.lane == lane then [c] else [])
  }

  function Named(s: seq<Candidate>, name: string): seq<Candidate> {
    if s == [] then []
    else
      var c := s[|s| - 1];
      Named(s[..|s| - 1], name) + (if c.proxy.subName == name then [c] else [])
  }

  function Proxies(s: seq<Candidate>): seq<Binding> {
    seq(|s|, i requires 0 <= i < |s| => s[i].proxy)
  }

  /** The order of candidates within one subscription. */
  predicate Before(a: Candidate, b: Candidate) {
    a.due < b.due || (a.due == b.due && Less(a.proxy.stableID, b.proxy.stableID))
  }

  function OldestDue(g: seq<Candidate>): int
    requires g != []
  {
    if |g| == 1 then g[0].due
    else
      var rest := OldestDue(g[..|g| - 1]);
      if g[|g| - 1].due < rest then g[|g| - 1].due else rest
  }

  function Quota(lane: nat, limit: nat): nat {
    if lane == 0 then limit / 2
    else if lane == 1 then limit * 3 / 10
    else limit - limit / 2 - limit * 3 / 10
  }

  function Min(a: int, b: int): int { if a < b then a else b }

  // ---- what a fair batch is ----

  /** `t` is the beginning of a (deadline, stable ID) order of `g`. */
  ghost predicate IsPick(g: seq<Candidate>, t: seq<Candidate>) {
    && multiset(t) <= multiset(g)
    && Sorted(t, Before)
    && forall x, y :: x in t && y in multiset(g) - multiset(t) ==> !Before(y, x)
  }

  /** The subscription `a` takes its turn before `b`. */
  predicate TurnBefore(lane: seq<Candidate>, a: string, b: string)
  {
    Named(lane, a) != [] && Named(lane, b) != [] &&
    (var x, y := OldestDue(Named(lane, a)), OldestDue(Named(lane, b)); x < y || (x == y && Less(a, b)))
  }

  /** No subscription is ahead of another by more than one pick, and then only because its
      turn comes first, unless the other has nothing left to give. */
  ghost predicate TakesTurns(lane: seq<Candidate>, s: seq<Candidate>) {
    forall a, b :: Named(lane, b) != [] ==>
      || |Named(s, a)| <= |Named(s, b)|
      || |Named(s, b)| == |Named(lane, b)|
      || (|Named(s, a)| == |Named(s, b)| + 1 && TurnBefore(lane, a, b))
  }

  /** `s` is a fair selection from the candidates of one lane. */
  ghost predicate FairPicks(lane: seq<Candidate>, s: seq<Candidate>) {
    && (forall name :: IsPick(Named(lane, name), Named(s, name)))
    && TakesTurns(lane, s)
    && (s != [] ==> forall c :: c in lane ==> s[0].due <= c.due)
  }

  /** The places of lane `lane` beyond its reserved ones. */
  function Borrowed(cands: seq<Candidate>, picks: seq<Candidate>, lane: nat, limit: nat): int {
    |InLane(picks, lane)| - Min(Quota(lane, limit), |InLane(cands, lane)|)
  }

  /** Every lane keeps its reserved places, and unused places are lent in turns. */
  ghost predicate LendsFairly(cands: seq<Candidate>, picks: seq<Candidate>, limit: nat) {
    && (forall a :: 0 <= a < LANES ==> Borrowed(cands, picks, a, limit) >= 0)
    && forall a, b :: 0 <= a < LANES && 0 <= b < LANES ==>
         || Borrowed(cands, picks, a, limit) <= Borrowed(cands, picks, b, limit)
         || |InLane(picks, b)| == |InLane(cands, b)|
         || (Borrowed(cands, picks, a, limit) == Borrowed(cands, picks, b, limit) + 1 && a < b)
  }

  /** The contract of dueProxies. */
  ghost predicate FairBatch(cands: seq<Candidate>, limit: int, picks: seq<Candidate>) {
    if limit <= 0 then picks == []
    else
      && multiset(picks) <= multiset(cands)
      && |picks| == Min(limit, |cands|)
      && LendsFairly(cands, picks, limit)
      && forall lane :: 0 <= lane < LANES ==> FairPicks(InLane(cands, lane), InLane(picks, lane))
  }

  /** The bindings of a fair batch. */
  ghost predicate IsFairBatch(cands: seq<Candidate>, limit: int, due: seq<Binding>) {
    exists picks :: FairBatch(cands, limit, picks) && due == Proxies(picks)
  }

  // ---- what a batch is to a caller who looks at the records only ----

  /** What a due binding asks for. */
  datatype Work = Confirmation | Recheck | FirstCheck

  /** A TCP doubt asks for a confirmation, whatever the state. */
  predicate Asks(n: Node, w: Work) {
    match w
    case Confirmation =>
      n.endpointSuspectedAt > 0 || n.state in {Unstable, Suspected, NeedsReplacement, VerifyingNewIP, NewIPFailed}
    case Recheck => n.endpointSuspectedAt <= 0 && n.state in {Healthy, Fixed}
    case FirstCheck => n.endpointSuspectedAt <= 0 && n.state in {NodeState.Unknown, IPChanged, ConfigChanged}
  }

  predicate Waits(m: Table, now: int, p: Binding, w: Work) {
    p.logicalID in m && 0 < m[p.logicalID].nextCheck <= now && Asks(m[p.logicalID], w)
  }

  /** How many of `s` wait for that work, ... */
  function Waiting(m: Table, now: int, s: seq<Binding>, w: Work): nat {
    if s == [] then 0 else Waiting(m, now, s[..|s| - 1], w) + (if Waits(m, now, s[|s| - 1], w) then 1 else 0)
  }

  /** ... and how many of them come from one subscription. */
  function WaitingOf(m: Table, now: int, s: seq<Binding>, w: Work, name: string): nat {
    if s == [] then 0
    else WaitingOf(m, now, s[..|s| - 1], w, name) + (if Waits(m, now, s[|s| - 1], w) && s[|s| - 1].subName == name then 1 else 0)
  }

  /** Half of the places are for confirmations, three tenths for rechecks, the others for first checks. */
  function Reserved(limit: nat, w: Work): nat {
    match w
    case Confirmation => limit / 2
    case Recheck => limit * 3 / 10
    case FirstCheck => limit - limit / 2 - limit * 3 / 10
  }

  /** The places taken beyond the reserved ones. */
  function Lent(m: Table, now: int, limit: nat, proxies: seq<Binding>, due: seq<Binding>, w: Work): int {
    Waiting(m, now, due, w) - Min(Reserved(limit, w), Waiting(m, now, proxies, w))
  }

  /** Confirmations are lent a place first, then rechecks, then first checks. */
  predicate LentBefore(v: Work, w: Work) {
    v != w && (v.Confirmation? || w.FirstCheck?)
  }

  /** Every kind of work has its reserved places as far as it needs them, and is lent as many of the
      others as any other kind, or one less, unless all of it is done. */
  ghost predicate SharesPlaces(m: Table, now: int, limit: nat, proxies: seq<Binding>, due: seq<Binding>) {
    && (forall w :: Lent(m, now, limit, proxies, due, w) >= 0)
    && forall v, w :: v != w && Waiting(m, now, due, w) < Waiting(m, now, proxies, w) ==>
         || Lent(m, now, limit, proxies, due, v) <= Lent(m, now, limit, proxies, due, w)
         || (LentBefore(v, w) && Lent(m, now, limit, proxies, due, v) == Lent(m, now, limit, proxies, due, w) + 1)
  }

  /** Within one kind of work and one subscription, what is taken was due earlier than what is left. */
  ghost predicate TakesOldest(m: Table, now: int, proxies: seq<Binding>, due: seq<Binding>, w: Work) {
    forall p, q :: p in due && q in proxies && q !in due && p.subName == q.subName && Waits(m, now, p, w) && Waits(m, now, q, w) ==>
      || m[p.logicalID].nextCheck < m[q.logicalID].nextCheck
      || (m[p.logicalID].nextCheck == m[q.logicalID].nextCheck && !Less(q.stableID, p.stableID))
  }

  /** The subscription has the binding that is due first, or its name comes first. */
  ghost predicate GoesFirst(m: Table, now: int, proxies: seq<Binding>, w: Work, a: string, b: string) {
    exists p :: p in proxies && p.subName == a && Waits(m, now, p, w) && EarlierThanAll(m, now, proxies, w, p, b)
  }

  ghost predicate EarlierThanAll(m: Table, now: int, proxies: seq<Binding>, w: Work, p: Binding, b: string)
    requires p.logicalID in m
  {
    forall q :: q in proxies && q.subName == b && Waits(m, now, q, w) ==>
      || m[p.logicalID].nextCheck < m[q.logicalID].nextCheck
      || (m[p.logicalID].nextCheck == m[q.logicalID].nextCheck && Less(p.subName, b))
  }

  /** Within one kind of work a subscription gets at most one more than another that has some left,
      and that only if it goes first. */
  ghost predicate SharesTurns(m: Table, now: int, proxies: seq<Binding>, due: seq<Binding>, w: Work) {
    forall a, b :: WaitingOf(m, now, due, w, b) < WaitingOf(m, now, proxies, w, b) && WaitingOf(m, now, due, w, a) > WaitingOf(m, now, due, w, b) ==>
      WaitingOf(m, now, due, w, a) == WaitingOf(m, now, due, w, b) + 1 && GoesFirst(m, now, proxies, w, a, b)
  }

  ghost predicate ServesFairly(m: Table, now: int, limit: int, proxies: seq<Binding>, due: seq<Binding>) {
    if limit <= 0 then due == []
    else
      && multiset(due) <= multiset(proxies)
      && (forall p :: p in due ==> p.logicalID in m && 0 < m[p.logicalID].nextCheck <= now)
      && |due| == Min(limit, Waiting(m, now, proxies, Confirmation) + Waiting(m, now, proxies, Recheck) + Waiting(m, now, proxies, FirstCheck))
      && SharesPlaces(m, now, limit, proxies, due)
      && (forall w :: TakesOldest(m, now, proxies, due, w))
      && (forall w :: SharesTurns(m, now, proxies, due, w))
  }

  // ---- facts about the filters ----

  lemma Appends(s: seq<Candidate>, c: Candidate, lane: nat, name: string)
    ensures InLane(s + [c], lane) == if c.lane == lane then InLane(s, lane) + [c] else InLane(s, lane)
    ensures Named(s + [c], name) == if c.proxy.subName == name then Named(s, name) + [c] else Named(s, name)
  {
    assert (s + [c])[..|s|] == s;
  }

  lemma {:induction false} NamedElements(s: seq<Candidate>, name: string, c: Candidate)
    ensures multiset(Named(s, name))[c] == (if c.proxy.subName == name then multiset(s)[c] else 0)
  {
    if s != [] {
      NamedElements(s[..|s| - 1], name, c);
      assert s == s[..|s| - 1] + [s[|s| - 1]];
    }
  }

  lemma {:induction false} LaneElements(s: seq<Candidate>, lane: nat, c: Candidate)
    ensures multiset(InLane(s, lane))[c] == (if c.lane == lane then multiset(s)[c] else 0)
  {
    if s != [] {
      LaneElements(s[..|s| - 1], lane, c);
      assert s == s[..|s| - 1] + [s[|s| - 1]];
    }
  }

  lemma {:induction false} OldestIsLeast(g: seq<Candidate>)
    requires g != []
    ensures forall c :: c in g ==> OldestDue(g) <= c.due
    ensures exists c :: c in g && OldestDue(g) == c.due
  {
    var last := g[|g| - 1];
    if |g| > 1 {
      OldestIsLeast(g[..|g| - 1]);
      assert g == g[..|g| - 1] + [last];
    } else {
      assert g[0] in g;
    }
  }

  lemma BeforeIsOrder(s: seq<Candidate>)
    ensures WeakOrderOn(s, Before)
  {
    forall x, y | Before(x, y) ensures !Before(y, x) {
      if x.due == y.due { LessAsymmetric(x.proxy.stableID, y.proxy.stableID); }
    }
    forall x, y, z | !Before(y, x) && !Before(z, y) ensures !Before(z, x) {
      if x.due == y.due == z.due { NotLessTransitive(x.proxy.stableID, y.proxy.stableID, z.proxy.stableID); }
    }
  }

  /** The front of a sorted rearrangement is a pick, and its head is the oldest. */
  lemma FrontIsPick(g: seq<Candidate>, r: seq<Candidate>, n: nat)
    requires multiset(r) == multiset(g) && Sorted(r, Before) && n <= |r|
    ensures IsPick(g, r[..n])
  {
    assert r == r[..n] + r[n..];
    assert multiset(g) - multiset(r[..n]) == multiset(r[n..]);
    forall x, y | x in r[..n] && y in multiset(r[n..]) ensures !Before(y, x) {
      assert y in r[n..];
    }
  }

  lemma HeadIsOldest(g: seq<Candidate>, r: seq<Candidate>)
    requires multiset(r) == multiset(g) && Sorted(r, Before) && g != []
    ensures r != [] && r[0].due == OldestDue(g)
  {
    SameElements(r, g);
    OldestIsLeast(g);
    var c :| c in g && OldestDue(g) == c.due;
    var i :| 0 <= i < |r| && r[i] == c;
    assert r[0] in g;
    assert i > 0 ==> !Before(r[i], r[0]);
  }

  /** `groups` holds the candidates of a lane by subscription. */
  ghost predicate Grouped(groups: map<string, seq<Candidate>>, lane: seq<Candidate>) {
    && (forall n :: n in groups <==> Named(lane, n) != [])
    && (forall n :: n in groups ==> groups[n] == Named(lane, n))
  }

  // ---- one lane: sort each subscription, then let them take turns ----

  /** The subscriptions of a lane, each sorted, and in the order of their turns. */
  ghost predicate Rota(lane: seq<Candidate>, sorted: map<string, seq<Candidate>>, names: seq<string>) {
    && (forall n :: n in names <==> Named(lane, n) != [])
    && (forall i, j :: 0 <= i < j < |names| ==> names[i] != names[j])
    && (forall n :: n in names ==> n in sorted && multiset(sorted[n]) == multiset(Named(lane, n)) && Sorted(sorted[n], Before))
    && (forall i, j :: 0 <= i < j < |names| ==> TurnBefore(lane, names[i], names[j]))
  }

  /** The first `n` candidates of subscription `name`, or all it has, have been taken. */
  ghost predicate Taken(sorted: map<string, seq<Candidate>>, rest: map<string, seq<Candidate>>, ordered: seq<Candidate>,
                        name: string, n: nat)
  {
    && name in sorted && name in rest
    && |Named(ordered, name)| == Min(n, |sorted[name]|)
    && Named(ordered, name) == sorted[name][..Min(n, |sorted[name]|)]
    && rest[name] == sorted[name][Min(n, |sorted[name]|)..]
  }

  /** After `r` whole turns, the first `i` subscriptions have taken one more. */
  ghost predicate AtTurn(sorted: map<string, seq<Candidate>>, names: seq<string>, rest: map<string, seq<Candidate>>,
                         ordered: seq<Candidate>, r: nat, i: nat)
  {
    && i <= |names|
    && (forall n :: n !in names ==> Named(ordered, n) == [])
    && (forall j :: 0 <= j < |names| ==> Taken(sorted, rest, ordered, names[j], if j < i then r + 1 else r))
    && (ordered != [] ==> names != [] && names[0] in sorted && sorted[names[0]] != [] && ordered[0] == sorted[names[0]][0])
  }

  /** Any front of `ordered` is a fair selection. */
  ghost predicate Fronts(lane: seq<Candidate>, ordered: seq<Candidate>) {
    forall k :: 0 <= k <= |ordered| ==> FairPicks(lane, ordered[..k])
  }

  lemma TurnPicks(lane: seq<Candidate>, sorted: map<string, seq<Candidate>>, names: seq<string>,
                  rest: map<string, seq<Candidate>>, ordered: seq<Candidate>, r: nat, i: nat, name: string)
    requires Rota(lane, sorted, names) && AtTurn(sorted, names, rest, ordered, r, i)
    ensures IsPick(Named(lane, name), Named(ordered, name))
  {
    if name in names {
      var j :| 0 <= j < |names| && names[j] == name;
      assert Taken(sorted, rest, ordered, names[j], if j < i then r + 1 else r);
      FrontIsPick(Named(lane, name), sorted[name], |Named(ordered, name)|);
    }
  }

  lemma TurnBalances(lane: seq<Candidate>, sorted: map<string, seq<Candidate>>, names: seq<string>,
                     rest: map<string, seq<Candidate>>, ordered: seq<Candidate>, r: nat, i: nat, a: string, b: string)
    requires Rota(lane, sorted, names) && AtTurn(sorted, names, rest, ordered, r, i)
    requires Named(lane, b) != []
    ensures || |Named(ordered, a)| <= |Named(ordered, b)|
            || |Named(ordered, b)| == |Named(lane, b)|
            || (|Named(ordered, a)| == |Named(ordered, b)| + 1 && TurnBefore(lane, a, b))
  {
    var y :| 0 <= y < |names| && names[y] == b;
    assert Taken(sorted, rest, ordered, names[y], if y < i then r + 1 else r);
    SameElements(sorted[b], Named(lane, b));
    if a in names {
      var x :| 0 <= x < |names| && names[x] == a;
      assert Taken(sorted, rest, ordered, names[x], if x < i then r + 1 else r);
    }
  }

  lemma TurnIsFair(lane: seq<Candidate>, sorted: map<string, seq<Candidate>>, names: seq<string>,
                   rest: map<string, seq<Candidate>>, ordered: seq<Candidate>, r: nat, i: nat)
    requires Rota(lane, sorted, names) && AtTurn(sorted, names, rest, ordered, r, i)
    ensures FairPicks(lane, ordered)
  {
    forall name ensures IsPick(Named(lane, name), Named(ordered, name)) {
      TurnPicks(lane, sorted, names, rest, ordered, r, i, name);
    }
    forall a, b | Named(lane, b) != []
      ensures || |Named(ordered, a)| <= |Named(ordered, b)|
              || |Named(ordered, b)| == |Named(lane, b)|
              || (|Named(ordered, a)| == |Named(ordered, b)| + 1 && TurnBefore(lane, a, b))
    {
      TurnBalances(lane, sorted, names, rest, ordered, r, i, a, b);
    }
    if ordered != [] {
      forall c | c in lane ensures ordered[0].due <= c.due {
        RotaHead(lane, sorted, names, c);
      }
    }
  }

  lemma RotaHead(lane: seq<Candidate>, sorted: map<string, seq<Candidate>>, names: seq<string>, c: Candidate)
    requires Rota(lane, sorted, names) && c in lane && names != [] && sorted[names[0]] != []
    ensures sorted[names[0]][0].due <= c.due
  {
    var n := c.proxy.subName;
    NamedElements(lane, n, c);
    assert c in multiset(lane) && c in multiset(Named(lane, n));
    assert c in Named(lane, n);
    OldestIsLeast(Named(lane, n));
    HeadIsOldest(Named(lane, names[0]), sorted[names[0]]);
    var j :| 0 <= j < |names| && names[j] == n;
    assert j > 0 ==> TurnBefore(lane, names[0], names[j]);
  }

  lemma PicksWithin(lane: seq<Candidate>, s: seq<Candidate>)
    requires forall name :: IsPick(Named(lane, name), Named(s, name))
    ensures multiset(s) <= multiset(lane) && |s| <= |lane|
  {
    forall c: Candidate ensures multiset(s)[c] <= multiset(lane)[c] {
      NamedElements(s, c.proxy.subName, c);
      NamedElements(lane, c.proxy.subName, c);
      assert IsPick(Named(lane, c.proxy.subName), Named(s, c.proxy.subName));
    }
    assert |multiset(s)| + |multiset(lane) - multiset(s)| == |multiset(lane)|;
  }

  lemma AllTaken(lane: seq<Candidate>, s: seq<Candidate>)
    requires forall name :: multiset(Named(lane, name)) == multiset(Named(s, name))
    ensures multiset(s) == multiset(lane) && |s| == |lane|
  {
    forall c: Candidate ensures multiset(s)[c] == multiset(lane)[c] {
      NamedElements(s, c.proxy.subName, c);
      NamedElements(lane, c.proxy.subName, c);
    }
    assert multiset(s) == multiset(lane);
    SameElements(s, lane);
  }

  predicate HeadBefore(sorted: map<string, seq<Candidate>>, a: string, b: string) {
    a in sorted && b in sorted && sorted[a] != [] && sorted[b] != [] &&
    (sorted[a][0].due < sorted[b][0].due || (sorted[a][0].due == sorted[b][0].due && Less(a, b)))
  }

  lemma HeadBeforeIsOrder(sorted: map<string, seq<Candidate>>, names: seq<string>)
    requires forall n :: n in names ==> n in sorted && sorted[n] != []
    ensures WeakOrderOn(names, (a, b) => HeadBefore(sorted, a, b))
  {
    forall x, y | x in names && y in names && HeadBefore(sorted, x, y) ensures !HeadBefore(sorted, y, x) {
      if sorted[x][0].due == sorted[y][0].due { LessAsymmetric(x, y); }
    }
    forall x, y, z | x in names && y in names && z in names && !HeadBefore(sorted, y, x) && !HeadBefore(sorted, z, y)
      ensures !HeadBefore(sorted, z, x)
    {
      if sorted[x][0].due == sorted[y][0].due == sorted[z][0].due { NotLessTransitive(x, y, z); }
    }
  }

  /** Every subscription named so far is sorted. */
  ghost predicate SortedOf(groups: map<string, seq<Candidate>>, sorted: map<string, seq<Candidate>>, n: string)
    requires n in groups
  {
    n in sorted && multiset(sorted[n]) == multiset(groups[n]) && Sorted(sorted[n], Before)
  }

  /** Sort every subscription.  The groups are visited in an arbitrary order, like the map they live in. */
  method SortEach(groups: map<string, seq<Candidate>>) returns (sorted: map<string, seq<Candidate>>, found: seq<string>)
    ensures forall n :: n in found <==> n in groups
    ensures forall n :: n in groups ==> SortedOf(groups, sorted, n)
    ensures forall i, j :: 0 <= i < j < |found| ==> found[i] != found[j]
  {
    hide Sorted, WeakOrderOn;
    var pending := groups.Keys;
    found := [];
    sorted := map[];
    while pending != {}
      invariant pending <= groups.Keys
      invariant forall n :: n in found <==> n in groups.Keys - pending
      invariant forall n :: n in found ==> n in groups && SortedOf(groups, sorted, n)
      invariant forall i, j :: 0 <= i < j < |found| ==> found[i] != found[j]
      decreases pending
    {
      var name :| name in pending;
      BeforeIsOrder(groups[name]);
      var group := Sort(groups[name], Before);
      sorted := sorted[name := group];
      found := found + [name];
      pending := pending - {name};
    }
  }

  lemma HeadsAreOldest(lane: seq<Candidate>, groups: map<string, seq<Candidate>>, sorted: map<string, seq<Candidate>>, n: string)
    requires Grouped(groups, lane) && n in groups && SortedOf(groups, sorted, n)
    ensures sorted[n] != [] && sorted[n][0].due == OldestDue(Named(lane, n))
  {
    HeadIsOldest(Named(lane, n), sorted[n]);
  }

  /** Sort every subscription, then sort the subscriptions by their oldest deadline. */
  method SortGroups(ghost lane: seq<Candidate>, groups: map<string, seq<Candidate>>)
    returns (sorted: map<string, seq<Candidate>>, names: seq<string>)
    requires Grouped(groups, lane)
    ensures Rota(lane, sorted, names)
  {
    var found;
    sorted, found := SortEach(groups);
    forall n | n in found ensures sorted[n] != [] && sorted[n][0].due == OldestDue(Named(lane, n)) {
      HeadsAreOldest(lane, groups, sorted, n);
    }
    HeadBeforeIsOrder(sorted, found);
    names := Sort(found, (a, b) => HeadBefore(sorted, a, b));
    SameElements(names, found);
    DistinctKept(found, names);
    forall i, j | 0 <= i < j < |names| ensures TurnBefore(lane, names[i], names[j]) {
      assert names[i] in names && names[j] in names;
      LessTotal(names[i], names[j]);
    }
  }

  lemma CountedOnce(a: seq<string>, k: nat)
    requires k < |a| && forall i, j :: 0 <= i < j < |a| ==> a[i] != a[j]
    ensures multiset(a)[a[k]] == 1
  {
    assert a == a[..k] + [a[k]] + a[k + 1..];
    assert a[k] !in a[..k] && a[k] !in a[k + 1..];
  }

  lemma CountedTwice(b: seq<string>, i: nat, j: nat)
    requires i < j < |b| && b[i] == b[j]
    ensures multiset(b)[b[i]] >= 2
  {
    assert b == b[..i] + [b[i]] + b[i + 1..j] + [b[i]] + b[j + 1..];
  }

  lemma DistinctKept(a: seq<string>, b: seq<string>)
    requires multiset(a) == multiset(b)
    requires forall i, j :: 0 <= i < j < |a| ==> a[i] != a[j]
    ensures forall i, j :: 0 <= i < j < |b| ==> b[i] != b[j]
  {
    SameElements(a, b);
    forall i, j | 0 <= i < j < |b| ensures b[i] != b[j] {
      assert b[i] in b;
      var k :| 0 <= k < |a| && a[k] == b[i];
      CountedOnce(a, k);
      if b[i] == b[j] {
        CountedTwice(b, i, j);
      }
    }
  }

  lemma StartTurns(lane: seq<Candidate>, sorted: map<string, seq<Candidate>>, names: seq<string>)
    requires Rota(lane, sorted, names)
    ensures AtTurn(sorted, names, sorted, [], 0, 0) && Fronts(lane, [])
  {
    forall j | 0 <= j < |names| ensures Taken(sorted, sorted, [], names[j], 0) {
      assert names[j] in names;
    }
    TurnIsFair(lane, sorted, names, sorted, [], 0, 0);
  }

  /** Interleave one lane.  Any front of the result is a fair selection. */
  method OrderLane(ghost lane: seq<Candidate>, groups: map<string, seq<Candidate>>) returns (ordered: seq<Candidate>)
    requires Grouped(groups, lane)
    ensures LaneOrder(lane, ordered)
  {
    var sorted, names := SortGroups(lane, groups);
    var rest := sorted;
    ordered := [];
    ghost var r := 0;
    var remaining := true;
    StartTurns(lane, sorted, names);
    while remaining
      invariant Turning(lane, sorted, names, rest, ordered, r, 0)
      invariant !remaining ==> NothingLeft(rest, names, |names|)
      decreases |lane| - |ordered|, remaining
    {
      rest, ordered, remaining := OneTurn(lane, sorted, names, rest, ordered, r);
      NewTurn(sorted, names, rest, ordered, r);
      r := r + 1;
    }
    AllDrained(lane, sorted, names, rest, ordered, r);
  }

  ghost predicate NothingLeft(rest: map<string, seq<Candidate>>, names: seq<string>, n: nat) {
    forall j :: 0 <= j < n && j < |names| ==> names[j] in rest && rest[names[j]] == []
  }

  lemma HasTurn(sorted: map<string, seq<Candidate>>, names: seq<string>, rest: map<string, seq<Candidate>>,
                ordered: seq<Candidate>, r: nat, i: nat)
    requires AtTurn(sorted, names, rest, ordered, r, i) && i < |names|
    ensures names[i] in rest
  {
    assert Taken(sorted, rest, ordered, names[i], r);
  }

  ghost predicate Turning(lane: seq<Candidate>, sorted: map<string, seq<Candidate>>, names: seq<string>,
                          rest: map<string, seq<Candidate>>, ordered: seq<Candidate>, r: nat, i: nat)
  {
    Rota(lane, sorted, names) && AtTurn(sorted, names, rest, ordered, r, i) && Fronts(lane, ordered) && |ordered| <= |lane|
  }

  lemma OneStep(lane: seq<Candidate>, sorted: map<string, seq<Candidate>>, names: seq<string>,
                rest: map<string, seq<Candidate>>, ordered: seq<Candidate>, r: nat, i: nat)
    requires Turning(lane, sorted, names, rest, ordered, r, i) && i < |names|
    ensures names[i] in rest
    ensures if rest[names[i]] == [] then Turning(lane, sorted, names, rest, ordered, r, i + 1)
            else Turning(lane, sorted, names, rest[names[i] := rest[names[i]][1..]], ordered + [rest[names[i]][0]], r, i + 1)
  {
    HasTurn(sorted, names, rest, ordered, r, i);
    if rest[names[i]] == [] {
      PassTurn(sorted, names, rest, ordered, r, i);
    } else {
      Advance(lane, sorted, names, rest, ordered, r, i);
    }
  }

  /** The inner loop: every subscription that has something left gives one candidate. */
  method OneTurn(ghost lane: seq<Candidate>, ghost sorted: map<string, seq<Candidate>>, names: seq<string>,
                 before: map<string, seq<Candidate>>, taken: seq<Candidate>, ghost r: nat)
    returns (rest: map<string, seq<Candidate>>, ordered: seq<Candidate>, remaining: bool)
    requires Turning(lane, sorted, names, before, taken, r, 0)
    ensures Turning(lane, sorted, names, rest, ordered, r, |names|)
    ensures |taken| <= |ordered| && (remaining ==> |ordered| > |taken|)
    ensures !remaining ==> |ordered| == |taken| && NothingLeft(rest, names, |names|)
  {
    rest, ordered, remaining := before, taken, false;
    for i := 0 to |names|
      invariant Turning(lane, sorted, names, rest, ordered, r, i)
      invariant |taken| <= |ordered| && (remaining ==> |ordered| > |taken|)
      invariant !remaining ==> |ordered| == |taken| && NothingLeft(rest, names, i)
    {
      OneStep(lane, sorted, names, rest, ordered, r, i);
      var group := rest[names[i]];
      if group != [] {
        ordered := ordered + [group[0]];
        rest := rest[names[i] := group[1..]];
        remaining := true;
      }
    }
  }

  lemma AllDrained(lane: seq<Candidate>, sorted: map<string, seq<Candidate>>, names: seq<string>,
                   rest: map<string, seq<Candidate>>, ordered: seq<Candidate>, r: nat)
    requires Rota(lane, sorted, names) && AtTurn(sorted, names, rest, ordered, r, 0)
    requires NothingLeft(rest, names, |names|)
    ensures multiset(ordered) == multiset(lane) && |ordered| == |lane|
  {
    forall name ensures multiset(Named(lane, name)) == multiset(Named(ordered, name)) {
      if name in names {
        var j :| 0 <= j < |names| && names[j] == name;
        assert Taken(sorted, rest, ordered, names[j], r);
        assert Named(ordered, name) == sorted[name];
      }
    }
    AllTaken(lane, ordered);
  }

  lemma TakenNext(sorted: map<string, seq<Candidate>>, rest: map<string, seq<Candidate>>, ordered: seq<Candidate>,
                  name: string, n: nat, turn: string, next: Candidate)
    requires Taken(sorted, rest, ordered, name, n) && turn in rest && rest[turn] != [] && next == rest[turn][0]
    requires next.proxy.subName == turn
    ensures Taken(sorted, rest[turn := rest[turn][1..]], ordered + [next], name, if name == turn then n + 1 else n)
  {
    Appends(ordered, next, 0, name);
    if name == turn {
      assert n < |sorted[name]|;
      assert sorted[name][..n + 1] == sorted[name][..n] + [next];
    }
  }

  lemma RestIsNamed(lane: seq<Candidate>, sorted: map<string, seq<Candidate>>, names: seq<string>,
                    rest: map<string, seq<Candidate>>, ordered: seq<Candidate>, r: nat, i: nat)
    requires Rota(lane, sorted, names) && AtTurn(sorted, names, rest, ordered, r, i)
    requires i < |names| && names[i] in rest && rest[names[i]] != []
    ensures rest[names[i]][0].proxy.subName == names[i]
  {
    var name, next := names[i], rest[names[i]][0];
    assert Taken(sorted, rest, ordered, names[i], r);
    assert next in sorted[name];
    SameElements(sorted[name], Named(lane, name));
    NamedElements(lane, name, next);
    assert next in multiset(Named(lane, name));
  }

  lemma TakeTurn(sorted: map<string, seq<Candidate>>, names: seq<string>,
                 rest: map<string, seq<Candidate>>, ordered: seq<Candidate>, r: nat, i: nat, next: Candidate)
    requires AtTurn(sorted, names, rest, ordered, r, i)
    requires i < |names| && names[i] in rest && rest[names[i]] != [] && next == rest[names[i]][0]
    requires forall j :: 0 <= j < |names| && j != i ==> names[j] != names[i]
    requires next.proxy.subName == names[i]
    requires ordered == [] ==> i == 0 && names[0] in sorted && sorted[names[0]] != [] && rest[names[0]] == sorted[names[0]]
    ensures AtTurn(sorted, names, rest[names[i] := rest[names[i]][1..]], ordered + [next], r, i + 1)
  {
    var name := names[i];
    var more, rest' := ordered + [next], rest[name := rest[name][1..]];
    forall n | n !in names ensures Named(more, n) == [] {
      Appends(ordered, next, 0, n);
    }
    forall j | 0 <= j < |names| ensures Taken(sorted, rest', more, names[j], if j < i + 1 then r + 1 else r) {
      assert Taken(sorted, rest, ordered, names[j], if j < i then r + 1 else r);
      TakenNext(sorted, rest, ordered, names[j], if j < i then r + 1 else r, name, next);
    }
  }

  lemma Advance(lane: seq<Candidate>, sorted: map<string, seq<Candidate>>, names: seq<string>,
                rest: map<string, seq<Candidate>>, ordered: seq<Candidate>, r: nat, i: nat)
    requires Rota(lane, sorted, names) && AtTurn(sorted, names, rest, ordered, r, i) && Fronts(lane, ordered)
    requires i < |names| && names[i] in rest && rest[names[i]] != []
    ensures var more, rest' := ordered + [rest[names[i]][0]], rest[names[i] := rest[names[i]][1..]];
            AtTurn(sorted, names, rest', more, r, i + 1) && Fronts(lane, more) && |more| <= |lane|
  {
    RestIsNamed(lane, sorted, names, rest, ordered, r, i);
    if ordered == [] {
      FirstTurn(lane, sorted, names, rest, ordered, r, i);
    }
    var next := rest[names[i]][0];
    TakeTurn(sorted, names, rest, ordered, r, i, next);
    TurnIsFair(lane, sorted, names, rest[names[i] := rest[names[i]][1..]], ordered + [next], r, i + 1);
    FrontsExtend(lane, ordered, next);
    PicksWithin(lane, ordered + [next]);
  }

  lemma FirstTurn(lane: seq<Candidate>, sorted: map<string, seq<Candidate>>, names: seq<string>,
                  rest: map<string, seq<Candidate>>, ordered: seq<Candidate>, r: nat, i: nat)
    requires Rota(lane, sorted, names) && AtTurn(sorted, names, rest, ordered, r, i)
    requires i < |names| && ordered == []
    ensures i == 0 && names[0] in sorted && sorted[names[0]] != [] && names[0] in rest && rest[names[0]] == sorted[names[0]]
  {
    assert Taken(sorted, rest, ordered, names[0], if 0 < i then r + 1 else r);
    assert Named(ordered, names[0]) == [];
    SameElements(sorted[names[0]], Named(lane, names[0]));
  }

  /** A subscription with nothing left passes its turn. */
  lemma PassTurn(sorted: map<string, seq<Candidate>>, names: seq<string>, rest: map<string, seq<Candidate>>,
                 ordered: seq<Candidate>, r: nat, i: nat)
    requires AtTurn(sorted, names, rest, ordered, r, i)
    requires i < |names| && names[i] in rest && rest[names[i]] == []
    ensures AtTurn(sorted, names, rest, ordered, r, i + 1)
  {
    assert Taken(sorted, rest, ordered, names[i], r);
    forall j | 0 <= j < |names| ensures Taken(sorted, rest, ordered, names[j], if j < i + 1 then r + 1 else r) {
      assert Taken(sorted, rest, ordered, names[j], if j < i then r + 1 else r);
    }
  }

  lemma NewTurn(sorted: map<string, seq<Candidate>>, names: seq<string>, rest: map<string, seq<Candidate>>,
                ordered: seq<Candidate>, r: nat)
    requires AtTurn(sorted, names, rest, ordered, r, |names|)
    ensures AtTurn(sorted, names, rest, ordered, r + 1, 0)
  {
    forall j | 0 <= j < |names| ensures Taken(sorted, rest, ordered, names[j], r + 1) {
      assert j < |names| ==> Taken(sorted, rest, ordered, names[j], r + 1);
    }
  }

  lemma FrontsExtend(lane: seq<Candidate>, taken: seq<Candidate>, next: Candidate)
    requires Fronts(lane, taken) && FairPicks(lane, taken + [next])
    ensures Fronts(lane, taken + [next])
  {
    var more := taken + [next];
    forall k | 0 <= k <= |more| ensures FairPicks(lane, more[..k]) {
      if k <= |taken| {
        assert more[..k] == taken[..k];
      } else {
        assert more[..k] == more;
      }
    }
  }

  // ---- the batch: reserved places, then loans ----

  /** What has been picked so far is the front of every lane, and `rest` is what remains. */
  ghost predicate Dealt(orders: seq<seq<Candidate>>, rest: seq<seq<Candidate>>, picks: seq<Candidate>) {
    && |orders| == |rest| == LANES
    && OwnLanes(orders)
    && (forall i :: 0 <= i < |picks| ==> picks[i].lane < LANES)
    && (forall l :: 0 <= l < LANES ==> orders[l] == InLane(picks, l) + rest[l])
  }

  ghost predicate OwnLanes(orders: seq<seq<Candidate>>) {
    && |orders| == LANES
    && forall l, i :: 0 <= l < LANES && 0 <= i < |orders[l]| ==> orders[l][i].lane == l
  }

  ghost predicate Sized(cands: seq<Candidate>, orders: seq<seq<Candidate>>) {
    && |orders| == LANES
    && forall l :: 0 <= l < LANES ==> |orders[l]| == |InLane(cands, l)|
  }

  /** The orders of the three lanes of `cands`. */
  ghost predicate LaneOrders(cands: seq<Candidate>, orders: seq<seq<Candidate>>) {
    && |orders| == LANES
    && (forall i :: 0 <= i < |cands| ==> cands[i].lane < LANES)
    && (forall l :: 0 <= l < LANES ==> LaneOrder(InLane(cands, l), orders[l]))
  }

  ghost predicate LaneOrder(lane: seq<Candidate>, order: seq<Candidate>) {
    multiset(order) == multiset(lane) && |order| == |lane| && Fronts(lane, order)
  }

  lemma {:induction false} LaneJoin(s: seq<Candidate>, t: seq<Candidate>, lane: nat)
    ensures InLane(s + t, lane) == InLane(s, lane) + InLane(t, lane)
  {
    if t == [] {
      assert s + t == s;
    } else {
      var rest, last := t[..|t| - 1], t[|t| - 1];
      LaneJoin(s, rest, lane);
      assert s + t == (s + rest) + [last] && t == rest + [last];
      Appends(s + rest, last, lane, "");
      Appends(rest, last, lane, "");
      hide InLane;
    }
  }

  lemma {:induction false} OneLane(t: seq<Candidate>, own: nat, lane: nat)
    requires forall i :: 0 <= i < |t| ==> t[i].lane == own
    ensures InLane(t, lane) == if lane == own then t else []
  {
    if t != [] {
      OneLane(t[..|t| - 1], own, lane);
    }
  }

  lemma {:induction false} LaneSizes(s: seq<Candidate>)
    requires forall i :: 0 <= i < |s| ==> s[i].lane < LANES
    ensures |s| == |InLane(s, 0)| + |InLane(s, 1)| + |InLane(s, 2)|
  {
    if s != [] {
      LaneSizes(s[..|s| - 1]);
    }
  }

  lemma DealLane(picks: seq<Candidate>, t: seq<Candidate>, own: nat, lane: nat)
    requires forall i :: 0 <= i < |t| ==> t[i].lane == own
    ensures InLane(picks + t, lane) == if lane == own then InLane(picks, lane) + t else InLane(picks, lane)
  {
    LaneJoin(picks, t, lane);
    OneLane(t, own, lane);
  }

  lemma RestInLane(orders: seq<seq<Candidate>>, rest: seq<seq<Candidate>>, picks: seq<Candidate>, lane: nat)
    requires Dealt(orders, rest, picks) && lane < LANES
    ensures forall i :: 0 <= i < |rest[lane]| ==> rest[lane][i].lane == lane
  {
    hide InLane;
    forall i | 0 <= i < |rest[lane]| ensures rest[lane][i].lane == lane {
      assert rest[lane][i] == orders[lane][|InLane(picks, lane)| + i];
    }
  }

  lemma DealOne(order: seq<Candidate>, rest: seq<Candidate>, picks: seq<Candidate>, t: seq<Candidate>, own: nat, lane: nat, n: nat)
    requires order == InLane(picks, lane) + rest && forall i :: 0 <= i < |t| ==> t[i].lane == own
    requires own == lane ==> n <= |rest| && t == rest[..n]
    ensures InLane(picks + t, lane) == if lane == own then InLane(picks, lane) + t else InLane(picks, lane)
    ensures order == InLane(picks + t, lane) + (if lane == own then rest[n..] else rest)
  {
    hide InLane;
    DealLane(picks, t, own, lane);
    if own == lane {
      CutAnywhere(InLane(picks, lane), rest, n);
    }
  }

  lemma CutAnywhere(a: seq<Candidate>, b: seq<Candidate>, n: nat)
    requires n <= |b|
    ensures (a + b[..n]) + b[n..] == a + b
  {
    assert b == b[..n] + b[n..];
  }

  lemma Deal(orders: seq<seq<Candidate>>, rest: seq<seq<Candidate>>, picks: seq<Candidate>, lane: nat, n: nat)
    requires Dealt(orders, rest, picks) && lane < LANES && n <= |rest[lane]|
    ensures Dealt(orders, rest[lane := rest[lane][n..]], picks + rest[lane][..n])
    ensures forall l :: 0 <= l < LANES ==>
              InLane(picks + rest[lane][..n], l) == if l == lane then InLane(picks, l) + rest[lane][..n] else InLane(picks, l)
  {
    var t, rest' := rest[lane][..n], rest[lane := rest[lane][n..]];
    RestInLane(orders, rest, picks, lane);
    hide InLane;
    forall l | 0 <= l < LANES
      ensures InLane(picks + t, l) == if l == lane then InLane(picks, l) + t else InLane(picks, l)
      ensures orders[l] == InLane(picks + t, l) + rest'[l]
    {
      DealOne(orders[l], rest[l], picks, t, lane, l, n);
    }
  }

  /** Places of lane `l` that can be lent to it. */
  function Lendable(cands: seq<Candidate>, lane: nat, limit: nat): nat {
    |InLane(cands, lane)| - Min(Quota(lane, limit), |InLane(cands, lane)|)
  }

  /** Lane `lane` has had its share of `e` rounds of loans, and of the next one if it is
      among the first `i` lanes. */
  predicate Loaned(cands: seq<Candidate>, picks: seq<Candidate>, limit: nat, e: nat, i: nat, lane: nat) {
    Borrowed(cands, picks, lane, limit) == Min(if lane < i then e + 1 else e, Lendable(cands, lane, limit))
  }

  ghost predicate AtLoan(cands: seq<Candidate>, picks: seq<Candidate>, limit: nat, e: nat, i: nat) {
    forall l :: 0 <= l < LANES ==> Loaned(cands, picks, limit, e, i, l)
  }

  lemma NextLoan(cands: seq<Candidate>, picks: seq<Candidate>, limit: nat, e: nat)
    requires AtLoan(cands, picks, limit, e, LANES)
    ensures AtLoan(cands, picks, limit, e + 1, 0)
  {
    ghost var next := e + 1;
    forall l | 0 <= l < LANES ensures Loaned(cands, picks, limit, next, 0, l) {
      assert Loaned(cands, picks, limit, e, LANES, l);
    }
  }

  lemma LoansAreFair(cands: seq<Candidate>, picks: seq<Candidate>, limit: nat, e: nat, i: nat)
    requires AtLoan(cands, picks, limit, e, i)
    ensures LendsFairly(cands, picks, limit)
  {
    forall a, b | 0 <= a < LANES && 0 <= b < LANES
      ensures Borrowed(cands, picks, a, limit) >= 0
      ensures || Borrowed(cands, picks, a, limit) <= Borrowed(cands, picks, b, limit)
              || |InLane(picks, b)| == |InLane(cands, b)|
              || (Borrowed(cands, picks, a, limit) == Borrowed(cands, picks, b, limit) + 1 && a < b)
    {
      assert Loaned(cands, picks, limit, e, i, a) && Loaned(cands, picks, limit, e, i, b);
      hide Quota, InLane;
    }
  }

  lemma DealtSizes(cands: seq<Candidate>, orders: seq<seq<Candidate>>, rest: seq<seq<Candidate>>, picks: seq<Candidate>)
    requires LaneOrders(cands, orders) && Dealt(orders, rest, picks)
    ensures |cands| == |picks| + |rest[0]| + |rest[1]| + |rest[2]|
    ensures multiset(picks) <= multiset(cands)
    ensures forall l :: 0 <= l < LANES ==>
              && |InLane(picks, l)| + |rest[l]| == |InLane(cands, l)|
              && FairPicks(InLane(cands, l), InLane(picks, l))
  {
    LaneSizes(cands);
    LaneSizes(picks);
    forall c: Candidate ensures multiset(picks)[c] <= multiset(cands)[c] {
      if c in picks {
        LaneElements(picks, c.lane, c);
        LaneElements(cands, c.lane, c);
        assert orders[c.lane] == InLane(picks, c.lane) + rest[c.lane];
      }
    }
    forall l | 0 <= l < LANES ensures FairPicks(InLane(cands, l), InLane(picks, l)) {
      assert orders[l] == InLane(picks, l) + rest[l];
      assert InLane(picks, l) == orders[l][..|InLane(picks, l)|];
    }
  }

  lemma CandidateStep(proxies: seq<Binding>, m: Table, now: int, i: nat)
    requires i < |proxies|
    ensures Candidates(proxies[..i + 1], m, now) ==
            Candidates(proxies[..i], m, now) + (if IsDue(m, proxies[i], now) then [CandidateOf(m, proxies[i])] else [])
  {
    assert proxies[..i + 1][..i] == proxies[..i];
  }

  lemma GroupStep(groups: map<string, seq<Candidate>>, lane: seq<Candidate>, c: Candidate)
    requires Grouped(groups, lane)
    ensures Grouped(Filed(groups, c), lane + [c])
  {
    forall n ensures Named(lane + [c], n) == Named(lane, n) + (if c.proxy.subName == n then [c] else []) {
      Appends(lane, c, 0, n);
    }
  }

  function Filed(groups: map<string, seq<Candidate>>, c: Candidate): map<string, seq<Candidate>> {
    groups[c.proxy.subName := (if c.proxy.subName in groups then groups[c.proxy.subName] else []) + [c]]
  }

  lemma LanesStep(lanes: seq<map<string, seq<Candidate>>>, sofar: seq<Candidate>, c: Candidate)
    requires |lanes| == LANES && c.lane < LANES
    requires forall l :: 0 <= l < LANES ==> Grouped(lanes[l], InLane(sofar, l))
    ensures forall l :: 0 <= l < LANES ==> Grouped(lanes[c.lane := Filed(lanes[c.lane], c)][l], InLane(sofar + [c], l))
  {
    hide Grouped, Filed, InLane;
    var after := lanes[c.lane := Filed(lanes[c.lane], c)];
    GroupStep(lanes[c.lane], InLane(sofar, c.lane), c);
    forall l | 0 <= l < LANES ensures Grouped(after[l], InLane(sofar + [c], l)) {
      Appends(sofar, c, l, "");
      assert l != c.lane ==> after[l] == lanes[l];
    }
  }

  /** Sort the due bindings into lanes and subscriptions. */
  method Classify(proxies: seq<Binding>, m: Table, now: int) returns (lanes: seq<map<string, seq<Candidate>>>)
    ensures |lanes| == LANES
    ensures forall l :: 0 <= l < LANES ==> Grouped(lanes[l], InLane(Candidates(proxies, m, now), l))
  {
    lanes := [map[], map[], map[]];
    for i := 0 to |proxies|
      invariant |lanes| == LANES
      invariant forall l :: 0 <= l < LANES ==> Grouped(lanes[l], InLane(Candidates(proxies[..i], m, now), l))
    {
      var proxy := proxies[i];
      CandidateStep(proxies, m, now, i);
      if IsDue(m, proxy, now) {
        var c := CandidateOf(m, proxy);
        ghost var sofar := Candidates(proxies[..i], m, now);
        LanesStep(lanes, sofar, c);
        assert Candidates(proxies[..i + 1], m, now) == sofar + [c];
        lanes := lanes[c.lane := Filed(lanes[c.lane], c)];
      } else {
        assert Candidates(proxies[..i + 1], m, now) == Candidates(proxies[..i], m, now);
      }
    }
    assert proxies[..|proxies|] == proxies;
  }

  lemma {:induction false} CandidateLanes(proxies: seq<Binding>, m: Table, now: int)
    ensures forall c :: c in Candidates(proxies, m, now) ==> c.lane < LANES && c.proxy in proxies && IsDue(m, c.proxy, now) && c == CandidateOf(m, c.proxy)
  {
    if proxies != [] {
      CandidateLanes(proxies[..|proxies| - 1], m, now);
    }
  }

  method OrderLanes(ghost cands: seq<Candidate>, lanes: seq<map<string, seq<Candidate>>>) returns (ordered: seq<seq<Candidate>>)
    requires |lanes| == LANES && forall l :: 0 <= l < LANES ==> Grouped(lanes[l], InLane(cands, l))
    requires forall i :: 0 <= i < |cands| ==> cands[i].lane < LANES
    ensures LaneOrders(cands, ordered)
  {
    ordered := [];
    for lane := 0 to LANES
      invariant |ordered| == lane
      invariant forall l :: 0 <= l < lane ==> LaneOrder(InLane(cands, l), ordered[l])
    {
      var order := OrderLane(InLane(cands, lane), lanes[lane]);
      ordered := ordered + [order];
    }
  }

  lemma BatchIsFair(cands: seq<Candidate>, orders: seq<seq<Candidate>>, rest: seq<seq<Candidate>>, picks: seq<Candidate>, limit: nat)
    requires LaneOrders(cands, orders) && Dealt(orders, rest, picks) && LendsFairly(cands, picks, limit) && 0 < limit
    requires |picks| <= limit && (|picks| < limit ==> forall l :: 0 <= l < LANES ==> rest[l] == [])
    ensures FairBatch(cands, limit, picks)
  {
    DealtSizes(cands, orders, rest, picks);
  }

  lemma OrdersOwn(cands: seq<Candidate>, orders: seq<seq<Candidate>>)
    requires LaneOrders(cands, orders)
    ensures OwnLanes(orders) && Sized(cands, orders)
  {
    forall l, i | 0 <= l < LANES && 0 <= i < |orders[l]| ensures orders[l][i].lane == l {
      var c := orders[l][i];
      assert LaneOrder(InLane(cands, l), orders[l]);
      SameElements(orders[l], InLane(cands, l));
      assert c in InLane(cands, l);
      LaneElements(cands, l, c);
      assert c in multiset(InLane(cands, l));
    }
    forall l | 0 <= l < LANES ensures |orders[l]| == |InLane(cands, l)| {
      assert LaneOrder(InLane(cands, l), orders[l]);
    }
  }

  /** The first `n` lanes have their reserved places. */
  ghost predicate ReservedUpTo(cands: seq<Candidate>, picks: seq<Candidate>, limit: nat, n: nat) {
    forall l :: 0 <= l < LANES ==> |InLane(picks, l)| == if l < n then Min(Quota(l, limit), |InLane(cands, l)|) else 0
  }

  lemma ReserveOne(cands: seq<Candidate>, orders: seq<seq<Candidate>>, ordered: seq<seq<Candidate>>, picks: seq<Candidate>,
                   limit: nat, lane: nat)
    requires Sized(cands, orders) && Dealt(orders, ordered, picks) && ReservedUpTo(cands, picks, limit, lane) && lane < LANES
    ensures var quota := Min(Quota(lane, limit), |ordered[lane]|);
            && Dealt(orders, ordered[lane := ordered[lane][quota..]], picks + ordered[lane][..quota])
            && ReservedUpTo(cands, picks + ordered[lane][..quota], limit, lane + 1)
  {
    var quota := Min(Quota(lane, limit), |ordered[lane]|);
    LaneLengths(cands, orders, ordered, picks, lane);
    Deal(orders, ordered, picks, lane, quota);
  }

  lemma ReservedWithin(cands: seq<Candidate>, orders: seq<seq<Candidate>>, ordered: seq<seq<Candidate>>, picks: seq<Candidate>, limit: nat)
    requires Dealt(orders, ordered, picks) && ReservedUpTo(cands, picks, limit, LANES)
    ensures |picks| <= limit && AtLoan(cands, picks, limit, 0, 0)
  {
    LaneSizes(picks);
    forall l | 0 <= l < LANES ensures Loaned(cands, picks, limit, 0, 0, l) {
    }
  }

  lemma LaneLengths(cands: seq<Candidate>, orders: seq<seq<Candidate>>, rest: seq<seq<Candidate>>, picks: seq<Candidate>, l: nat)
    requires Sized(cands, orders) && Dealt(orders, rest, picks) && l < LANES
    ensures |InLane(picks, l)| + |rest[l]| == |InLane(cands, l)|
  {
    assert orders[l] == InLane(picks, l) + rest[l];
  }

  /** Every lane gets its reserved places, as far as it can use them. */
  method Reserve(ghost cands: seq<Candidate>, orders: seq<seq<Candidate>>, limit: nat)
    returns (picks: seq<Candidate>, ordered: seq<seq<Candidate>>)
    requires Sized(cands, orders) && OwnLanes(orders)
    ensures Dealt(orders, ordered, picks) && |picks| <= limit
    ensures AtLoan(cands, picks, limit, 0, 0)
  {
    picks := [];
    ordered := orders;
    assert forall l :: 0 <= l < LANES ==> orders[l] == InLane(picks, l) + orders[l];
    for lane := 0 to LANES
      invariant Dealt(orders, ordered, picks) && ReservedUpTo(cands, picks, limit, lane)
    {
      var quota := Min(Quota(lane, limit), |ordered[lane]|);
      ReserveOne(cands, orders, ordered, picks, limit, lane);
      picks := picks + ordered[lane][..quota];
      ordered := ordered[lane := ordered[lane][quota..]];
    }
    ReservedWithin(cands, orders, ordered, picks, limit);
  }

  lemma Lend(cands: seq<Candidate>, orders: seq<seq<Candidate>>, ordered: seq<seq<Candidate>>, picks: seq<Candidate>,
             limit: nat, e: nat, lane: nat)
    requires Sized(cands, orders) && Dealt(orders, ordered, picks) && lane < LANES && ordered[lane] != []
    requires AtLoan(cands, picks, limit, e, lane)
    ensures Dealt(orders, ordered[lane := ordered[lane][1..]], picks + ordered[lane][..1])
    ensures AtLoan(cands, picks + ordered[lane][..1], limit, e, lane + 1)
  {
    LaneLengths(cands, orders, ordered, picks, lane);
    var more, next := picks + ordered[lane][..1], lane + 1;
    Deal(orders, ordered, picks, lane, 1);
    forall l | 0 <= l < LANES ensures Loaned(cands, more, limit, e, next, l) {
      assert Loaned(cands, picks, limit, e, lane, l);
    }
  }

  lemma NoLoan(cands: seq<Candidate>, orders: seq<seq<Candidate>>, ordered: seq<seq<Candidate>>, picks: seq<Candidate>,
               limit: nat, e: nat, lane: nat)
    requires Sized(cands, orders) && Dealt(orders, ordered, picks) && lane < LANES && ordered[lane] == []
    requires AtLoan(cands, picks, limit, e, lane)
    ensures AtLoan(cands, picks, limit, e, lane + 1)
  {
    LaneLengths(cands, orders, ordered, picks, lane);
    var next := lane + 1;
    forall l | 0 <= l < LANES ensures Loaned(cands, picks, limit, e, next, l) {
      assert Loaned(cands, picks, limit, e, lane, l);
    }
  }

  /** One round of loans: every lane that has something left, in turn, while places remain. */
  method LendRound(ghost cands: seq<Candidate>, ghost orders: seq<seq<Candidate>>, before: seq<seq<Candidate>>, taken: seq<Candidate>,
                   limit: nat, ghost e: nat)
    returns (ordered: seq<seq<Candidate>>, picks: seq<Candidate>, added: bool, ghost i: nat)
    requires Sized(cands, orders) && Dealt(orders, before, taken) && |taken| <= limit
    requires AtLoan(cands, taken, limit, e, 0)
    ensures Dealt(orders, ordered, picks) && |taken| <= |picks| <= limit
    ensures AtLoan(cands, picks, limit, e, i) && i <= LANES
    ensures |picks| < limit ==> i == LANES
    ensures added ==> |picks| > |taken|
    ensures !added ==> |picks| == |taken| && (|picks| < limit ==> forall l :: 0 <= l < LANES ==> ordered[l] == [])
  {
    ordered, picks, added, i := before, taken, false, 0;
    for lane := 0 to LANES
      invariant Dealt(orders, ordered, picks) && |taken| <= |picks| <= limit
      invariant AtLoan(cands, picks, limit, e, i) && i <= LANES
      invariant |picks| < limit ==> i == lane
      invariant added ==> |picks| > |taken|
      invariant !added ==> |picks| == |taken| && (|picks| < limit ==> forall l :: 0 <= l < lane ==> ordered[l] == [])
    {
      if |picks| < limit {
        i := lane + 1;
        if ordered[lane] != [] {
          Lend(cands, orders, ordered, picks, limit, e, lane);
          picks := picks + ordered[lane][..1];
          ordered := ordered[lane := ordered[lane][1..]];
          added := true;
        } else {
          NoLoan(cands, orders, ordered, picks, limit, e, lane);
        }
      }
    }
  }

  /** Reserved places first, then unused places in turns. */
  method Fill(ghost cands: seq<Candidate>, orders: seq<seq<Candidate>>, limit: nat)
    returns (picks: seq<Candidate>, ghost rest: seq<seq<Candidate>>)
    requires Sized(cands, orders) && OwnLanes(orders) && limit > 0
    ensures Dealt(orders, rest, picks) && LendsFairly(cands, picks, limit) && |picks| <= limit
    ensures |picks| < limit ==> forall l :: 0 <= l < LANES ==> rest[l] == []
  {
    var ordered;
    picks, ordered := Reserve(cands, orders, limit);
    ghost var e, i := 0, 0;
    var added := true;
    while |picks| < limit && added
      invariant Dealt(orders, ordered, picks) && |picks| <= limit
      invariant AtLoan(cands, picks, limit, e, i)
      invariant |picks| < limit ==> i == 0
      invariant !added && |picks| < limit ==> forall l :: 0 <= l < LANES ==> ordered[l] == []
      decreases limit - |picks|, added
    {
      ordered, picks, added, i := LendRound(cands, orders, ordered, picks, limit, e);
      if |picks| < limit {
        NextLoan(cands, picks, limit, e);
        e, i := e + 1, 0;
      }
    }
    LoansAreFair(cands, picks, limit, e, i);
    rest := ordered;
  }

  /** dueProxies. */
  method DueProxies(proxies: seq<Binding>, m: Table, now: int, limit: int) returns (due: seq<Binding>)
    ensures IsFairBatch(Candidates(proxies, m, now), limit, due)
    ensures ServesFairly(m, now, limit, proxies, due)
  {
    hide FairPicks, ServesFairly;
    if limit <= 0 {
      due := [];
      BatchServesFairly(proxies, m, now, limit, []);
      assert FairBatch(Candidates(proxies, m, now), limit, []) && due == Proxies([]);
      return;
    }
    ghost var cands := Candidates(proxies, m, now);
    CandidateLanes(proxies, m, now);
    var lanes := Classify(proxies, m, now);
    var ordered := OrderLanes(cands, lanes);
    OrdersOwn(cands, ordered);
    var chosen, rest := Fill(cands, ordered, limit);
    BatchIsFair(cands, ordered, rest, chosen, limit);
    due := Proxies(chosen);
    BatchServesFairly(proxies, m, now, limit, chosen);
  }

  // ---- the batch in terms of the records ----

  function LaneFor(w: Work): (lane: nat)
    ensures lane < LANES
  {
    match w case Confirmation => 0 case Recheck => 1 case FirstCheck => 2
  }

  lemma LaneTells(n: Node, w: Work)
    ensures LaneOf(n) == LaneFor(w) <==> Asks(n, w)
  {
  }

  /** The picks are candidates of the table. */
  ghost predicate FromTable(m: Table, now: int, s: seq<Candidate>) {
    forall c :: c in s ==> IsOfTable(m, now, c)
  }

  predicate IsOfTable(m: Table, now: int, c: Candidate) {
    IsDue(m, c.proxy, now) && c == CandidateOf(m, c.proxy)
  }

  lemma WaitingAppend(m: Table, now: int, s: seq<Binding>, p: Binding, w: Work, name: string)
    ensures Waiting(m, now, s + [p], w) == Waiting(m, now, s, w) + (if Waits(m, now, p, w) then 1 else 0)
    ensures WaitingOf(m, now, s + [p], w, name) == WaitingOf(m, now, s, w, name) + (if Waits(m, now, p, w) && p.subName == name then 1 else 0)
  {
    assert (s + [p])[..|s|] == s;
  }

  lemma LaneSizeAppend(s: seq<Candidate>, c: Candidate, lane: nat, name: string)
    ensures |InLane(s + [c], lane)| == |InLane(s, lane)| + (if c.lane == lane then 1 else 0)
    ensures |Named(InLane(s + [c], lane), name)| == |Named(InLane(s, lane), name)| + (if c.lane == lane && c.proxy.subName == name then 1 else 0)
  {
    Appends(s, c, lane, name);
    Appends(InLane(s, lane), c, lane, name);
  }

  /** The candidates counted are the bindings counted. */
  ghost predicate SameCounts(m: Table, now: int, s: seq<Candidate>, ps: seq<Binding>, w: Work, name: string) {
    && |InLane(s, LaneFor(w))| == Waiting(m, now, ps, w)
    && |Named(InLane(s, LaneFor(w)), name)| == WaitingOf(m, now, ps, w, name)
  }

  lemma SameCountsStep(m: Table, now: int, s: seq<Candidate>, ps: seq<Binding>, p: Binding, w: Work, name: string)
    requires SameCounts(m, now, s, ps, w, name)
    ensures IsDue(m, p, now) ==> SameCounts(m, now, s + [CandidateOf(m, p)], ps + [p], w, name)
    ensures !IsDue(m, p, now) ==> SameCounts(m, now, s, ps + [p], w, name)
  {
    WaitingAppend(m, now, ps, p, w, name);
    if IsDue(m, p, now) {
      LaneTells(m[p.logicalID], w);
      LaneSizeAppend(s, CandidateOf(m, p), LaneFor(w), name);
    }
    hide InLane, Named, Waiting, WaitingOf, LaneFor, Asks, LaneOf;
  }

  lemma {:induction false} CountPicks(m: Table, now: int, s: seq<Candidate>, w: Work, name: string)
    requires FromTable(m, now, s)
    ensures SameCounts(m, now, s, Proxies(s), w, name)
  {
    if s != [] {
      var rest, c := s[..|s| - 1], s[|s| - 1];
      assert s == rest + [c] && Proxies(s) == Proxies(rest) + [c.proxy];
      assert IsOfTable(m, now, c);
      hide SameCounts, Proxies;
      CountPicks(m, now, rest, w, name);
      SameCountsStep(m, now, rest, Proxies(rest), c.proxy, w, name);
    }
  }

  lemma {:induction false} CountDue(m: Table, now: int, proxies: seq<Binding>, w: Work, name: string)
    ensures SameCounts(m, now, Candidates(proxies, m, now), proxies, w, name)
  {
    if proxies != [] {
      var rest, p := proxies[..|proxies| - 1], proxies[|proxies| - 1];
      assert proxies == rest + [p];
      hide SameCounts;
      CountDue(m, now, rest, w, name);
      SameCountsStep(m, now, Candidates(rest, m, now), rest, p, w, name);
      assert !IsDue(m, p, now) ==> Candidates(proxies, m, now) == Candidates(rest, m, now);
    }
  }

  lemma {:induction false} PicksAmongProxies(m: Table, now: int, proxies: seq<Binding>, p: Binding)
    ensures IsDue(m, p, now) ==> multiset(Candidates(proxies, m, now))[CandidateOf(m, p)] == multiset(proxies)[p]
  {
    if proxies != [] {
      PicksAmongProxies(m, now, proxies[..|proxies| - 1], p);
      assert proxies == proxies[..|proxies| - 1] + [proxies[|proxies| - 1]];
    }
  }

  lemma {:induction false} ProxiesOfPicks(m: Table, now: int, s: seq<Candidate>, p: Binding)
    requires FromTable(m, now, s)
    ensures if IsDue(m, p, now) then multiset(Proxies(s))[p] == multiset(s)[CandidateOf(m, p)] else multiset(Proxies(s))[p] == 0
  {
    if s != [] {
      var rest, c := s[..|s| - 1], s[|s| - 1];
      assert s == rest + [c];
      assert Proxies(s) == Proxies(rest) + [c.proxy];
      assert IsOfTable(m, now, c);
      ProxiesOfPicks(m, now, rest, p);
    }
  }

  lemma PlacesAreShared(proxies: seq<Binding>, m: Table, now: int, limit: nat, picks: seq<Candidate>)
    requires LendsFairly(Candidates(proxies, m, now), picks, limit) && FromTable(m, now, picks)
    ensures SharesPlaces(m, now, limit, proxies, Proxies(picks))
  {
    var cands := Candidates(proxies, m, now);
    forall w ensures Lent(m, now, limit, proxies, Proxies(picks), w) == Borrowed(cands, picks, LaneFor(w), limit)
      ensures |InLane(picks, LaneFor(w))| == Waiting(m, now, Proxies(picks), w) && |InLane(cands, LaneFor(w))| == Waiting(m, now, proxies, w)
    {
      CountPicks(m, now, picks, w, "");
      CountDue(m, now, proxies, w, "");
      hide InLane, Named, Waiting, WaitingOf, Candidates, FromTable;
    }
    hide Waiting, InLane, Lent, Borrowed, Candidates, FromTable;
    forall w ensures Lent(m, now, limit, proxies, Proxies(picks), w) >= 0 {
      assert Borrowed(cands, picks, LaneFor(w), limit) >= 0;
    }
    forall v, w | v != w && Waiting(m, now, Proxies(picks), w) < Waiting(m, now, proxies, w)
      ensures || Lent(m, now, limit, proxies, Proxies(picks), v) <= Lent(m, now, limit, proxies, Proxies(picks), w)
              || (LentBefore(v, w) && Lent(m, now, limit, proxies, Proxies(picks), v) == Lent(m, now, limit, proxies, Proxies(picks), w) + 1)
    {
      assert |InLane(picks, LaneFor(w))| != |InLane(cands, LaneFor(w))|;
      LoanBetween(cands, picks, limit, LaneFor(v), LaneFor(w));
    }
  }

  lemma LoanBetween(cands: seq<Candidate>, picks: seq<Candidate>, limit: nat, a: nat, b: nat)
    requires LendsFairly(cands, picks, limit) && a < LANES && b < LANES && |InLane(picks, b)| != |InLane(cands, b)|
    ensures || Borrowed(cands, picks, a, limit) <= Borrowed(cands, picks, b, limit)
            || (Borrowed(cands, picks, a, limit) == Borrowed(cands, picks, b, limit) + 1 && a < b)
  {
    hide Borrowed, InLane;
  }

  lemma TurnsAreShared(proxies: seq<Binding>, m: Table, now: int, picks: seq<Candidate>, w: Work)
    requires FromTable(m, now, picks) && TakesTurns(InLane(Candidates(proxies, m, now), LaneFor(w)), InLane(picks, LaneFor(w)))
    ensures SharesTurns(m, now, proxies, Proxies(picks), w)
  {
    var cands := Candidates(proxies, m, now);
    var lane := LaneFor(w);
    forall a, b | WaitingOf(m, now, Proxies(picks), w, b) < WaitingOf(m, now, proxies, w, b)
                  && WaitingOf(m, now, Proxies(picks), w, a) > WaitingOf(m, now, Proxies(picks), w, b)
      ensures WaitingOf(m, now, Proxies(picks), w, a) == WaitingOf(m, now, Proxies(picks), w, b) + 1 && GoesFirst(m, now, proxies, w, a, b)
    {
      CountPicks(m, now, picks, w, a);
      CountPicks(m, now, picks, w, b);
      CountDue(m, now, proxies, w, b);
      hide InLane, Named, WaitingOf, Waiting, TurnBefore, Candidates, FromTable, GoesFirst;
      assert Named(InLane(cands, lane), b) != [];
      TurnGoesFirst(proxies, m, now, w, a, b);
    }
  }

  lemma TurnGoesFirst(proxies: seq<Binding>, m: Table, now: int, w: Work, a: string, b: string)
    requires TurnBefore(InLane(Candidates(proxies, m, now), LaneFor(w)), a, b)
    ensures GoesFirst(m, now, proxies, w, a, b)
  {
    var cands := Candidates(proxies, m, now);
    var g, h := Named(InLane(cands, LaneFor(w)), a), Named(InLane(cands, LaneFor(w)), b);
    OldestIsLeast(g);
    OldestIsLeast(h);
    var c :| c in g && OldestDue(g) == c.due;
    WhereFrom(proxies, m, now, w, a, c);
    forall q | q in proxies && q.subName == b && Waits(m, now, q, w) ensures CandidateOf(m, q) in h {
      PicksAmongProxies(m, now, proxies, q);
      PlaceOf(m, now, cands, proxies, q, w);
      hide InLane, Named, Candidates, Waits, CandidateOf;
      assert CandidateOf(m, q) in multiset(h) <==> q in multiset(proxies);
    }
    hide InLane, Named, Candidates, OldestDue, LaneFor;
    assert EarlierThanAll(m, now, proxies, w, c.proxy, b);
  }

  /** A candidate of a lane and subscription is a binding that waits for that work. */
  lemma WhereFrom(proxies: seq<Binding>, m: Table, now: int, w: Work, name: string, c: Candidate)
    requires c in Named(InLane(Candidates(proxies, m, now), LaneFor(w)), name)
    ensures c.proxy in proxies && c.proxy.subName == name && Waits(m, now, c.proxy, w) && c == CandidateOf(m, c.proxy)
  {
    var cands := Candidates(proxies, m, now);
    var lane := InLane(cands, LaneFor(w));
    NamedElements(lane, name, c);
    LaneElements(cands, LaneFor(w), c);
    CandidateLanes(proxies, m, now);
    assert c in multiset(Named(lane, name)) && c in multiset(cands) && c in cands;
    LaneTells(m[c.proxy.logicalID], w);
  }

  /** A candidate of a lane and subscription occurs there as often as its binding occurs in the set. */
  lemma PlaceOf(m: Table, now: int, s: seq<Candidate>, ps: seq<Binding>, p: Binding, w: Work)
    requires Waits(m, now, p, w) && multiset(s)[CandidateOf(m, p)] == multiset(ps)[p]
    ensures multiset(Named(InLane(s, LaneFor(w)), p.subName))[CandidateOf(m, p)] == multiset(ps)[p]
  {
    LaneTells(m[p.logicalID], w);
    LaneElements(s, LaneFor(w), CandidateOf(m, p));
    NamedElements(InLane(s, LaneFor(w)), p.subName, CandidateOf(m, p));
    hide InLane, Named;
  }

  lemma NotBefore(g: seq<Candidate>, s: seq<Candidate>, x: Candidate, y: Candidate)
    requires IsPick(g, s) && multiset(s)[x] > 0 && multiset(s)[y] == 0 && multiset(g)[y] > 0
    ensures !Before(y, x)
  {
    assert x in s;
    assert y in multiset(g) - multiset(s);
    hide Before;
  }

  lemma OldestAreTaken(proxies: seq<Binding>, m: Table, now: int, picks: seq<Candidate>, w: Work)
    requires FromTable(m, now, picks)
    requires forall name :: IsPick(Named(InLane(Candidates(proxies, m, now), LaneFor(w)), name), Named(InLane(picks, LaneFor(w)), name))
    ensures TakesOldest(m, now, proxies, Proxies(picks), w)
  {
    var cands := Candidates(proxies, m, now);
    var lane := LaneFor(w);
    forall p, q | p in Proxies(picks) && q in proxies && q !in Proxies(picks) && p.subName == q.subName && Waits(m, now, p, w) && Waits(m, now, q, w)
      ensures !Before(CandidateOf(m, q), CandidateOf(m, p))
    {
      ProxiesOfPicks(m, now, picks, p);
      ProxiesOfPicks(m, now, picks, q);
      PicksAmongProxies(m, now, proxies, q);
      PlaceOf(m, now, picks, Proxies(picks), p, w);
      PlaceOf(m, now, picks, Proxies(picks), q, w);
      PlaceOf(m, now, cands, proxies, q, w);
      hide InLane, Named, IsPick, Before, Candidates, CandidateOf, FromTable;
      assert p in multiset(Proxies(picks)) && q in multiset(proxies) && q !in multiset(Proxies(picks));
      NotBefore(Named(InLane(cands, lane), p.subName), Named(InLane(picks, lane), p.subName), CandidateOf(m, p), CandidateOf(m, q));
    }
  }

  lemma DueSizes(proxies: seq<Binding>, m: Table, now: int)
    ensures |Candidates(proxies, m, now)| ==
            Waiting(m, now, proxies, Confirmation) + Waiting(m, now, proxies, Recheck) + Waiting(m, now, proxies, FirstCheck)
  {
    CandidateLanes(proxies, m, now);
    LaneSizes(Candidates(proxies, m, now));
    CountDue(m, now, proxies, Confirmation, "");
    CountDue(m, now, proxies, Recheck, "");
    CountDue(m, now, proxies, FirstCheck, "");
  }

  lemma PicksAreDue(proxies: seq<Binding>, m: Table, now: int, picks: seq<Candidate>)
    requires multiset(picks) <= multiset(Candidates(proxies, m, now))
    ensures FromTable(m, now, picks) && multiset(Proxies(picks)) <= multiset(proxies)
  {
    CandidateLanes(proxies, m, now);
    forall c | c in picks ensures c in Candidates(proxies, m, now) {
      assert c in multiset(picks);
    }
    forall p ensures multiset(Proxies(picks))[p] <= multiset(proxies)[p] {
      ProxiesOfPicks(m, now, picks, p);
      PicksAmongProxies(m, now, proxies, p);
    }
  }

  /** A fair batch is fair to the bindings by what their records ask for. */
  lemma BatchServesFairly(proxies: seq<Binding>, m: Table, now: int, limit: int, picks: seq<Candidate>)
    requires FairBatch(Candidates(proxies, m, now), limit, picks)
    ensures ServesFairly(m, now, limit, proxies, Proxies(picks))
  {
    if limit > 0 {
      PicksAreDue(proxies, m, now, picks);
      PlacesAreShared(proxies, m, now, limit, picks);
      DueSizes(proxies, m, now);
      BatchSize(Candidates(proxies, m, now), limit, picks);
      DueOnly(m, now, picks);
      forall w ensures FairPicks(InLane(Candidates(proxies, m, now), LaneFor(w)), InLane(picks, LaneFor(w))) {
      }
      hide FairBatch, TakesOldest, SharesTurns, SharesPlaces, FromTable, Candidates, InLane, IsPick, TakesTurns, LendsFairly, Waiting;
      forall w ensures TakesOldest(m, now, proxies, Proxies(picks), w) && SharesTurns(m, now, proxies, Proxies(picks), w) {
        assert FairPicks(InLane(Candidates(proxies, m, now), LaneFor(w)), InLane(picks, LaneFor(w)));
        OldestAreTaken(proxies, m, now, picks, w);
        TurnsAreShared(proxies, m, now, picks, w);
      }
    }
  }

  lemma DueOnly(m: Table, now: int, picks: seq<Candidate>)
    requires FromTable(m, now, picks)
    ensures forall p :: p in Proxies(picks) ==> p.logicalID in m && 0 < m[p.logicalID].nextCheck <= now
  {
    forall p | p in Proxies(picks) ensures IsDue(m, p, now) {
      var i :| 0 <= i < |picks| && Proxies(picks)[i] == p;
      assert IsOfTable(m, now, picks[i]);
    }
  }

  lemma BatchSize(cands: seq<Candidate>, limit: nat, picks: seq<Candidate>)
    requires FairBatch(cands, limit, picks) && 0 < limit
    ensures |Proxies(picks)| == Min(limit, |cands|)
  {
  }

  // ---- what the contract means for a caller ----

  lemma {:induction false} CandidatesOfDistinct(proxies: seq<Binding>, m: Table, now: int, c: Candidate)
    ensures multiset(Candidates(proxies, m, now))[c] <= multiset(proxies)[c.proxy]
  {
    if proxies != [] {
      CandidatesOfDistinct(proxies[..|proxies| - 1], m, now, c);
      assert proxies == proxies[..|proxies| - 1] + [proxies[|proxies| - 1]];
    }
  }

  /** A batch over distinct bindings names each at most once, and only due ones. */
  lemma BatchIsDistinct(proxies: seq<Binding>, m: Table, now: int, limit: int, picks: seq<Candidate>)
    requires FairBatch(Candidates(proxies, m, now), limit, picks)
    requires forall p :: multiset(proxies)[p] <= 1
    ensures forall i, j :: 0 <= i < j < |picks| ==> Proxies(picks)[i] != Proxies(picks)[j]
    ensures forall p :: p in Proxies(picks) ==> p in proxies && IsDue(m, p, now)
  {
    var cands := Candidates(proxies, m, now);
    CandidateLanes(proxies, m, now);
    forall i | 0 <= i < |picks| ensures picks[i] in cands {
      assert picks[i] in multiset(picks);
    }
    forall i, j | 0 <= i < j < |picks| ensures Proxies(picks)[i] != Proxies(picks)[j] {
      if picks[i].proxy == picks[j].proxy {
        assert picks[i] in cands && picks[j] in cands;
        assert picks[i] == picks[j];
        assert picks == picks[..i] + [picks[i]] + picks[i + 1..j] + [picks[i]] + picks[j + 1..];
        assert multiset(picks)[picks[i]] >= 2;
        CandidatesOfDistinct(proxies, m, now, picks[i]);
      }
    }
  }

  /** Every lane has a reserved place exactly when the limit is at least four. */
  lemma QuotasPositiveIff(limit: nat)
    ensures (forall lane :: 0 <= lane < LANES ==> Quota(lane, limit) >= 1) <==> limit >= 4
    ensures Quota(0, limit) + Quota(1, limit) + Quota(2, limit) == limit
  {
    assert (forall lane :: 0 <= lane < LANES ==> Quota(lane, limit) >= 1) ==>
        Quota(0, limit) >= 1 && Quota(1, limit) >= 1 && Quota(2, limit) >= 1;
  }

  /** With a limit of at least four, a batch takes an oldest binding of every lane that has one. */
  lemma OldestOfLaneIsPicked(cands: seq<Candidate>, limit: int, picks: seq<Candidate>, c: Candidate) returns (head: Candidate)
    requires limit >= 4 && FairBatch(cands, limit, picks) && c in cands && c.lane < LANES
    ensures head in picks && head.lane == c.lane && head.due <= c.due
  {
    QuotasPositiveIff(limit);
    var lane := c.lane;
    LaneElements(cands, lane, c);
    assert c in multiset(cands) && c in multiset(InLane(cands, lane));
    assert c in InLane(cands, lane);
    assert Borrowed(cands, picks, lane, limit) >= 0;
    assert FairPicks(InLane(cands, lane), InLane(picks, lane));
    head := InLane(picks, lane)[0];
    LaneElements(picks, lane, head);
    assert head in multiset(InLane(picks, lane));
  }

  // ---- bounded wait ----

  /** One scheduler tick: the table it saw, the batch it took, and when and what it recorded. */
  datatype Tick = Tick(table: Table, now: int, picks: seq<Candidate>, results: map<Binding, Result>, recordedAt: int)

  /** The tick took a fair batch, and every binding in it got a newer result. */
  ghost predicate Served(proxies: seq<Binding>, limit: int, t: Tick) {
    && FairBatch(Candidates(proxies, t.table, t.now), limit, t.picks)
    && t.now <= t.recordedAt
    && forall c :: c in t.picks ==> Newer(t.table, c.proxy, t.results)
  }

  function Recorded(t: Tick): Table {
    RecordAll(t.table, Proxies(t.picks), t.results, Scheduled, t.recordedAt)
  }

  /** Until the next tick anything may happen to the records (they may change lane, too),
      except that no deadline is set to `d` or earlier, and that of `id` is left alone. */
  ghost predicate Undisturbed(before: Table, after: Table, d: int, id: string) {
    && (id in before ==> id in after && after[id].nextCheck == before[id].nextCheck)
    && forall l :: l in after && 0 < after[l].nextCheck <= d ==> l in before && before[l].nextCheck == after[l].nextCheck
  }

  /** The bindings due no later than `d`. */
  function DueBy(proxies: seq<Binding>, m: Table, d: int): set<Binding> {
    set p | p in proxies && p.logicalID in m && 0 < m[p.logicalID].nextCheck <= d
  }

  ghost predicate Picked(t: Tick, id: string) {
    exists c :: c in t.picks && c.proxy.logicalID == id
  }

  ghost predicate Ticks(proxies: seq<Binding>, limit: int, d: int, id: string, ts: seq<Tick>) {
    && (forall i :: 0 <= i < |ts| ==> Served(proxies, limit, ts[i]) && d <= ts[i].now)
    && (forall i :: 0 <= i < |ts| - 1 ==> Undisturbed(Recorded(ts[i]), ts[i + 1].table, d, id))
  }

  lemma CandidateIsIn(proxies: seq<Binding>, m: Table, now: int, b: Binding)
    requires b in proxies && IsDue(m, b, now)
    ensures CandidateOf(m, b) in Candidates(proxies, m, now)
  {
    if proxies[|proxies| - 1] != b {
      CandidateIsIn(proxies[..|proxies| - 1], m, now, b);
    }
  }

  lemma ProxyOfPick(picks: seq<Candidate>, c: Candidate)
    requires c in picks
    ensures c.proxy in Proxies(picks)
  {
    var i :| 0 <= i < |picks| && picks[i] == c;
    assert Proxies(picks)[i] == c.proxy;
  }

  lemma DueByMonotone(proxies: seq<Binding>, t: Tick, next: Table, d: int, id: string)
    requires Undisturbed(Recorded(t), next, d, id) && d <= t.now <= t.recordedAt
    requires forall c :: c in t.picks ==> c.proxy.logicalID in t.table
    ensures DueBy(proxies, next, d) <= DueBy(proxies, t.table, d)
  {
    forall p | p in DueBy(proxies, next, d) ensures p in DueBy(proxies, t.table, d) {
      RecordedOnlyPicks(t, p.logicalID);
      RecordAllFrame(t.table, Proxies(t.picks), t.results, Scheduled, t.recordedAt, p.logicalID);
    }
  }

  /** A tick that does not take `b` takes another binding that was due no later, and that
      one is not due by `d` again at the next tick. */
  lemma DueByShrinks(proxies: seq<Binding>, limit: int, b: Binding, t: Tick, next: Table)
    requires limit >= 4 && Served(proxies, limit, t)
    requires b in proxies && b.logicalID in t.table && 0 < t.table[b.logicalID].nextCheck <= t.now
    requires var d := t.table[b.logicalID].nextCheck; Undisturbed(Recorded(t), next, d, b.logicalID)
    requires !Picked(t, b.logicalID)
    ensures var d := t.table[b.logicalID].nextCheck;
            DueBy(proxies, next, d) < DueBy(proxies, t.table, d)
    ensures b.logicalID in next && next[b.logicalID].nextCheck == t.table[b.logicalID].nextCheck
  {
    var d := t.table[b.logicalID].nextCheck;
    var cands := Candidates(proxies, t.table, t.now);
    CandidateIsIn(proxies, t.table, t.now, b);
    CandidateLanes(proxies, t.table, t.now);
    var head := OldestOfLaneIsPicked(cands, limit, t.picks, CandidateOf(t.table, b));
    assert head in multiset(t.picks) && head in multiset(cands) && head in cands;
    var h := head.proxy;
    ProxyOfPick(t.picks, head);
    RecordAllFrame(t.table, Proxies(t.picks), t.results, Scheduled, t.recordedAt, h.logicalID);
    assert h in DueBy(proxies, t.table, d) && h !in DueBy(proxies, next, d);
    forall c | c in t.picks ensures c.proxy.logicalID in t.table {
      assert c in multiset(t.picks) && c in multiset(cands) && c in cands;
    }
    DueByMonotone(proxies, t, next, d, b.logicalID);
    RecordedSame(t, b.logicalID);
  }

  lemma {:induction false} RecordKeys(m: Table, bs: seq<Binding>, results: map<Binding, Result>, reason: CheckReason, now: int, id: string)
    requires forall b :: b in bs ==> b.logicalID != id
    ensures id in RecordAll(m, bs, results, reason, now) <==> id in m
    ensures id in m ==> RecordAll(m, bs, results, reason, now)[id] == m[id]
  {
    if bs != [] {
      var rest := bs[..|bs| - 1];
      assert bs == rest + [bs[|bs| - 1]];
      RecordKeys(m, rest, results, reason, now, id);
    }
  }

  lemma RecordedSame(t: Tick, id: string)
    requires !Picked(t, id) && id in t.table
    ensures id in Recorded(t) && Recorded(t)[id] == t.table[id]
  {
    forall b | b in Proxies(t.picks) ensures b.logicalID != id {
      var i :| 0 <= i < |t.picks| && Proxies(t.picks)[i] == b;
      assert t.picks[i] in t.picks;
    }
    RecordKeys(t.table, Proxies(t.picks), t.results, Scheduled, t.recordedAt, id);
  }

  lemma RecordedOnlyPicks(t: Tick, id: string)
    requires forall c :: c in t.picks ==> c.proxy.logicalID in t.table
    ensures id in Recorded(t) <==> id in t.table
  {
    if !Picked(t, id) {
      forall b | b in Proxies(t.picks) ensures b.logicalID != id {
        var i :| 0 <= i < |t.picks| && Proxies(t.picks)[i] == b;
        assert t.picks[i] in t.picks;
      }
      RecordKeys(t.table, Proxies(t.picks), t.results, Scheduled, t.recordedAt, id);
    } else {
      RecordAllFrame(t.table, Proxies(t.picks), t.results, Scheduled, t.recordedAt, id);
    }
  }

  /** Bounded wait.  A binding due at `d` is taken within as many batches as there were
      bindings due no later than `d` at the start, whatever lanes the bindings move through. */
  lemma {:induction false} BoundedWait(proxies: seq<Binding>, limit: int, b: Binding, ts: seq<Tick>)
    requires limit >= 4 && ts != [] && b in proxies
    requires b.logicalID in ts[0].table && 0 < ts[0].table[b.logicalID].nextCheck <= ts[0].now
    requires var d := ts[0].table[b.logicalID].nextCheck;
             Ticks(proxies, limit, d, b.logicalID, ts) && |ts| >= |DueBy(proxies, ts[0].table, d)|
    ensures var d := ts[0].table[b.logicalID].nextCheck;
            exists i :: 0 <= i < |DueBy(proxies, ts[0].table, d)| && i < |ts| && Picked(ts[i], b.logicalID)
    decreases |ts|
  {
    var d := ts[0].table[b.logicalID].nextCheck;
    var due := DueBy(proxies, ts[0].table, d);
    assert b in due;
    if !Picked(ts[0], b.logicalID) {
      if |ts| == 1 {
        LastTick(proxies, limit, b, ts[0]);
      } else {
        DueByShrinks(proxies, limit, b, ts[0], ts[1].table);
        var later := DueBy(proxies, ts[1].table, d);
        assert due == later + (due - later);
        BoundedWait(proxies, limit, b, ts[1..]);
        var i :| 0 <= i < |later| && i < |ts| - 1 && Picked(ts[1..][i], b.logicalID);
        assert Picked(ts[i + 1], b.logicalID);
      }
    }
  }

  /** When `b` alone is due by its deadline, the next batch takes it. */
  lemma LastTick(proxies: seq<Binding>, limit: int, b: Binding, t: Tick)
    requires limit >= 4 && Served(proxies, limit, t)
    requires b in proxies && b.logicalID in t.table && 0 < t.table[b.logicalID].nextCheck <= t.now
    requires |DueBy(proxies, t.table, t.table[b.logicalID].nextCheck)| <= 1
    ensures Picked(t, b.logicalID)
  {
    var d := t.table[b.logicalID].nextCheck;
    CandidateIsIn(proxies, t.table, t.now, b);
    CandidateLanes(proxies, t.table, t.now);
    var cands := Candidates(proxies, t.table, t.now);
    var head := OldestOfLaneIsPicked(cands, limit, t.picks, CandidateOf(t.table, b));
    assert head in multiset(t.picks) && head in multiset(cands) && head in cands;
    var due := DueBy(proxies, t.table, d);
    assert head.proxy in due && b in due;
    AtMostOne(due, head.proxy, b);
  }

  lemma AtMostOne<T>(s: set<T>, x: T, y: T)
    requires x in s && y in s && |s| <= 1
    ensures x == y
  {
    assert |s - {x}| == |s| - 1;
  }
}
