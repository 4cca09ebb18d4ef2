/** Logical identities of models/proxy_config.go. */
module LogicalIDs {
  import opened Ordering

  /** A hash is never the empty text. */
  type ID = s: string | s != "" witness "0"

  /** A subscription entry.  Only its logical identity is assigned after it has been parsed:
      `revision` is the hash of its connection, `base` the one of its display data, and
      `place` orders the entries that share a base. */
  class Proxy {
    const revision: string
    const name: string
    const subName: string
    const groupName: string
    const labels: seq<(string, string)>
    const base: ID
    const place: string
    var logicalID: string
  }

  /** The identity tried after `n` collisions; the first is the base itself. */
  datatype Suffixes = Suffixes(hash: (ID, nat) -> ID) {
    function Nth(base: ID, n: nat): (id: string)
      ensures id != ""
    {
      if n == 0 then base else hash(base, n)
    }

    /** The hash does not repeat itself among the first `bound` identities of a base. */
    ghost predicate Injective(bound: nat) {
      forall base: ID :: InjectiveOn(base, bound)
    }

    ghost predicate InjectiveOn(base: ID, bound: nat) {
      forall i: nat, j: nat :: i < j < bound ==> Nth(base, i) != Nth(base, j)
    }
  }

  ghost predicate Distinct<T>(s: seq<T>) {
    forall i, j :: 0 <= i < j < |s| ==> s[i] != s[j]
  }

  function Range(s: Suffixes, base: ID, n: nat): set<string> {
    set i | 0 <= i < n :: s.Nth(base, i)
  }

  /** Pigeonhole: the first `n` identities of a base are `n` identities. */
  lemma {:induction false} RangeSize(s: Suffixes, base: ID, n: nat, bound: nat)
    requires s.Injective(bound) && n <= bound
    ensures |Range(s, base, n)| == n
  {
    assert s.InjectiveOn(base, bound);
    if n > 0 {
      RangeSize(s, base, n - 1, bound);
      assert Range(s, base, n) == Range(s, base, n - 1) + {s.Nth(base, n - 1)};
      assert forall i: nat :: i < n - 1 ==> s.Nth(base, i) != s.Nth(base, n - 1);
      assert s.Nth(base, n - 1) !in Range(s, base, n - 1);
    }
  }

  lemma Subset<T>(a: set<T>, b: set<T>)
    requires a <= b
    ensures |a| <= |b|
  {
    assert b == a + (b - a);
  }

  /** If every one of the first `n` identities is taken, at least `n` are. */
  lemma TakenBound(s: Suffixes, base: ID, n: nat, used: set<string>, bound: nat)
    requires s.Injective(bound) && n <= bound && Range(s, base, n) <= used
    ensures n <= |used|
  {
    RangeSize(s, base, n, bound);
    Subset(Range(s, base, n), used);
  }

  function With(s: seq<Proxy>, base: ID): seq<Proxy> {
    if s == [] then []
    else With(s[..|s| - 1], base) + (if s[|s| - 1].base == base then [s[|s| - 1]] else [])
  }

  lemma {:induction false} WithMembers(s: seq<Proxy>, base: ID)
    ensures forall p :: p in With(s, base) <==> p in s && p.base == base
    ensures Distinct(s) ==> Distinct(With(s, base))
  {
    if s != [] {
      WithMembers(s[..|s| - 1], base);
      assert s == s[..|s| - 1] + [s[|s| - 1]];
    }
  }

  predicate PlacedBefore(p: Proxy, q: Proxy) { Less(p.place, q.place) }

  lemma PlaceIsOrder(s: seq<Proxy>)
    ensures WeakOrderOn(s, PlacedBefore)
  {
    forall x: Proxy, y: Proxy | PlacedBefore(x, y) ensures !PlacedBefore(y, x) {
      LessAsymmetric(x.place, y.place);
    }
    forall x: Proxy, y: Proxy, z: Proxy | !PlacedBefore(y, x) && !PlacedBefore(z, y) ensures !PlacedBefore(z, x) {
      NotLessTransitive(x.place, y.place, z.place);
    }
  }

  lemma DistinctElements<T>(a: seq<T>, b: seq<T>)
    requires multiset(a) == multiset(b) && Distinct(a)
    ensures Distinct(b)
  {
    forall i, j | 0 <= i < j < |b| ensures b[i] != b[j] {
      if b[i] == b[j] {
        assert b == b[..j] + [b[j]] + b[j + 1..];
        assert b[i] in b[..j];
        assert multiset(b)[b[j]] >= 2;
        DistinctOnce(a, b[j]);
      }
    }
  }

  lemma {:induction false} DistinctOnce<T>(a: seq<T>, x: T)
    requires Distinct(a)
    ensures multiset(a)[x] <= 1
  {
    if a != [] {
      var rest := a[..|a| - 1];
      DistinctOnce(rest, x);
      assert a == rest + [a[|a| - 1]];
      if x == a[|a| - 1] {
        assert x !in rest;
      }
    }
  }

  /** The inner loop: the first identity from the `from`th on that is not taken. */
  method NextFree(s: Suffixes, base: ID, used: set<string>, from: nat) returns (n: nat)
    requires s.Injective(|used| + 1) && Range(s, base, from) <= used && from <= |used|
    ensures from <= n <= |used| && s.Nth(base, n) !in used && Range(s, base, n) <= used
  {
    n := from;
    TakenBound(s, base, n, used, |used| + 1);
    while s.Nth(base, n) in used
      invariant from <= n <= |used| && Range(s, base, n) <= used
      decreases |used| - n
    {
      n := n + 1;
      assert Range(s, base, n) == Range(s, base, n - 1) + {s.Nth(base, n - 1)};
      TakenBound(s, base, n, used, |used| + 1);
    }
  }

  lemma InjectiveBelow(s: Suffixes, bound: nat, less: nat)
    requires s.Injective(bound) && less <= bound
    ensures s.Injective(less)
  {
    forall base: ID ensures s.InjectiveOn(base, less) {
      assert s.InjectiveOn(base, bound);
    }
  }

  type Names = map<Proxy, string>

  /** The entry `p` got the `nth[p]`th identity of its base, and nobody else has it. */
  ghost predicate SuffixedAt(s: Suffixes, ids: Names, nth: map<Proxy, nat>, bound: nat, p: Proxy) {
    p in ids && p in nth && nth[p] < bound && ids[p] == s.Nth(p.base, nth[p]) && forall q :: q in ids && q != p ==> ids[q] != ids[p]
  }

  ghost predicate Carried(ids: Names, x: string) {
    exists p :: p in ids && ids[p] == x
  }

  /** Every earlier identity of its base is carried by an entry. */
  ghost predicate FirstFree(s: Suffixes, ids: Names, nth: map<Proxy, nat>, p: Proxy) {
    p in nth && forall m: nat :: m < nth[p] ==> Carried(ids, s.Nth(p.base, m))
  }

  /** Among the entries of a base, the one that is placed first got the earlier identity. */
  ghost predicate OrderedAt(nth: map<Proxy, nat>, p: Proxy, q: Proxy) {
    p in nth && q in nth && p.base == q.base && PlacedBefore(p, q) ==> nth[p] < nth[q]
  }

  /** Of the entries in `ids`, those in `nth` have been given an identity; the others kept theirs. */
  ghost predicate Settled(s: Suffixes, presets: Names, ids: Names, nth: map<Proxy, nat>, bound: nat) {
    && ids.Keys == presets.Keys + nth.Keys && presets.Keys !! nth.Keys
    && (forall p :: p in presets ==> ids[p] == presets[p])
    && (forall p :: p in nth ==> SuffixedAt(s, ids, nth, bound, p))
    && (forall p :: p in nth ==> FirstFree(s, ids, nth, p))
    && (forall p, q :: p in nth && q in nth ==> OrderedAt(nth, p, q))
  }

  lemma CarriedKept(ids: Names, p: Proxy, x: string, y: string)
    requires p !in ids
    ensures Carried(ids, y) || x == y ==> Carried(ids[p := x], y)
  {
    if Carried(ids, y) {
      var q :| q in ids && ids[q] == y;
      assert ids[p := x][q] == y;
    } else if x == y {
      assert ids[p := x][p] == y;
    }
  }

  lemma FirstFreeStep(s: Suffixes, ids: Names, nth: map<Proxy, nat>, p: Proxy, n: nat, ids': Names, nth': map<Proxy, nat>)
    requires p !in ids && (forall q :: q in nth ==> FirstFree(s, ids, nth, q)) && forall m: nat :: m < n ==> Carried(ids, s.Nth(p.base, m))
    requires ids' == ids[p := s.Nth(p.base, n)] && nth' == nth[p := n]
    ensures forall q :: q in nth' ==> FirstFree(s, ids', nth', q)
  {
    forall q | q in nth' ensures FirstFree(s, ids', nth', q) {
      forall m: nat | m < nth'[q] ensures Carried(ids', s.Nth(q.base, m)) {
        assert q != p ==> FirstFree(s, ids, nth, q);
        CarriedKept(ids, p, s.Nth(p.base, n), s.Nth(q.base, m));
      }
    }
  }

  lemma SettledStep(s: Suffixes, presets: Names, ids: Names, nth: map<Proxy, nat>, bound: nat, p: Proxy, n: nat)
    requires Settled(s, presets, ids, nth, bound)
    requires p !in ids && n < bound && forall q :: q in ids ==> ids[q] != s.Nth(p.base, n)
    requires forall m: nat :: m < n ==> Carried(ids, s.Nth(p.base, m))
    requires forall q :: q in nth && q.base == p.base ==> nth[q] < n && !PlacedBefore(p, q)
    ensures Settled(s, presets, ids[p := s.Nth(p.base, n)], nth[p := n], bound)
  {
    var ids', nth' := ids[p := s.Nth(p.base, n)], nth[p := n];
    FirstFreeStep(s, ids, nth, p, n, ids', nth');
    hide FirstFree, Carried;
    forall q | q in nth' ensures SuffixedAt(s, ids', nth', bound, q) {
      assert q in nth ==> SuffixedAt(s, ids, nth, bound, q);
    }
    forall q, r | q in nth' && r in nth' ensures OrderedAt(nth', q, r) {
      assert q in nth && r in nth ==> OrderedAt(nth, q, r);
      PlacedAsymmetric(q, r);
    }
  }

  lemma PlacedAsymmetric(p: Proxy, q: Proxy)
    ensures PlacedBefore(p, q) ==> !PlacedBefore(q, p)
  {
    if PlacedBefore(p, q) {
      LessAsymmetric(p.place, q.place);
    }
  }

  ghost predicate Tallied(ids: Names, used: set<string>) {
    (forall p :: p in ids ==> ids[p] in used) && (forall x :: x in used ==> Carried(ids, x)) && |used| <= |ids|
  }

  lemma TalliedStep(ids: Names, used: set<string>, p: Proxy, x: string)
    requires Tallied(ids, used) && p !in ids
    ensures Tallied(ids[p := x], used + {x}) && |ids[p := x]| == |ids| + 1
  {
    var ids' := ids[p := x];
    assert ids'.Keys == ids.Keys + {p};
    forall y | y in used + {x} ensures Carried(ids', y) {
      CarriedKept(ids, p, x, y);
    }
  }

  /** Every identity of the base before the `next`th is taken. */
  ghost predicate Probed(s: Suffixes, base: ID, used: set<string>, next: nat) {
    next <= |used| && Range(s, base, next) <= used
  }

  lemma ProbedStep(s: Suffixes, base: ID, used: set<string>, n: nat)
    requires n <= |used| && Range(s, base, n) <= used && s.Nth(base, n) !in used
    ensures Probed(s, base, used + {s.Nth(base, n)}, n + 1)
  {
    assert Range(s, base, n + 1) == Range(s, base, n) + {s.Nth(base, n)};
  }

  /** Of the entries of the base, the first `k` of the group have an identity before the `next`th. */
  ghost predicate Ahead(group: seq<Proxy>, k: nat, base: ID, ids: Names, nth: map<Proxy, nat>, next: nat) {
    && (forall q :: q in nth && q.base == base ==> nth[q] < next && exists i :: 0 <= i < k <= |group| && group[i] == q)
    && (forall i :: k <= i < |group| ==> group[i] !in ids)
  }

  lemma AheadStep(group: seq<Proxy>, k: nat, base: ID, ids: Names, nth: map<Proxy, nat>, next: nat, n: nat, x: string)
    requires Ahead(group, k, base, ids, nth, next) && k < |group| && Distinct(group) && next <= n
    ensures Ahead(group, k + 1, base, ids[group[k] := x], nth[group[k] := n], n + 1)
  {
  }

  /** The entries of `ids` carry those identities. */
  ghost predicate Carries(ids: Names)
    reads ids.Keys
  {
    forall p :: p in ids ==> p.logicalID == ids[p]
  }

  /** The entries with a new identity: those of `given` and the first `k` of the group. */
  ghost predicate GivenTo(given: map<Proxy, nat>, group: seq<Proxy>, k: nat, nth: map<Proxy, nat>)
    requires k <= |group|
  {
    nth.Keys == given.Keys + Elements(group[..k])
  }

  lemma GivenStep(given: map<Proxy, nat>, group: seq<Proxy>, k: nat, nth: map<Proxy, nat>, n: nat)
    requires k < |group| && GivenTo(given, group, k, nth)
    ensures GivenTo(given, group, k + 1, nth[group[k] := n])
  {
    assert group[..k + 1] == group[..k] + [group[k]];
    assert Elements(group[..k + 1]) == Elements(group[..k]) + {group[k]};
  }

  /** FillGroup with `k` entries of the group behind it. */
  ghost predicate FilledTo(s: Suffixes, base: ID, group: seq<Proxy>, k: nat, used: set<string>, next: nat, presets: Names,
                           ids: Names, given: map<Proxy, nat>, nth: map<Proxy, nat>, bound: nat)
  {
    && Settled(s, presets, ids, nth, bound) && Tallied(ids, used) && Probed(s, base, used, next)
    && k <= |group| && Ahead(group, k, base, ids, nth, next) && GivenTo(given, group, k, nth) && |ids| + |group| - k <= bound
  }

  lemma FilledStep(s: Suffixes, base: ID, group: seq<Proxy>, k: nat, used: set<string>, next: nat, presets: Names,
                   ids: Names, given: map<Proxy, nat>, nth: map<Proxy, nat>, bound: nat, n: nat)
    requires FilledTo(s, base, group, k, used, next, presets, ids, given, nth, bound) && k < |group| && next <= n <= |used|
    requires Distinct(group) && Sorted(group, PlacedBefore) && group[k].base == base
    requires s.Nth(base, n) !in used && Range(s, base, n) <= used
    ensures FilledTo(s, base, group, k + 1, used + {s.Nth(base, n)}, n + 1, presets, ids[group[k] := s.Nth(base, n)],
                     given, nth[group[k] := n], bound)
  {
    forall m: nat | m < n ensures Carried(ids, s.Nth(base, m)) {
      assert s.Nth(base, m) in Range(s, base, n);
    }
    hide FirstFree, Carried;
    SettledStep(s, presets, ids, nth, bound, group[k], n);
    TalliedStep(ids, used, group[k], s.Nth(base, n));
    ProbedStep(s, base, used, n);
    AheadStep(group, k, base, ids, nth, next, n, s.Nth(base, n));
    GivenStep(given, group, k, nth, n);
  }

  lemma ReadyToProbe(s: Suffixes, base: ID, group: seq<Proxy>, k: nat, used: set<string>, next: nat, presets: Names,
                     ids: Names, given: map<Proxy, nat>, nth: map<Proxy, nat>, bound: nat)
    requires FilledTo(s, base, group, k, used, next, presets, ids, given, nth, bound) && k < |group| && s.Injective(bound)
    ensures next <= |used| && Range(s, base, next) <= used && s.Injective(|used| + 1) && group[k] !in ids
  {
    hide Settled, GivenTo, Range, Suffixes.Injective;
    assert |used| + 1 <= bound by {
      hide Ahead, Probed;
    }
    InjectiveBelow(s, bound, |used| + 1);
  }

  method Name(p: Proxy, id: string, ghost ids: Names)
    requires p !in ids && Carries(ids)
    modifies p
    ensures Carries(ids[p := id])
  {
    p.logicalID := id;
  }

  /** One turn of the loop over a group. */
  method FillOne(s: Suffixes, base: ID, group: seq<Proxy>, k: nat, used: set<string>, next: nat, ghost presets: Names,
                 ghost ids: Names, ghost given: map<Proxy, nat>, ghost nth: map<Proxy, nat>, ghost bound: nat)
    returns (used': set<string>, next': nat, ghost ids': Names, ghost nth': map<Proxy, nat>)
    requires k < |group| && Distinct(group) && Sorted(group, PlacedBefore) && s.Injective(bound) && group[k].base == base
    requires FilledTo(s, base, group, k, used, next, presets, ids, given, nth, bound) && Carries(ids)
    modifies group[k]
    ensures FilledTo(s, base, group, k + 1, used', next', presets, ids', given, nth', bound) && Carries(ids')
  {
    hide *;
    ReadyToProbe(s, base, group, k, used, next, presets, ids, given, nth, bound);
    var n := NextFree(s, base, used, next);
    FilledStep(s, base, group, k, used, next, presets, ids, given, nth, bound, n);
    Name(group[k], s.Nth(base, n), ids);
    used' := used + {s.Nth(base, n)};
    next' := n + 1;
    ids' := ids[group[k] := s.Nth(base, n)];
    nth' := nth[group[k] := n];
  }

  /** The loop over one group, already sorted. */
  method FillGroup(s: Suffixes, base: ID, group: seq<Proxy>, taken: set<string>, ghost presets: Names, ghost before: Names,
                   ghost given: map<Proxy, nat>, ghost bound: nat)
    returns (used: set<string>, ghost next: nat, ghost ids: Names, ghost nth: map<Proxy, nat>)
    requires Distinct(group) && Sorted(group, PlacedBefore) && s.Injective(bound) && forall p :: p in group ==> p.base == base
    requires FilledTo(s, base, group, 0, taken, 0, presets, before, given, given, bound) && Carries(before)
    modifies group
    ensures FilledTo(s, base, group, |group|, used, next, presets, ids, given, nth, bound) && Carries(ids)
  {
    hide FilledTo;
    var nextSuffix := 0;
    used, ids, nth := taken, before, given;
    for k := 0 to |group|
      invariant FilledTo(s, base, group, k, used, nextSuffix, presets, ids, given, nth, bound) && Carries(ids)
    {
      used, nextSuffix, ids, nth := FillOne(s, base, group, k, used, nextSuffix, presets, ids, given, nth, bound);
    }
    next := nextSuffix;
  }

  // ---- AssignLogicalIDs ----

  function Elements<T>(s: seq<T>): set<T> {
    set x | x in s
  }

  lemma {:induction false} ElementCount<T>(s: seq<T>)
    requires Distinct(s)
    ensures |Elements(s)| == |s|
  {
    if s != [] {
      ElementCount(s[..|s| - 1]);
      assert s == s[..|s| - 1] + [s[|s| - 1]];
      assert Elements(s) == Elements(s[..|s| - 1]) + {s[|s| - 1]};
    }
  }

  /** `groups` files the entries of `s` under their bases. */
  ghost predicate Grouped(groups: map<ID, seq<Proxy>>, s: seq<Proxy>) {
    && (forall p :: p in s ==> p.base in groups)
    && (forall b :: b in groups ==> groups[b] == With(s, b))
  }

  lemma GroupedStep(groups: map<ID, seq<Proxy>>, s: seq<Proxy>, p: Proxy)
    requires Grouped(groups, s)
    ensures Grouped(groups[p.base := (if p.base in groups then groups[p.base] else []) + [p]], s + [p])
  {
    var groups' := groups[p.base := (if p.base in groups then groups[p.base] else []) + [p]];
    assert (s + [p])[..|s|] == s && (s + [p])[|s|] == p;
    if p.base !in groups {
      NoneWith(s, p.base);
    }
    forall b | b in groups' ensures groups'[b] == With(s + [p], b) {
      assert With(s + [p], b) == With(s, b) + (if p.base == b then [p] else []);
    }
  }

  lemma {:induction false} NoneWith(s: seq<Proxy>, base: ID)
    requires forall p :: p in s ==> p.base != base
    ensures With(s, base) == []
  {
    if s != [] {
      NoneWith(s[..|s| - 1], base);
    }
  }

  /** Which of the first `k` entries have an identity, and which do not. */
  ghost predicate Parted(proxies: seq<Proxy>, k: nat, presets: Names, missing: seq<Proxy>)
    requires k <= |proxies|
    reads proxies
  {
    && presets.Keys + Elements(missing) == Elements(proxies[..k])
    && Distinct(missing)
    && (forall p :: p in presets ==> p in proxies && p.logicalID == presets[p] != "")
    && (forall p :: p in missing ==> p in proxies && p.logicalID == "")
  }

  lemma PartedStep(proxies: seq<Proxy>, k: nat, presets: Names, missing: seq<Proxy>)
    requires k < |proxies| && Distinct(proxies) && Parted(proxies, k, presets, missing)
    ensures proxies[k] !in presets
    ensures proxies[k].logicalID != "" ==> Parted(proxies, k + 1, presets[proxies[k] := proxies[k].logicalID], missing)
    ensures proxies[k].logicalID == "" ==> Parted(proxies, k + 1, presets, missing + [proxies[k]])
  {
    var p := proxies[k];
    assert p !in proxies[..k];
    assert p !in Elements(proxies[..k]);
    assert proxies[..k + 1] == proxies[..k] + [p];
    assert Elements(proxies[..k + 1]) == Elements(proxies[..k]) + {p};
    assert presets[p := p.logicalID].Keys == presets.Keys + {p};
    assert Elements(missing + [p]) == Elements(missing) + {p};
  }

  /** The first loop. */
  method Group(proxies: seq<Proxy>) returns (groups: map<ID, seq<Proxy>>, used: set<string>, ghost presets: Names, ghost missing: seq<Proxy>)
    requires Distinct(proxies)
    ensures Grouped(groups, missing) && Tallied(presets, used)
    ensures Parted(proxies, |proxies|, presets, missing)
  {
    groups, used, presets, missing := map[], {}, map[], [];
    assert Grouped(groups, missing) && Tallied(presets, used) && Parted(proxies, 0, presets, missing);
    hide Parted, Grouped, Tallied;
    for i := 0 to |proxies|
      invariant Grouped(groups, missing) && Tallied(presets, used)
      invariant Parted(proxies, i, presets, missing)
    {
      var proxy := proxies[i];
      PartedStep(proxies, i, presets, missing);
      if proxy.logicalID != "" {
        TalliedStep(presets, used, proxy, proxy.logicalID);
        used := used + {proxy.logicalID};
        presets := presets[proxy := proxy.logicalID];
      } else {
        GroupedStep(groups, missing, proxy);
        groups := groups[proxy.base := (if proxy.base in groups then groups[proxy.base] else []) + [proxy]];
        missing := missing + [proxy];
      }
    }
  }

  /** The second loop with the bases of `pending` still ahead. */
  ghost predicate AssignedTo(s: Suffixes, proxies: seq<Proxy>, missing: seq<Proxy>, pending: set<ID>, used: set<string>, presets: Names,
                             ids: Names, nth: map<Proxy, nat>)
  {
    && Settled(s, presets, ids, nth, |proxies|) && Tallied(ids, used)
    && Elements(proxies) == presets.Keys + Elements(missing)
    && nth.Keys == set p | p in missing && p.base !in pending
  }

  /** A sorted group holds the nameless entries of its base, each once. */
  lemma GroupMembers(missing: seq<Proxy>, base: ID, group: seq<Proxy>)
    requires Distinct(missing) && multiset(group) == multiset(With(missing, base))
    ensures Distinct(group) && Elements(group) == set p | p in missing && p.base == base
  {
    WithMembers(missing, base);
    DistinctElements(With(missing, base), group);
    SameElements(group, With(missing, base));
  }

  lemma RoomForGroup(proxies: seq<Proxy>, ids: set<Proxy>, group: seq<Proxy>)
    requires Distinct(group) && Distinct(proxies) && ids !! Elements(group) && ids + Elements(group) <= Elements(proxies)
    ensures |ids| + |group| <= |proxies|
  {
    ElementCount(group);
    ElementCount(proxies);
    Subset(ids + Elements(group), Elements(proxies));
    assert |ids + Elements(group)| == |ids| + |Elements(group)|;
  }

  lemma StartFilling(s: Suffixes, base: ID, group: seq<Proxy>, used: set<string>, presets: Names, ids: Names, nth: map<Proxy, nat>, bound: nat)
    requires Settled(s, presets, ids, nth, bound) && Tallied(ids, used) && |ids| + |group| <= bound
    requires ids.Keys !! Elements(group) && forall p :: p in nth ==> p.base != base
    ensures FilledTo(s, base, group, 0, used, 0, presets, ids, nth, nth, bound)
  {
    hide Settled, Tallied;
    assert Range(s, base, 0) == {};
    assert Elements(group[..0]) == {};
    assert forall i :: 0 <= i < |group| ==> group[i] in Elements(group);
  }

  lemma GroupIsNew(proxies: seq<Proxy>, missing: seq<Proxy>, pending: set<ID>, presets: set<Proxy>, nth: set<Proxy>, base: ID, group: seq<Proxy>)
    requires Distinct(proxies) && Distinct(missing) && multiset(group) == multiset(With(missing, base)) && base in pending
    requires Elements(proxies) == presets + Elements(missing) && presets !! Elements(missing)
    requires nth == set p | p in missing && p.base !in pending
    ensures Distinct(group) && (forall p :: p in group ==> p.base == base && p in proxies) && (forall p :: p in nth ==> p.base != base)
    ensures (presets + nth) !! Elements(group) && |presets + nth| + |group| <= |proxies|
  {
    GroupMembers(missing, base, group);
    assert forall p :: p in group ==> p in Elements(group);
    assert forall p :: p in Elements(group) ==> p in Elements(missing) && p in Elements(proxies);
    RoomForGroup(proxies, presets + nth, group);
  }

  lemma StartGroup(s: Suffixes, proxies: seq<Proxy>, missing: seq<Proxy>, pending: set<ID>, used: set<string>, presets: Names,
                   ids: Names, nth: map<Proxy, nat>, base: ID, group: seq<Proxy>)
    requires AssignedTo(s, proxies, missing, pending, used, presets, ids, nth) && base in pending && presets.Keys !! Elements(missing)
    requires Distinct(proxies) && Distinct(missing) && multiset(group) == multiset(With(missing, base))
    ensures Distinct(group) && forall p :: p in group ==> p.base == base && p in proxies
    ensures FilledTo(s, base, group, 0, used, 0, presets, ids, nth, nth, |proxies|)
  {
    assert ids.Keys == presets.Keys + nth.Keys;
    hide Settled, Tallied, Distinct, FilledTo, With;
    GroupIsNew(proxies, missing, pending, presets.Keys, nth.Keys, base, group);
    StartFilling(s, base, group, used, presets, ids, nth, |proxies|);
  }

  lemma EndGroup(s: Suffixes, proxies: seq<Proxy>, missing: seq<Proxy>, pending: set<ID>, used: set<string>, presets: Names,
                 ids: Names, given: map<Proxy, nat>, nth: map<Proxy, nat>, base: ID, group: seq<Proxy>, used0: set<string>, ids0: Names, next: nat)
    requires AssignedTo(s, proxies, missing, pending, used0, presets, ids0, given) && base in pending
    requires Distinct(missing) && multiset(group) == multiset(With(missing, base))
    requires FilledTo(s, base, group, |group|, used, next, presets, ids, given, nth, |proxies|)
    ensures AssignedTo(s, proxies, missing, pending - {base}, used, presets, ids, nth)
  {
    hide Settled, Tallied, Ahead, Probed, Distinct, With, GivenTo, Elements;
    GroupMembers(missing, base, group);
    GroupGiven(missing, pending, given, nth, base, group);
  }

  lemma GroupGiven(missing: seq<Proxy>, pending: set<ID>, given: map<Proxy, nat>, nth: map<Proxy, nat>, base: ID, group: seq<Proxy>)
    requires given.Keys == (set p | p in missing && p.base !in pending) && Elements(group) == (set p | p in missing && p.base == base)
    requires base in pending && GivenTo(given, group, |group|, nth)
    ensures nth.Keys == set p | p in missing && p.base !in pending - {base}
  {
    assert group[..|group|] == group;
    assert nth.Keys == given.Keys + Elements(group);
  }

  /** The identities that are not empty. */
  function Presets(names: Names): Names {
    map p | p in names && names[p] != "" :: names[p]
  }

  /** `names` are the identities of the entries of `s`. */
  ghost predicate NamesOf(names: Names, s: seq<Proxy>)
    reads names.Keys
  {
    Carries(names) && names.Keys == Elements(s)
  }

  /** AssignLogicalIDs: presets stay, everyone else gets the first free identity of its base.
      `before` and `ids` are the identities before and after. */
  method AssignLogicalIDs(s: Suffixes, proxies: seq<Proxy>, ghost before: Names) returns (ghost ids: Names, ghost nth: map<Proxy, nat>)
    requires Distinct(proxies) && s.Injective(|proxies|) && NamesOf(before, proxies)
    modifies proxies
    ensures NamesOf(ids, proxies)
    ensures Settled(s, Presets(before), ids, nth, |proxies|)
  {
    hide Tallied, Settled, AssignedTo, FilledTo, Carries;
    var groups, used;
    ghost var presets, missing;
    groups, used, presets, missing := Group(proxies);
    StartBases(s, proxies, before, groups, used, presets, missing);
    ids := presets;
    nth := map[];
    var pending := groups.Keys;
    while pending != {}
      invariant pending <= groups.Keys
      invariant AssignedTo(s, proxies, missing, pending, used, presets, ids, nth)
      invariant Carries(ids)
      decreases pending
    {
      var base :| base in pending;
      PlaceIsOrder(groups[base]);
      var group := Sort(groups[base], PlacedBefore);
      StartGroup(s, proxies, missing, pending, used, presets, ids, nth, base, group);
      assert forall i :: 0 <= i < |group| ==> group[i] in proxies;
      ghost var used0, ids0, given, next := used, ids, nth, 0;
      used, next, ids, nth := FillGroup(s, base, group, used, presets, ids, nth, |proxies|);
      EndGroup(s, proxies, missing, pending, used, presets, ids, given, nth, base, group, used0, ids0, next);
      pending := pending - {base};
    }
    EndBases(s, proxies, missing, used, presets, ids, nth);
  }

  lemma PartedPresets(proxies: seq<Proxy>, before: Names, presets: Names, missing: seq<Proxy>)
    requires Parted(proxies, |proxies|, presets, missing) && NamesOf(before, proxies)
    ensures Elements(proxies) == presets.Keys + Elements(missing)
    ensures Carries(presets) && presets == Presets(before) && presets.Keys !! Elements(missing) && Distinct(missing)
  {
    assert proxies[..|proxies|] == proxies;
    forall p | p in before ensures p in presets <==> before[p] != "" {
      assert p in Elements(proxies);
    }
    forall p | p in presets ensures p in before && before[p] == presets[p] {
      assert p in Elements(proxies);
    }
    assert presets == Presets(before);
  }

  lemma StartBases(s: Suffixes, proxies: seq<Proxy>, before: Names, groups: map<ID, seq<Proxy>>, used: set<string>, presets: Names, missing: seq<Proxy>)
    requires Grouped(groups, missing) && Tallied(presets, used) && Parted(proxies, |proxies|, presets, missing) && NamesOf(before, proxies)
    ensures AssignedTo(s, proxies, missing, groups.Keys, used, presets, presets, map[])
    ensures Carries(presets) && presets == Presets(before) && presets.Keys !! Elements(missing) && Distinct(missing)
  {
    hide Tallied, Parted, Presets, Carries, Distinct, NamesOf;
    PartedPresets(proxies, before, presets, missing);
  }

  lemma EndBases(s: Suffixes, proxies: seq<Proxy>, missing: seq<Proxy>, used: set<string>, presets: Names, ids: Names, nth: map<Proxy, nat>)
    requires AssignedTo(s, proxies, missing, {}, used, presets, ids, nth)
    ensures Settled(s, presets, ids, nth, |proxies|) && ids.Keys == Elements(proxies)
  {
    assert nth.Keys == Elements(missing);
  }

  /** An entry without a preset has its base as its identity, unless another entry has it. */
  lemma NamedByBase(s: Suffixes, presets: Names, ids: Names, nth: map<Proxy, nat>, bound: nat, p: Proxy)
    requires Settled(s, presets, ids, nth, bound) && p in nth
    ensures p in ids && (ids[p] == p.base || exists q :: q in ids && q != p && ids[q] == p.base)
  {
    assert SuffixedAt(s, ids, nth, bound, p) && FirstFree(s, ids, nth, p);
    if nth[p] > 0 {
      assert s.Nth(p.base, 0) == p.base;
      assert Carried(ids, p.base);
    }
  }

  /** Identities are pairwise distinct exactly when the ones that were preset are. */
  lemma DistinctIffPresets(s: Suffixes, presets: Names, ids: Names, nth: map<Proxy, nat>, bound: nat)
    requires Settled(s, presets, ids, nth, bound)
    ensures (forall p, q :: p in ids && q in ids && p != q ==> ids[p] != ids[q]) <==>
            (forall p, q :: p in presets && q in presets && p != q ==> presets[p] != presets[q])
  {
    forall p, q | p in ids && q in ids && p != q && ids[p] == ids[q] ensures p in presets && q in presets {
      assert p in nth ==> SuffixedAt(s, ids, nth, bound, p);
      assert q in nth ==> SuffixedAt(s, ids, nth, bound, q);
    }
  }
}
