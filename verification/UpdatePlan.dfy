/** The subscription diff of checker/proxy_update.go and the comparison of xray/utils.go. */
module UpdatePlan {
  import opened Ordering
  import opened LogicalIDs

  /** Text normalisation, and the protocol that a revision hash stands for. */
  datatype Text = Text(trim: string -> string, lower: string -> string, protocolOf: string -> string)

  /** displayIdentity. */
  function Display(t: Text, p: Proxy): string {
    t.lower(t.trim(t.protocolOf(p.revision))) + "\0" + t.trim(p.subName) + "\0" + t.trim(p.groupName) + "\0" + t.trim(p.name)
  }

  function RevisionOf(p: Proxy): string { p.revision }

  function DisplayOf(t: Text): Proxy -> string { (p: Proxy) => Display(t, p) }

  function MarkOf(t: Text): Proxy -> (string, string) { (p: Proxy) => (p.revision, Display(t, p)) }

  predicate Alike(t: Text, p: Proxy, q: Proxy) { Display(t, p) == Display(t, q) }

  datatype Pair = Pair(prior: Proxy, next: Proxy)

  datatype Change = Added(next: Proxy) | Changed(prior: Proxy, next: Proxy) | Renamed(prior: Proxy, next: Proxy) | Removed(prior: Proxy)

  function Image<T>(s: seq<Proxy>, f: Proxy -> T): seq<T> {
    seq(|s|, i requires 0 <= i < |s| => f(s[i]))
  }

  function Olds(pairs: seq<Pair>): seq<Proxy> {
    seq(|pairs|, i requires 0 <= i < |pairs| => pairs[i].prior)
  }

  function Nexts(pairs: seq<Pair>): seq<Proxy> {
    seq(|pairs|, i requires 0 <= i < |pairs| => pairs[i].next)
  }

  /** The elements of `s` that are not in `gone`, in order. */
  function Outside(s: seq<Proxy>, gone: set<Proxy>): seq<Proxy> {
    if s == [] then []
    else Outside(s[..|s| - 1], gone) + (if s[|s| - 1] in gone then [] else [s[|s| - 1]])
  }

  /** The elements of `s` with the key `k`, in order. */
  function Bucket(s: seq<Proxy>, key: Proxy -> string, k: string): seq<Proxy> {
    if s == [] then []
    else Bucket(s[..|s| - 1], key, k) + (if key(s[|s| - 1]) == k then [s[|s| - 1]] else [])
  }

  /** The first candidate shown like `next`, or the length if there is none. */
  function FirstAlike(t: Text, candidates: seq<Proxy>, next: Proxy): (i: nat)
    ensures i <= |candidates|
    ensures forall j :: 0 <= j < i ==> !Alike(t, candidates[j], next)
    ensures i < |candidates| ==> Alike(t, candidates[i], next)
  {
    if candidates == [] then 0
    else
      var r := FirstAlike(t, candidates[..|candidates| - 1], next);
      if r < |candidates| - 1 || Alike(t, candidates[|candidates| - 1], next) then r else |candidates|
  }

  /** The candidate that an entry is paired with. */
  function Choice(t: Text, candidates: seq<Proxy>, next: Proxy): Proxy
    requires candidates != []
  {
    var i := FirstAlike(t, candidates, next);
    if i < |candidates| then candidates[i] else candidates[0]
  }

  /** The old entries still unpaired, and the pairs made. */
  datatype Pass = Pass(free: seq<Proxy>, pairs: seq<Pair>)

  function Matching(t: Text, prior: seq<Proxy>, news: seq<Proxy>, key: Proxy -> string): Pass {
    if news == [] then Pass(prior, [])
    else Paired(t, Matching(t, prior, news[..|news| - 1], key), news[|news| - 1], key)
  }

  function Paired(t: Text, p: Pass, next: Proxy, key: Proxy -> string): Pass {
    var candidates := Bucket(p.free, key, key(next));
    if candidates == [] then p
    else
      var previous := Choice(t, candidates, next);
      Pass(Outside(p.free, {previous}), p.pairs + [Pair(previous, next)])
  }

  /** Both passes and what they leave over. */
  datatype Outcome = Outcome(first: seq<Pair>, second: seq<Pair>, added: seq<Proxy>, removed: seq<Proxy>) {
    function Pairs(): seq<Pair> { first + second }
  }

  function PlanOf(t: Text, prior: seq<Proxy>, news: seq<Proxy>): Outcome {
    var one := Matching(t, prior, news, RevisionOf);
    var rest := Outside(news, Elements(Nexts(one.pairs)));
    var two := Matching(t, one.free, rest, DisplayOf(t));
    Outcome(one.pairs, two.pairs, Outside(rest, Elements(Nexts(two.pairs))), two.free)
  }

  /** The change reported for a pair; a pair that is the same on both sides is not one. */
  function ReportOf(t: Text, p: Pair): seq<Change> {
    if p.prior.revision != p.next.revision then [Changed(p.prior, p.next)]
    else if Alike(t, p.prior, p.next) then []
    else [Renamed(p.prior, p.next)]
  }

  function Reported(t: Text, pairs: seq<Pair>): seq<Change> {
    if pairs == [] then []
    else Reported(t, pairs[..|pairs| - 1]) + ReportOf(t, pairs[|pairs| - 1])
  }

  function Changes(t: Text, o: Outcome): seq<Change> {
    Reported(t, o.first) + Reported(t, o.second) +
    AllAdded(o.added) + AllRemoved(o.removed)
  }

  function AllAdded(s: seq<Proxy>): seq<Change> { seq(|s|, i requires 0 <= i < |s| => Added(s[i])) }

  function AllRemoved(s: seq<Proxy>): seq<Change> { seq(|s|, i requires 0 <= i < |s| => Removed(s[i])) }

  // ---- sequences of entries ----

  lemma {:induction false} OutsideMembers(s: seq<Proxy>, gone: set<Proxy>)
    ensures forall p :: p in Outside(s, gone) <==> p in s && p !in gone
    ensures Distinct(s) ==> Distinct(Outside(s, gone))
  {
    if s != [] {
      OutsideMembers(s[..|s| - 1], gone);
      assert s == s[..|s| - 1] + [s[|s| - 1]];
    }
  }

  lemma {:induction false} BucketMembers(s: seq<Proxy>, key: Proxy -> string, k: string)
    ensures forall p :: p in Bucket(s, key, k) <==> p in s && key(p) == k
    ensures Distinct(s) ==> Distinct(Bucket(s, key, k))
  {
    if s != [] {
      BucketMembers(s[..|s| - 1], key, k);
      assert s == s[..|s| - 1] + [s[|s| - 1]];
    }
  }

  lemma ImageAppend<T>(s: seq<Proxy>, p: Proxy, f: Proxy -> T)
    ensures Image(s + [p], f) == Image(s, f) + [f(p)]
  {
  }

  lemma {:induction false} OutsideNone(s: seq<Proxy>, gone: set<Proxy>)
    requires forall p :: p in s ==> p !in gone
    ensures Outside(s, gone) == s
  {
    if s != [] {
      OutsideNone(s[..|s| - 1], gone);
    }
  }

  lemma OutsideAppend(s: seq<Proxy>, p: Proxy, gone: set<Proxy>)
    ensures Outside(s + [p], gone) == if p in gone then Outside(s, gone) else Outside(s, gone) + [p]
  {
    assert (s + [p])[..|s|] == s;
  }

  lemma BucketAppend(s: seq<Proxy>, p: Proxy, key: Proxy -> string, k: string)
    ensures Bucket(s + [p], key, k) == if key(p) == k then Bucket(s, key, k) + [p] else Bucket(s, key, k)
  {
    assert (s + [p])[..|s|] == s;
  }

  /** What is taken out and what stays add up. */
  lemma {:induction false} OutsideOne<T>(s: seq<Proxy>, x: Proxy, f: Proxy -> T)
    requires Distinct(s) && x in s
    ensures multiset(Image(s, f)) == multiset(Image(Outside(s, {x}), f)) + multiset{f(x)}
  {
    var rest, last := s[..|s| - 1], s[|s| - 1];
    assert s == rest + [last];
    ImageAppend(rest, last, f);
    OutsideAppend(rest, last, {x});
    if last == x {
      assert x !in rest;
      OutsideNone(rest, {x});
    } else {
      OutsideOne(rest, x, f);
      ImageAppend(Outside(rest, {x}), last, f);
    }
  }

  lemma {:induction false} OutsideTwice(s: seq<Proxy>, a: set<Proxy>, b: set<Proxy>)
    ensures Outside(Outside(s, a), b) == Outside(s, a + b)
  {
    if s != [] {
      var rest, last := s[..|s| - 1], s[|s| - 1];
      assert s == rest + [last];
      OutsideTwice(rest, a, b);
      OutsideAppend(rest, last, a);
      OutsideAppend(rest, last, a + b);
      OutsideAppend(Outside(rest, a), last, b);
    }
  }

  lemma {:induction false} BucketOutside(s: seq<Proxy>, gone: set<Proxy>, key: Proxy -> string, k: string)
    ensures Bucket(Outside(s, gone), key, k) == Outside(Bucket(s, key, k), gone)
  {
    if s != [] {
      var rest, last := s[..|s| - 1], s[|s| - 1];
      assert s == rest + [last];
      BucketOutside(rest, gone, key, k);
      OutsideAppend(rest, last, gone);
      BucketAppend(rest, last, key, k);
      BucketAppend(Outside(rest, gone), last, key, k);
      OutsideAppend(Bucket(rest, key, k), last, gone);
    }
  }

  lemma {:induction false} OutsideConcat(a: seq<Proxy>, b: seq<Proxy>, gone: set<Proxy>)
    ensures Outside(a + b, gone) == Outside(a, gone) + Outside(b, gone)
  {
    if b == [] {
      assert a + b == a;
    } else {
      var rest, last := b[..|b| - 1], b[|b| - 1];
      OutsideConcat(a, rest, gone);
      assert a + b == (a + rest) + [last] && b == rest + [last];
      OutsideAppend(a + rest, last, gone);
      OutsideAppend(rest, last, gone);
    }
  }

  lemma NotElsewhere(s: seq<Proxy>, i: nat)
    requires Distinct(s) && i < |s|
    ensures s[i] !in s[..i] && s[i] !in s[i + 1..]
  {
    var a, b := s[..i], s[i + 1..];
    assert forall j :: 0 <= j < |a| ==> a[j] == s[j];
    assert forall j :: 0 <= j < |b| ==> b[j] == s[i + 1 + j];
  }

  /** Removing the `i`th element is taking it out. */
  lemma OutsideCut(s: seq<Proxy>, i: nat)
    requires Distinct(s) && i < |s|
    ensures Outside(s, {s[i]}) == s[..i] + s[i + 1..]
  {
    NotElsewhere(s, i);
    assert s == (s[..i] + [s[i]]) + s[i + 1..];
    CutApart(s[..i], s[i], s[i + 1..]);
  }

  lemma CutApart(a: seq<Proxy>, x: Proxy, b: seq<Proxy>)
    requires x !in a && x !in b
    ensures Outside(a + [x] + b, {x}) == a + b
  {
    OutsideConcat(a + [x], b, {x});
    OutsideAppend(a, x, {x});
    OutsideNone(a, {x});
    OutsideNone(b, {x});
  }

  // ---- one pass ----

  ghost predicate PairedBy(key: Proxy -> string, pairs: seq<Pair>) {
    forall i :: 0 <= i < |pairs| ==> key(pairs[i].prior) == key(pairs[i].next)
  }

  lemma ChoiceIsCandidate(t: Text, candidates: seq<Proxy>, next: Proxy)
    requires candidates != []
    ensures Choice(t, candidates, next) in candidates
    ensures (exists c :: c in candidates && Alike(t, c, next)) ==> Alike(t, Choice(t, candidates, next), next)
  {
    if c :| c in candidates && Alike(t, c, next) {
      var j :| 0 <= j < |candidates| && candidates[j] == c;
    }
  }

  lemma OldsAppend(pairs: seq<Pair>, p: Pair)
    ensures Olds(pairs + [p]) == Olds(pairs) + [p.prior] && Nexts(pairs + [p]) == Nexts(pairs) + [p.next]
  {
  }

  /** A pass pairs entries with equal keys, each at most once, and sets every paired old entry aside. */
  ghost predicate WellPaired(prior: seq<Proxy>, news: seq<Proxy>, key: Proxy -> string, m: Pass) {
    && PairedBy(key, m.pairs)
    && Distinct(Nexts(m.pairs)) && (forall p :: p in Nexts(m.pairs) ==> p in news)
    && Distinct(Olds(m.pairs)) && (forall p :: p in Olds(m.pairs) ==> p in prior)
    && Distinct(m.free) && m.free == Outside(prior, Elements(Olds(m.pairs)))
  }

  lemma FreeStep(prior: seq<Proxy>, m: Pass, previous: Proxy, next: Proxy)
    requires Distinct(m.free) && m.free == Outside(prior, Elements(Olds(m.pairs)))
    ensures Distinct(Outside(m.free, {previous}))
    ensures Outside(m.free, {previous}) == Outside(prior, Elements(Olds(m.pairs + [Pair(previous, next)])))
  {
    OutsideMembers(m.free, {previous});
    OldsAppend(m.pairs, Pair(previous, next));
    OutsideTwice(prior, Elements(Olds(m.pairs)), {previous});
    assert Elements(Olds(m.pairs) + [previous]) == Elements(Olds(m.pairs)) + {previous};
  }

  lemma PairsStep(prior: seq<Proxy>, news: seq<Proxy>, key: Proxy -> string, m: Pass, previous: Proxy, next: Proxy)
    requires WellPaired(prior, news, key, m) && previous in m.free && next !in news && key(previous) == key(next)
    ensures var pairs := m.pairs + [Pair(previous, next)];
            && PairedBy(key, pairs) && Distinct(Nexts(pairs)) && Distinct(Olds(pairs))
            && (forall p :: p in Nexts(pairs) ==> p in news + [next])
            && (forall p :: p in Olds(pairs) ==> p in prior)
  {
    OldsAppend(m.pairs, Pair(previous, next));
    OutsideMembers(prior, Elements(Olds(m.pairs)));
    assert previous !in Olds(m.pairs);
  }

  lemma {:induction false} MatchingPairs(t: Text, prior: seq<Proxy>, news: seq<Proxy>, key: Proxy -> string)
    requires Distinct(prior) && Distinct(news)
    ensures WellPaired(prior, news, key, Matching(t, prior, news, key))
  {
    if news == [] {
      OutsideNone(prior, {});
      assert Olds([]) == [] && Elements(Olds([])) == {};
    } else {
      var rest, next := news[..|news| - 1], news[|news| - 1];
      assert news == rest + [next];
      MatchingPairs(t, prior, rest, key);
      var m := Matching(t, prior, rest, key);
      var candidates := Bucket(m.free, key, key(next));
      if candidates != [] {
        var previous := Choice(t, candidates, next);
        ChoiceIsCandidate(t, candidates, next);
        BucketMembers(m.free, key, key(next));
        FreeStep(prior, m, previous, next);
        PairsStep(prior, rest, key, m, previous, next);
      }
    }
  }

  /** Every old entry is paired once or left over, whatever is read off the entries. */
  lemma {:induction false} OldsConserved<T>(t: Text, prior: seq<Proxy>, news: seq<Proxy>, key: Proxy -> string, f: Proxy -> T)
    requires Distinct(prior) && Distinct(news)
    ensures var m := Matching(t, prior, news, key);
            multiset(Image(prior, f)) == multiset(Image(m.free, f)) + multiset(Image(Olds(m.pairs), f))
  {
    if news != [] {
      var rest, next := news[..|news| - 1], news[|news| - 1];
      OldsConserved(t, prior, rest, key, f);
      MatchingPairs(t, prior, rest, key);
      var m := Matching(t, prior, rest, key);
      var candidates := Bucket(m.free, key, key(next));
      if candidates != [] {
        var previous := Choice(t, candidates, next);
        ChoiceIsCandidate(t, candidates, next);
        BucketMembers(m.free, key, key(next));
        OutsideOne(m.free, previous, f);
        OldsAppend(m.pairs, Pair(previous, next));
        ImageAppend(Olds(m.pairs), previous, f);
      }
    }
  }

  /** Taking distinct members out of a distinct list. */
  lemma {:induction false} OutsideAll<T>(s: seq<Proxy>, gone: seq<Proxy>, f: Proxy -> T)
    requires Distinct(s) && Distinct(gone) && forall p :: p in gone ==> p in s
    ensures multiset(Image(s, f)) == multiset(Image(gone, f)) + multiset(Image(Outside(s, Elements(gone)), f))
  {
    if gone == [] {
      OutsideNone(s, {});
      assert Elements(gone) == {};
    } else {
      var rest, last := gone[..|gone| - 1], gone[|gone| - 1];
      assert gone == rest + [last];
      OutsideAll(s, rest, f);
      OutsideMembers(s, Elements(rest));
      assert last !in rest;
      OutsideOne(Outside(s, Elements(rest)), last, f);
      OutsideTwice(s, Elements(rest), {last});
      assert Elements(gone) == Elements(rest) + {last};
      ImageAppend(rest, last, f);
    }
  }

  /** No unpaired old and new entry share the key of the pass. */
  lemma {:induction false} MatchingIsMaximal(t: Text, prior: seq<Proxy>, news: seq<Proxy>, key: Proxy -> string, o: Proxy, n: Proxy)
    requires Distinct(prior) && Distinct(news)
    requires o in Matching(t, prior, news, key).free && n in news && n !in Nexts(Matching(t, prior, news, key).pairs)
    ensures key(o) != key(n)
  {
    var rest, next := news[..|news| - 1], news[|news| - 1];
    assert news == rest + [next];
    var m, m' := Matching(t, prior, rest, key), Matching(t, prior, news, key);
    MatchingPairs(t, prior, rest, key);
    var candidates := Bucket(m.free, key, key(next));
    BucketMembers(m.free, key, key(next));
    if candidates != [] {
      var previous := Choice(t, candidates, next);
      OutsideMembers(m.free, {previous});
      OldsAppend(m.pairs, Pair(previous, next));
      assert Nexts(m'.pairs)[|m.pairs|] == next;
    }
    if n != next {
      assert n in rest;
      MatchingIsMaximal(t, prior, rest, key, o, n);
    }
  }

  // ---- the whole plan ----

  /** Every old entry is paired once or removed, every new one paired once or added.  With
      `f` the identity this is about the entries themselves. */
  lemma PlanConserves<T>(t: Text, prior: seq<Proxy>, news: seq<Proxy>, f: Proxy -> T)
    requires Distinct(prior) && Distinct(news)
    ensures var o := PlanOf(t, prior, news);
            && multiset(Image(prior, f)) == multiset(Image(Olds(o.first), f)) + multiset(Image(Olds(o.second), f)) + multiset(Image(o.removed, f))
            && multiset(Image(news, f)) == multiset(Image(Nexts(o.first), f)) + multiset(Image(Nexts(o.second), f)) + multiset(Image(o.added, f))
  {
    var one := Matching(t, prior, news, RevisionOf);
    var rest := Outside(news, Elements(Nexts(one.pairs)));
    MatchingPairs(t, prior, news, RevisionOf);
    OldsConserved(t, prior, news, RevisionOf, f);
    OutsideAll(news, Nexts(one.pairs), f);
    OutsideMembers(news, Elements(Nexts(one.pairs)));
    var two := Matching(t, one.free, rest, DisplayOf(t));
    MatchingPairs(t, one.free, rest, DisplayOf(t));
    OldsConserved(t, one.free, rest, DisplayOf(t), f);
    OutsideAll(rest, Nexts(two.pairs), f);
  }

  lemma PlanIsMatching(t: Text, prior: seq<Proxy>, news: seq<Proxy>)
    requires Distinct(prior) && Distinct(news)
    ensures var o := PlanOf(t, prior, news);
            && multiset(prior) == multiset(Olds(o.first)) + multiset(Olds(o.second)) + multiset(o.removed)
            && multiset(news) == multiset(Nexts(o.first)) + multiset(Nexts(o.second)) + multiset(o.added)
  {
    var id := (p: Proxy) => p;
    PlanConserves(t, prior, news, id);
    forall s: seq<Proxy> ensures Image(s, id) == s {
    }
  }

  ghost predicate Within(a: seq<Proxy>, b: seq<Proxy>) {
    forall p :: p in a ==> p in b
  }

  /** No entry of `ps` shares its key with one of `ns`. */
  ghost predicate Apart(key: Proxy -> string, ps: seq<Proxy>, ns: seq<Proxy>) {
    forall p, n :: p in ps && n in ns ==> key(p) != key(n)
  }

  /** The new entries that a pass leaves over. */
  function Unpaired(news: seq<Proxy>, pairs: seq<Pair>): seq<Proxy> {
    Outside(news, Elements(Nexts(pairs)))
  }

  lemma LeftoverDiffers(t: Text, prior: seq<Proxy>, news: seq<Proxy>, key: Proxy -> string, p: Proxy, n: Proxy)
    requires Distinct(prior) && Distinct(news)
    requires p in Matching(t, prior, news, key).free && n in Unpaired(news, Matching(t, prior, news, key).pairs)
    ensures key(p) != key(n)
  {
    OutsideMembers(news, Elements(Nexts(Matching(t, prior, news, key).pairs)));
    MatchingIsMaximal(t, prior, news, key, p, n);
  }

  /** What the pass over `key` leaves on either side never shares a key. */
  lemma LeftoversApart(t: Text, prior: seq<Proxy>, news: seq<Proxy>, key: Proxy -> string)
    requires Distinct(prior) && Distinct(news)
    ensures var m := Matching(t, prior, news, key); Apart(key, m.free, Unpaired(news, m.pairs))
  {
    var m := Matching(t, prior, news, key);
    forall p, n | p in m.free && n in Unpaired(news, m.pairs) ensures key(p) != key(n) {
      LeftoverDiffers(t, prior, news, key, p, n);
    }
  }

  lemma ApartWithin(key: Proxy -> string, ps: seq<Proxy>, ns: seq<Proxy>, ps': seq<Proxy>, ns': seq<Proxy>)
    requires Apart(key, ps, ns) && Within(ps', ps) && Within(ns', ns)
    ensures Apart(key, ps', ns')
  {
  }

  lemma MatchingWithin(t: Text, prior: seq<Proxy>, news: seq<Proxy>, key: Proxy -> string)
    requires Distinct(prior) && Distinct(news)
    ensures var m := Matching(t, prior, news, key);
            && PairedBy(key, m.pairs) && Within(m.free, prior) && Within(Olds(m.pairs), prior)
            && Within(Unpaired(news, m.pairs), news) && Within(Nexts(m.pairs), news)
            && Distinct(m.free) && Distinct(Unpaired(news, m.pairs))
  {
    var m := Matching(t, prior, news, key);
    MatchingPairs(t, prior, news, key);
    OutsideWithin(news, Elements(Nexts(m.pairs)));
    OutsideWithin(prior, Elements(Olds(m.pairs)));
  }

  lemma OutsideWithin(s: seq<Proxy>, gone: set<Proxy>)
    requires Distinct(s)
    ensures Within(Outside(s, gone), s) && Distinct(Outside(s, gone))
  {
    OutsideMembers(s, gone);
  }

  lemma PairsApart(key: Proxy -> string, pairs: seq<Pair>)
    requires Apart(key, Olds(pairs), Nexts(pairs))
    ensures forall i :: 0 <= i < |pairs| ==> key(pairs[i].prior) != key(pairs[i].next)
  {
    forall i | 0 <= i < |pairs| ensures key(pairs[i].prior) != key(pairs[i].next) {
      assert Olds(pairs)[i] in Olds(pairs) && Nexts(pairs)[i] in Nexts(pairs);
    }
  }

  /** The two passes pair equal revisions and then equal displays; what is left over has neither. */
  lemma NothingLeftToPair(t: Text, prior: seq<Proxy>, news: seq<Proxy>)
    requires Distinct(prior) && Distinct(news)
    ensures var o := PlanOf(t, prior, news);
            && PairedBy(RevisionOf, o.first) && PairedBy(DisplayOf(t), o.second)
            && (forall i :: 0 <= i < |o.second| ==> RevisionOf(o.second[i].prior) != RevisionOf(o.second[i].next))
            && Apart(RevisionOf, o.removed, o.added) && Apart(DisplayOf(t), o.removed, o.added)
  {
    var o, one := PlanOf(t, prior, news), Matching(t, prior, news, RevisionOf);
    var rest := Unpaired(news, one.pairs);
    MatchingWithin(t, prior, news, RevisionOf);
    MatchingWithin(t, one.free, rest, DisplayOf(t));
    LeftoversApart(t, prior, news, RevisionOf);
    LeftoversApart(t, one.free, rest, DisplayOf(t));
    hide Within, Apart, Distinct, PairedBy;
    ApartWithin(RevisionOf, one.free, rest, Olds(o.second), Nexts(o.second));
    ApartWithin(RevisionOf, one.free, rest, o.removed, o.added);
    PairsApart(RevisionOf, o.second);
  }

  lemma {:induction false} SameImages<T>(pairs: seq<Pair>, f: Proxy -> T)
    requires forall i :: 0 <= i < |pairs| ==> f(pairs[i].prior) == f(pairs[i].next)
    ensures Image(Olds(pairs), f) == Image(Nexts(pairs), f)
  {
  }

  lemma NoneLeft<T>(s: seq<Proxy>, f: Proxy -> T, k: T)
    requires multiset(Image(s, f))[k] > 0
    ensures exists p :: p in s && f(p) == k
  {
    assert k in Image(s, f);
    var i :| 0 <= i < |s| && Image(s, f)[i] == k;
    assert s[i] in s;
  }

  /** The first pass pairs as many entries of a revision as both sides have. */
  lemma PassOnePairsMin(t: Text, prior: seq<Proxy>, news: seq<Proxy>, r: string)
    requires Distinct(prior) && Distinct(news)
    ensures var paired := multiset(Image(Olds(PlanOf(t, prior, news).first), RevisionOf))[r];
            var a, b := multiset(Image(prior, RevisionOf))[r], multiset(Image(news, RevisionOf))[r];
            paired == if a < b then a else b
  {
    var one := Matching(t, prior, news, RevisionOf);
    var rest := Outside(news, Elements(Nexts(one.pairs)));
    MatchingPairs(t, prior, news, RevisionOf);
    OldsConserved(t, prior, news, RevisionOf, RevisionOf);
    OutsideAll(news, Nexts(one.pairs), RevisionOf);
    OutsideMembers(news, Elements(Nexts(one.pairs)));
    SameImages(one.pairs, RevisionOf);
    if multiset(Image(one.free, RevisionOf))[r] > 0 && multiset(Image(rest, RevisionOf))[r] > 0 {
      NoneLeft(one.free, RevisionOf, r);
      NoneLeft(rest, RevisionOf, r);
      var p :| p in one.free && RevisionOf(p) == r;
      var n :| n in rest && RevisionOf(n) == r;
      MatchingIsMaximal(t, prior, news, RevisionOf, p, n);
    }
  }

  // ---- when nothing has changed ----

  function Marks(t: Text, s: seq<Proxy>): seq<(string, string)> { Image(s, MarkOf(t)) }

  ghost predicate AllSame(t: Text, pairs: seq<Pair>) {
    forall i :: 0 <= i < |pairs| ==> MarkOf(t)(pairs[i].prior) == MarkOf(t)(pairs[i].next)
  }

  /** If some free entry is the same, one that is the same gets chosen. */
  lemma SameIsChosen(t: Text, free: seq<Proxy>, next: Proxy)
    requires multiset(Marks(t, free))[MarkOf(t)(next)] > 0
    ensures var candidates := Bucket(free, RevisionOf, next.revision);
            candidates != [] && Choice(t, candidates, next) in free && MarkOf(t)(Choice(t, candidates, next)) == MarkOf(t)(next)
  {
    NoneLeft(free, MarkOf(t), MarkOf(t)(next));
    var same :| same in free && MarkOf(t)(same) == MarkOf(t)(next);
    var candidates := Bucket(free, RevisionOf, next.revision);
    BucketMembers(free, RevisionOf, next.revision);
    assert same in candidates && Alike(t, same, next);
    ChoiceIsCandidate(t, candidates, next);
  }

  lemma BalancedPairs(t: Text, m: Pass, next: Proxy)
    requires AllSame(t, m.pairs) && multiset(Marks(t, m.free))[MarkOf(t)(next)] > 0
    ensures AllSame(t, Paired(t, m, next, RevisionOf).pairs)
    ensures |Paired(t, m, next, RevisionOf).pairs| == |m.pairs| + 1
  {
    SameIsChosen(t, m.free, next);
    var previous := Choice(t, Bucket(m.free, RevisionOf, next.revision), next);
    AllSameAppend(t, m.pairs, Pair(previous, next));
  }

  lemma BalancedFree(t: Text, m: Pass, next: Proxy)
    requires Distinct(m.free) && multiset(Marks(t, m.free))[MarkOf(t)(next)] > 0
    ensures multiset(Marks(t, m.free)) == multiset(Marks(t, Paired(t, m, next, RevisionOf).free)) + multiset{MarkOf(t)(next)}
  {
    SameIsChosen(t, m.free, next);
    MarksWithout(t, m.free, Choice(t, Bucket(m.free, RevisionOf, next.revision), next));
  }

  lemma MarksWithout(t: Text, s: seq<Proxy>, x: Proxy)
    requires Distinct(s) && x in s
    ensures multiset(Marks(t, s)) == multiset(Marks(t, Outside(s, {x}))) + multiset{MarkOf(t)(x)}
  {
    OutsideOne(s, x, MarkOf(t));
  }

  lemma AllSameAppend(t: Text, pairs: seq<Pair>, p: Pair)
    requires AllSame(t, pairs) && MarkOf(t)(p.prior) == MarkOf(t)(p.next)
    ensures AllSame(t, pairs + [p])
  {
  }

  /** `k` entries have been paired with the same ones, and what is left balances `ahead`. */
  ghost predicate Balanced(t: Text, m: Pass, k: nat, ahead: seq<Proxy>) {
    AllSame(t, m.pairs) && |m.pairs| == k && multiset(Marks(t, m.free)) == multiset(Marks(t, ahead))
  }

  lemma MarksSplit(t: Text, a: seq<Proxy>, x: Proxy, b: seq<Proxy>)
    ensures Marks(t, [x] + b) == [MarkOf(t)(x)] + Marks(t, b)
    ensures Marks(t, a + [x]) == Marks(t, a) + [MarkOf(t)(x)]
  {
  }

  lemma BalancedStep(t: Text, m: Pass, k: nat, next: Proxy, ahead: seq<Proxy>)
    requires Balanced(t, m, k, [next] + ahead) && Distinct(m.free)
    ensures Balanced(t, Paired(t, m, next, RevisionOf), k + 1, ahead)
  {
    hide Paired, AllSame, Marks, Distinct;
    MarksSplit(t, [], next, ahead);
    assert multiset(Marks(t, m.free)) == multiset{MarkOf(t)(next)} + multiset(Marks(t, ahead));
    BalancedPairs(t, m, next);
    BalancedFree(t, m, next);
    assert multiset(Marks(t, Paired(t, m, next, RevisionOf).free)) == multiset(Marks(t, m.free)) - multiset{MarkOf(t)(next)};
    assert multiset(Marks(t, ahead)) == multiset(Marks(t, m.free)) - multiset{MarkOf(t)(next)};
  }

  /** While the entries still to be read balance the old ones left, every entry finds one that is
      the same in revision and display, although others share its revision. */
  lemma {:induction false} BalancedPass(t: Text, prior: seq<Proxy>, news: seq<Proxy>, ahead: seq<Proxy>)
    requires Distinct(prior) && Distinct(news)
    requires multiset(Marks(t, prior)) == multiset(Marks(t, news)) + multiset(Marks(t, ahead))
    ensures Balanced(t, Matching(t, prior, news, RevisionOf), |news|, ahead)
  {
    if news == [] {
      assert Marks(t, news) == [];
    } else {
      var rest, next := news[..|news| - 1], news[|news| - 1];
      assert news == rest + [next];
      MatchingPairs(t, prior, rest, RevisionOf);
      var m := Matching(t, prior, rest, RevisionOf);
      assert Distinct(m.free);
      hide Balanced, Marks, WellPaired, Paired;
      MarksSplit(t, rest, next, ahead);
      BalancedPass(t, prior, rest, [next] + ahead);
      BalancedStep(t, m, |rest|, next, ahead);
    }
  }

  lemma {:induction false} ReportedNoneIff(t: Text, pairs: seq<Pair>)
    ensures Reported(t, pairs) == [] <==> AllSame(t, pairs)
  {
    if pairs != [] {
      var rest, p := pairs[..|pairs| - 1], pairs[|pairs| - 1];
      ReportedNoneIff(t, rest);
      assert pairs == rest + [p];
    }
  }

  /** The plan is empty exactly when both sides hold the same revisions under the same displays,
      counted with repetitions. */
  lemma PlanEmptyIff(t: Text, prior: seq<Proxy>, news: seq<Proxy>)
    requires Distinct(prior) && Distinct(news)
    ensures Changes(t, PlanOf(t, prior, news)) == [] <==> multiset(Marks(t, prior)) == multiset(Marks(t, news))
  {
    var o := PlanOf(t, prior, news);
    ReportedNoneIff(t, o.first);
    ReportedNoneIff(t, o.second);
    PlanConserves(t, prior, news, MarkOf(t));
    if Changes(t, o) == [] {
      NoChangeBalances(t, prior, news);
    }
    if multiset(Marks(t, prior)) == multiset(Marks(t, news)) {
      BalanceGivesNoChange(t, prior, news);
    }
  }

  lemma NoChangeBalances(t: Text, prior: seq<Proxy>, news: seq<Proxy>)
    requires Distinct(prior) && Distinct(news) && Changes(t, PlanOf(t, prior, news)) == []
    ensures multiset(Marks(t, prior)) == multiset(Marks(t, news))
  {
    var o := PlanOf(t, prior, news);
    PlanConserves(t, prior, news, MarkOf(t));
    ReportedNoneIff(t, o.first);
    ReportedNoneIff(t, o.second);
    assert Reported(t, o.first) == [] && Reported(t, o.second) == [] && |o.added| == 0 && |o.removed| == 0;
    SameImages(o.first, MarkOf(t));
    SameImages(o.second, MarkOf(t));
  }

  lemma BalanceGivesNoChange(t: Text, prior: seq<Proxy>, news: seq<Proxy>)
    requires Distinct(prior) && Distinct(news) && multiset(Marks(t, prior)) == multiset(Marks(t, news))
    ensures Changes(t, PlanOf(t, prior, news)) == []
  {
    var one := Matching(t, prior, news, RevisionOf);
    assert Marks(t, []) == [];
    BalancedPass(t, prior, news, []);
    assert |multiset(Marks(t, one.free))| == 0;
    MatchingPairs(t, prior, news, RevisionOf);
    OutsideAll(news, Nexts(one.pairs), MarkOf(t));
    var rest := Outside(news, Elements(Nexts(one.pairs)));
    assert |multiset(Marks(t, rest))| == 0;
    assert one.free == [] && rest == [];
    ReportedNoneIff(t, one.pairs);
    assert PlanOf(t, prior, news) == Outcome(one.pairs, [], [], []);
  }

  // ---- whom an entry is paired with ----

  ghost predicate Precedes(s: seq<Proxy>, x: Proxy, y: Proxy) {
    exists i, j :: 0 <= i < j < |s| && s[i] == x && s[j] == y
  }

  lemma PrecedesAppend(s: seq<Proxy>, z: Proxy, x: Proxy, y: Proxy)
    ensures Precedes(s + [z], x, y) <==> Precedes(s, x, y) || (x in s && y == z)
  {
    var a := s + [z];
    if i, j :| 0 <= i < j < |a| && a[i] == x && a[j] == y {
      assert j < |s| ==> s[i] == x && s[j] == y;
      assert s[i] == x;
    }
    if i, j :| 0 <= i < j < |s| && s[i] == x && s[j] == y {
      assert a[i] == x && a[j] == y;
    }
    if x in s && y == z {
      var i :| 0 <= i < |s| && s[i] == x;
      assert a[i] == x && a[|s|] == y;
    }
  }

  lemma {:induction false} OutsideKeepsOrder(s: seq<Proxy>, gone: set<Proxy>, x: Proxy, y: Proxy)
    requires Precedes(s, x, y) && x !in gone && y !in gone
    ensures Precedes(Outside(s, gone), x, y)
  {
    var rest, last := s[..|s| - 1], s[|s| - 1];
    assert s == rest + [last];
    PrecedesAppend(rest, last, x, y);
    OutsideAppend(rest, last, gone);
    OutsideMembers(rest, gone);
    if Precedes(rest, x, y) {
      OutsideKeepsOrder(rest, gone, x, y);
    }
    PrecedesAppend(Outside(rest, gone), last, x, y);
  }

  lemma {:induction false} BucketKeepsOrder(s: seq<Proxy>, key: Proxy -> string, k: string, x: Proxy, y: Proxy)
    requires Precedes(s, x, y) && key(x) == key(y) == k
    ensures Precedes(Bucket(s, key, k), x, y)
  {
    var rest, last := s[..|s| - 1], s[|s| - 1];
    assert s == rest + [last];
    PrecedesAppend(rest, last, x, y);
    BucketAppend(rest, last, key, k);
    BucketMembers(rest, key, k);
    if Precedes(rest, x, y) {
      BucketKeepsOrder(rest, key, k, x, y);
    }
    PrecedesAppend(Bucket(rest, key, k), last, x, y);
  }

  /** Of the entries with the key that no earlier pair has taken, the partner is the first that is
      shown alike, or else the first. */
  ghost predicate TakesFirst(t: Text, prior: seq<Proxy>, key: Proxy -> string, taken: seq<Pair>, p: Pair) {
    forall o :: o in prior && key(o) == key(p.next) && o !in Olds(taken) ==>
      && (Alike(t, o, p.next) ==> Alike(t, p.prior, p.next))
      && (Precedes(prior, o, p.prior) ==> Alike(t, p.prior, p.next) && !Alike(t, o, p.next))
  }

  lemma ChoiceTakesFirst(t: Text, prior: seq<Proxy>, key: Proxy -> string, m: Pass, next: Proxy)
    requires Distinct(prior) && Distinct(m.free) && m.free == Outside(prior, Elements(Olds(m.pairs))) && Bucket(m.free, key, key(next)) != []
    ensures TakesFirst(t, prior, key, m.pairs, Pair(Choice(t, Bucket(m.free, key, key(next)), next), next))
  {
    var candidates := Bucket(m.free, key, key(next));
    var p := Choice(t, candidates, next);
    ChoiceIsCandidate(t, candidates, next);
    BucketMembers(m.free, key, key(next));
    OutsideMembers(prior, Elements(Olds(m.pairs)));
    forall o | o in prior && key(o) == key(next) && o !in Olds(m.pairs)
      ensures Alike(t, o, next) ==> Alike(t, p, next)
      ensures Precedes(prior, o, p) ==> Alike(t, p, next) && !Alike(t, o, next)
    {
      assert o in m.free && o in candidates && p in m.free && p !in Elements(Olds(m.pairs));
      if Precedes(prior, o, p) {
        OutsideKeepsOrder(prior, Elements(Olds(m.pairs)), o, p);
        BucketKeepsOrder(m.free, key, key(next), o, p);
        EarlierIsPassed(t, candidates, next, o);
      }
    }
  }

  lemma EarlierIsPassed(t: Text, candidates: seq<Proxy>, next: Proxy, o: Proxy)
    requires Distinct(candidates) && candidates != [] && Precedes(candidates, o, Choice(t, candidates, next))
    ensures Alike(t, Choice(t, candidates, next), next) && !Alike(t, o, next)
  {
    var i, j :| 0 <= i < j < |candidates| && candidates[i] == o && candidates[j] == Choice(t, candidates, next);
    var first := FirstAlike(t, candidates, next);
    assert first < |candidates| ==> j == first;
  }

  /** New entries are served in order, and each gets the first entry that is left for it. */
  lemma {:induction false} FirstComeFirstServed(t: Text, prior: seq<Proxy>, news: seq<Proxy>, key: Proxy -> string, i: nat)
    requires Distinct(prior) && Distinct(news)
    requires i < |Matching(t, prior, news, key).pairs|
    ensures var pairs := Matching(t, prior, news, key).pairs; TakesFirst(t, prior, key, pairs[..i], pairs[i])
    ensures var pairs := Matching(t, prior, news, key).pairs; forall j :: 0 <= j < i ==> Precedes(news, pairs[j].next, pairs[i].next)
  {
    var rest, next := news[..|news| - 1], news[|news| - 1];
    assert news == rest + [next];
    var m := Matching(t, prior, rest, key);
    var pairs := Matching(t, prior, news, key).pairs;
    MatchingPairs(t, prior, rest, key);
    hide Outside, Bucket, Choice, TakesFirst, Distinct, Precedes;
    DistinctFront(news);
    if i < |m.pairs| {
      assert pairs[i] == m.pairs[i] && pairs[..i] == m.pairs[..i];
      FirstComeFirstServed(t, prior, rest, key, i);
      forall j | 0 <= j < i ensures Precedes(news, pairs[j].next, pairs[i].next) {
        PrecedesAppend(rest, next, pairs[j].next, pairs[i].next);
      }
    } else {
      assert pairs[..i] == m.pairs;
      ChoiceTakesFirst(t, prior, key, m, next);
      forall j | 0 <= j < i ensures Precedes(news, pairs[j].next, pairs[i].next) {
        assert Nexts(m.pairs)[j] in Nexts(m.pairs);
        PrecedesAppend(rest, next, pairs[j].next, next);
      }
    }
  }

  lemma DistinctFront(s: seq<Proxy>)
    requires Distinct(s) && s != []
    ensures Distinct(s[..|s| - 1])
  {
  }

  // ---- what the plan says of each entry ----

  ghost predicate InNoPair(pairs: seq<Pair>, x: Proxy) {
    forall p :: p in pairs ==> p.prior != x && p.next != x
  }

  /** What a reported change means. */
  ghost predicate IsTrue(t: Text, pairs: seq<Pair>, prior: seq<Proxy>, news: seq<Proxy>, c: Change) {
    match c
    case Changed(o, n) => Pair(o, n) in pairs && o.revision != n.revision
    case Renamed(o, n) => Pair(o, n) in pairs && o.revision == n.revision && Display(t, o) != Display(t, n)
    case Added(n) => n in news && InNoPair(pairs, n)
    case Removed(o) => o in prior && InNoPair(pairs, o)
  }

  /** The plan is true and complete: a pair is reported as changed exactly if the connections differ
      and as renamed exactly if only the displays do, and an entry as added or removed exactly if it
      is in no pair. */
  ghost predicate Reports(t: Text, pairs: seq<Pair>, prior: seq<Proxy>, news: seq<Proxy>, plan: seq<Change>) {
    && (forall c :: c in plan ==> IsTrue(t, pairs, prior, news, c))
    && (forall p :: p in pairs ==>
          && (p.prior.revision != p.next.revision ==> Changed(p.prior, p.next) in plan)
          && (p.prior.revision == p.next.revision && Display(t, p.prior) != Display(t, p.next) ==> Renamed(p.prior, p.next) in plan))
    && (forall n :: n in news && InNoPair(pairs, n) ==> Added(n) in plan)
    && (forall o :: o in prior && InNoPair(pairs, o) ==> Removed(o) in plan)
  }

  lemma {:induction false} ReportedMembers(t: Text, pairs: seq<Pair>, c: Change)
    ensures c in Reported(t, pairs) <==> exists p :: p in pairs && c in ReportOf(t, p)
  {
    if pairs != [] {
      var rest, last := pairs[..|pairs| - 1], pairs[|pairs| - 1];
      assert pairs == rest + [last];
      ReportedMembers(t, rest, c);
    }
  }

  lemma ReportTells(t: Text, p: Pair, c: Change)
    ensures c in ReportOf(t, p) <==>
            || (c == Changed(p.prior, p.next) && p.prior.revision != p.next.revision)
            || (c == Renamed(p.prior, p.next) && p.prior.revision == p.next.revision && Display(t, p.prior) != Display(t, p.next))
  {
  }

  lemma AllAddedMembers(s: seq<Proxy>, c: Change)
    ensures c in AllAdded(s) <==> c.Added? && c.next in s
    ensures c in AllRemoved(s) <==> c.Removed? && c.prior in s
  {
    if c.Added? && c.next in s {
      var i :| 0 <= i < |s| && s[i] == c.next;
      assert AllAdded(s)[i] == c;
    }
    if c.Removed? && c.prior in s {
      var i :| 0 <= i < |s| && s[i] == c.prior;
      assert AllRemoved(s)[i] == c;
    }
  }

  lemma ChangesMembers(t: Text, o: Outcome, c: Change)
    ensures c in Changes(t, o) <==>
            || (c.Changed? && Pair(c.prior, c.next) in o.Pairs() && c.prior.revision != c.next.revision)
            || (c.Renamed? && Pair(c.prior, c.next) in o.Pairs() && c.prior.revision == c.next.revision && Display(t, c.prior) != Display(t, c.next))
            || (c.Added? && c.next in o.added) || (c.Removed? && c.prior in o.removed)
  {
    ReportedMembers(t, o.first, c);
    ReportedMembers(t, o.second, c);
    AllAddedMembers(o.added, c);
    AllAddedMembers(o.removed, c);
    assert c in Changes(t, o) <==> c in Reported(t, o.first) || c in Reported(t, o.second) || c in AllAdded(o.added) || c in AllRemoved(o.removed);
    hide Reported, AllAdded, AllRemoved, Display, Changes;
    if c.Changed? || c.Renamed? {
      var p := Pair(c.prior, c.next);
      assert p in o.Pairs() <==> p in o.first || p in o.second;
    }
  }

  lemma PairEnds(pairs: seq<Pair>, x: Proxy)
    ensures InNoPair(pairs, x) <==> x !in Nexts(pairs) && x !in Olds(pairs)
  {
    if x in Nexts(pairs) {
      var i :| 0 <= i < |pairs| && Nexts(pairs)[i] == x;
      assert pairs[i] in pairs;
    }
    if x in Olds(pairs) {
      var i :| 0 <= i < |pairs| && Olds(pairs)[i] == x;
      assert pairs[i] in pairs;
    }
    if !InNoPair(pairs, x) {
      var i :| 0 <= i < |pairs| && (pairs[i].prior == x || pairs[i].next == x);
      assert Nexts(pairs)[i] == pairs[i].next && Olds(pairs)[i] == pairs[i].prior;
    }
  }

  lemma LeftoverIff(t: Text, prior: seq<Proxy>, news: seq<Proxy>, x: Proxy)
    requires Distinct(prior) && Distinct(news) && Elements(prior) !! Elements(news)
    ensures var o := PlanOf(t, prior, news);
            && (x in o.added <==> x in news && InNoPair(o.Pairs(), x))
            && (x in o.removed <==> x in prior && InNoPair(o.Pairs(), x))
  {
    var o := PlanOf(t, prior, news);
    PlanIsMatching(t, prior, news);
    ConcatPairs(o.first, o.second);
    PairEnds(o.Pairs(), x);
    hide PlanOf, Distinct, Olds, Nexts, InNoPair;
    PartDistinct(prior, Olds(o.first), Olds(o.second), o.removed);
    PartDistinct(news, Nexts(o.first), Nexts(o.second), o.added);
    PartsMember(news, Nexts(o.Pairs()), o.added, x);
    PartsMember(prior, Olds(o.Pairs()), o.removed, x);
    assert !(x in Elements(prior) && x in Elements(news));
  }

  lemma PartsMember(s: seq<Proxy>, a: seq<Proxy>, b: seq<Proxy>, x: Proxy)
    requires Elements(s) == Elements(a) + Elements(b) && Elements(a) !! Elements(b)
    ensures x in b <==> x in s && x !in a
    ensures x in s <==> x in Elements(s)
    ensures x in a ==> x in s
  {
    assert x in Elements(a) <==> x in a;
    assert x in Elements(b) <==> x in b;
    assert x in Elements(s) <==> x in s;
  }

  /** The plan reports every entry, and reports it as what it is. */
  lemma PlanReports(t: Text, prior: seq<Proxy>, news: seq<Proxy>)
    requires Distinct(prior) && Distinct(news) && Elements(prior) !! Elements(news)
    ensures Reports(t, PlanOf(t, prior, news).Pairs(), prior, news, Changes(t, PlanOf(t, prior, news)))
  {
    var o := PlanOf(t, prior, news);
    var plan := Changes(t, o);
    forall c | c in plan ensures IsTrue(t, o.Pairs(), prior, news, c) {
      ChangesMembers(t, o, c);
      if c.Added? {
        LeftoverIff(t, prior, news, c.next);
      } else if c.Removed? {
        LeftoverIff(t, prior, news, c.prior);
      }
      hide Changes, PlanOf, Distinct, Display;
    }
    hide Changes, PlanOf, Distinct, Display, InNoPair;
    forall p | p in o.Pairs()
      ensures p.prior.revision != p.next.revision ==> Changed(p.prior, p.next) in plan
      ensures p.prior.revision == p.next.revision && Display(t, p.prior) != Display(t, p.next) ==> Renamed(p.prior, p.next) in plan
    {
      ChangesMembers(t, o, Changed(p.prior, p.next));
      ChangesMembers(t, o, Renamed(p.prior, p.next));
      assert p == Pair(p.prior, p.next);
    }
    forall n | n in news && InNoPair(o.Pairs(), n) ensures Added(n) in plan {
      LeftoverIff(t, prior, news, n);
      ChangesMembers(t, o, Added(n));
    }
    forall q | q in prior && InNoPair(o.Pairs(), q) ensures Removed(q) in plan {
      LeftoverIff(t, prior, news, q);
      ChangesMembers(t, o, Removed(q));
    }
  }

  predicate AsksFor(c: Change, n: Proxy) { (c.Added? || c.Changed?) && c.next == n }

  /** ProxiesToCheck. */
  method ProxiesToCheck(plan: seq<Change>) returns (proxies: seq<Proxy>)
    ensures forall n :: n in proxies ==> exists c :: c in plan && AsksFor(c, n)
    ensures forall c :: c in plan && (c.Added? || c.Changed?) ==> c.next in proxies
  {
    proxies := [];
    for i := 0 to |plan|
      invariant forall n :: n in proxies ==> exists c :: c in plan[..i] && AsksFor(c, n)
      invariant forall c :: c in plan[..i] && (c.Added? || c.Changed?) ==> c.next in proxies
    {
      assert plan[..i + 1] == plan[..i] + [plan[i]];
      if plan[i].Added? || plan[i].Changed? {
        assert plan[i] in plan[..i + 1] && AsksFor(plan[i], plan[i].next);
        proxies := proxies + [plan[i].next];
      }
    }
    assert plan[..|plan|] == plan;
  }

  /** A new entry is among them unless it is paired with an entry of its own revision, whose result
      it may keep. */
  lemma CheckedIff(t: Text, pairs: seq<Pair>, prior: seq<Proxy>, news: seq<Proxy>, plan: seq<Change>, n: Proxy)
    requires Reports(t, pairs, prior, news, plan) && Distinct(Nexts(pairs)) && n in news && n !in Olds(pairs)
    ensures (exists c :: c in plan && AsksFor(c, n)) <==> !exists p :: p in pairs && p.next == n && p.prior.revision == n.revision
  {
    if p :| p in pairs && p.next == n {
      forall q | q in pairs && q.next == n ensures q == p {
        PartnerIsOne(pairs, p, q);
      }
      if p.prior.revision == n.revision {
        forall c | c in plan ensures !AsksFor(c, n) {
          assert IsTrue(t, pairs, prior, news, c);
        }
      } else {
        assert AsksFor(Changed(p.prior, n), n);
      }
    } else {
      PairEnds(pairs, n);
      assert InNoPair(pairs, n);
      assert AsksFor(Added(n), n);
    }
  }

  lemma PartnerIsOne(pairs: seq<Pair>, p: Pair, q: Pair)
    requires Distinct(Nexts(pairs)) && p in pairs && q in pairs && p.next == q.next
    ensures p == q
  {
    var i :| 0 <= i < |pairs| && pairs[i] == p;
    var j :| 0 <= j < |pairs| && pairs[j] == q;
    assert Nexts(pairs)[i] == p.next && Nexts(pairs)[j] == q.next;
  }

  // ---- the comparison that decides whether a plan is made ----

  function LabelText(labels: seq<(string, string)>): string {
    if labels == [] then ""
    else
      var l := labels[|labels| - 1];
      LabelText(labels[..|labels| - 1]) + ("\U{1f}" + l.0 + "\U{1e}" + l.1)
  }

  /** configSignature; the labels are in key order. */
  function Signature(p: Proxy): string {
    p.revision + ("\U{1d}" + (p.name + ("\U{1d}" + (p.subName + ("\U{1d}" + (p.groupName + LabelText(p.labels)))))))
  }

  /** The texts do not contain the separators that Signature puts between them. */
  predicate Plain(p: Proxy) {
    '\U{1d}' !in p.revision && '\U{1d}' !in p.name && '\U{1d}' !in p.subName && '\U{1f}' !in p.groupName
  }

  lemma {:induction false} SplitAtMark(a: string, x: string, b: string, y: string, c: char)
    requires a + ([c] + x) == b + ([c] + y) && c !in a && c !in b
    ensures a == b && x == y
  {
    var l, r := a + ([c] + x), b + ([c] + y);
    assert l[0] == if a == [] then c else a[0];
    assert r[0] == if b == [] then c else b[0];
    if a == [] && b == [] {
      assert l[1..] == x && r[1..] == y;
    } else if a != [] && b != [] {
      assert l[1..] == a[1..] + ([c] + x) && r[1..] == b[1..] + ([c] + y);
      SplitAtMark(a[1..], x, b[1..], y, c);
      assert a == [a[0]] + a[1..] && b == [b[0]] + b[1..];
    }
  }

  lemma {:induction false} LabelTextStart(labels: seq<(string, string)>)
    ensures LabelText(labels) == "" || LabelText(labels)[0] == '\U{1f}'
  {
    if labels != [] {
      LabelTextStart(labels[..|labels| - 1]);
    }
  }

  lemma {:induction false} SplitAtLabels(a: string, x: string, b: string, y: string, c: char)
    requires a + x == b + y && c !in a && c !in b
    requires (x == [] || x[0] == c) && (y == [] || y[0] == c)
    ensures a == b
  {
    var l, r := a + x, b + y;
    assert l != [] ==> l[0] == if a == [] then x[0] else a[0];
    assert r != [] ==> r[0] == if b == [] then y[0] else b[0];
    if a != [] && b != [] {
      assert l[1..] == a[1..] + x && r[1..] == b[1..] + y;
      SplitAtLabels(a[1..], x, b[1..], y, c);
      assert a == [a[0]] + a[1..] && b == [b[0]] + b[1..];
    }
  }

  lemma SignatureTells(p: Proxy, q: Proxy)
    requires Plain(p) && Plain(q) && Signature(p) == Signature(q)
    ensures p.revision == q.revision && p.name == q.name && p.subName == q.subName && p.groupName == q.groupName
    ensures LabelText(p.labels) == LabelText(q.labels)
  {
    var m, c := "\U{1d}", '\U{1d}';
    var p3, q3 := p.groupName + LabelText(p.labels), q.groupName + LabelText(q.labels);
    var p2, q2 := p.subName + (m + p3), q.subName + (m + q3);
    var p1, q1 := p.name + (m + p2), q.name + (m + q2);
    SplitAtMark(p.revision, p1, q.revision, q1, c);
    SplitAtMark(p.name, p2, q.name, q2, c);
    SplitAtMark(p.subName, p3, q.subName, q3, c);
    LabelTextStart(p.labels);
    LabelTextStart(q.labels);
    SplitAtLabels(p.groupName, LabelText(p.labels), q.groupName, LabelText(q.labels), '\U{1f}');
    assert p3[|p.groupName|..] == LabelText(p.labels) && q3[|q.groupName|..] == LabelText(q.labels);
  }

  /** The keys and values of the labels do not contain the separators that LabelText puts around them. */
  predicate PlainLabels(labels: seq<(string, string)>) {
    forall l :: l in labels ==> '\U{1e}' !in l.0 && '\U{1f}' !in l.1
  }

  lemma {:induction false} LabelTextFront(l: (string, string), rest: seq<(string, string)>)
    ensures LabelText([l] + rest) == "\U{1f}" + (l.0 + ("\U{1e}" + (l.1 + LabelText(rest))))
  {
    if rest == [] {
      assert [l] + rest == [l] && [l][..0] == [];
      assert LabelText([l]) == LabelText([]) + ("\U{1f}" + l.0 + "\U{1e}" + l.1);
      assert l.1 + LabelText([]) == l.1;
    } else {
      var some, last := rest[..|rest| - 1], rest[|rest| - 1];
      LabelTextFront(l, some);
      assert ([l] + rest)[..|rest|] == [l] + some;
      var x := "\U{1f}" + last.0 + "\U{1e}" + last.1;
      assert LabelText([l] + rest) == LabelText([l] + some) + x;
      assert LabelText(rest) == LabelText(some) + x;
    }
  }

  lemma {:induction false} LabelTextTells(a: seq<(string, string)>, b: seq<(string, string)>)
    requires PlainLabels(a) && PlainLabels(b) && LabelText(a) == LabelText(b)
    ensures a == b
    decreases |a|
  {
    if a != [] && b != [] {
      assert a == [a[0]] + a[1..] && b == [b[0]] + b[1..];
      LabelTextFront(a[0], a[1..]);
      LabelTextFront(b[0], b[1..]);
      var x, y := a[0].0 + ("\U{1e}" + (a[0].1 + LabelText(a[1..]))), b[0].0 + ("\U{1e}" + (b[0].1 + LabelText(b[1..])));
      assert ("\U{1f}" + x)[1..] == x && ("\U{1f}" + y)[1..] == y;
      assert a[0] in a && b[0] in b;
      SplitAtMark(a[0].0, a[0].1 + LabelText(a[1..]), b[0].0, b[0].1 + LabelText(b[1..]), '\U{1e}');
      LabelTextStart(a[1..]);
      LabelTextStart(b[1..]);
      SplitAtLabels(a[0].1, LabelText(a[1..]), b[0].1, LabelText(b[1..]), '\U{1f}');
      assert (a[0].1 + LabelText(a[1..]))[|a[0].1|..] == LabelText(a[1..]) && (b[0].1 + LabelText(b[1..]))[|b[0].1|..] == LabelText(b[1..]);
      LabelTextTells(a[1..], b[1..]);
    }
  }

  /** Two entries have the same signature exactly when connection, names and labels agree. */
  lemma SameSignatureIff(p: Proxy, q: Proxy)
    requires Plain(p) && Plain(q) && PlainLabels(p.labels) && PlainLabels(q.labels)
    ensures Signature(p) == Signature(q) <==>
            p.revision == q.revision && p.name == q.name && p.subName == q.subName && p.groupName == q.groupName && p.labels == q.labels
  {
    if Signature(p) == Signature(q) {
      SignatureTells(p, q);
      LabelTextTells(p.labels, q.labels);
    }
  }

  /** The trimmed names have no separator in them. */
  predicate PlainDisplay(t: Text, p: Proxy) {
    '\0' !in t.lower(t.trim(t.protocolOf(p.revision))) && '\0' !in t.trim(p.subName) && '\0' !in t.trim(p.groupName)
  }

  /** Two entries are shown alike exactly when protocol, subscription, group and name agree, but for
      surrounding space and the case of the protocol. */
  lemma AlikeIff(t: Text, p: Proxy, q: Proxy)
    requires PlainDisplay(t, p) && PlainDisplay(t, q)
    ensures Alike(t, p, q) <==>
            && t.lower(t.trim(t.protocolOf(p.revision))) == t.lower(t.trim(t.protocolOf(q.revision)))
            && t.trim(p.subName) == t.trim(q.subName) && t.trim(p.groupName) == t.trim(q.groupName) && t.trim(p.name) == t.trim(q.name)
  {
    var a, b := t.lower(t.trim(t.protocolOf(p.revision))), t.lower(t.trim(t.protocolOf(q.revision)));
    var a1, b1 := t.trim(p.subName), t.trim(q.subName);
    var a2, b2 := t.trim(p.groupName), t.trim(q.groupName);
    var a3, b3 := t.trim(p.name), t.trim(q.name);
    assert Display(t, p) == a + ("\0" + (a1 + ("\0" + (a2 + ("\0" + a3)))));
    assert Display(t, q) == b + ("\0" + (b1 + ("\0" + (b2 + ("\0" + b3)))));
    if Alike(t, p, q) {
      SplitAtMark(a, a1 + ("\0" + (a2 + ("\0" + a3))), b, b1 + ("\0" + (b2 + ("\0" + b3))), '\0');
      SplitAtMark(a1, a2 + ("\0" + a3), b1, b2 + ("\0" + b3), '\0');
      SplitAtMark(a2, a3, b2, b3, '\0');
    }
  }

  ghost predicate Determines<S, T>(f: Proxy -> S, g: Proxy -> T, a: seq<Proxy>, b: seq<Proxy>) {
    forall p, q :: p in a && q in b && f(p) == f(q) ==> g(p) == g(q)
  }

  lemma ImageCut<T>(s: seq<Proxy>, i: nat, f: Proxy -> T)
    requires i < |s|
    ensures multiset(Image(s, f)) == multiset(Image(s[..i] + s[i + 1..], f)) + multiset{f(s[i])}
  {
    var a, b := Image(s, f)[..i], Image(s, f)[i + 1..];
    assert Image(s, f) == a + [f(s[i])] + b;
    assert Image(s[..i] + s[i + 1..], f) == a + b;
  }

  /** What is a function of the compared value agrees when the compared values do. */
  lemma {:induction false} DeterminedImages<S, T>(a: seq<Proxy>, b: seq<Proxy>, f: Proxy -> S, g: Proxy -> T)
    requires Determines(f, g, a, b) && multiset(Image(a, f)) == multiset(Image(b, f))
    ensures multiset(Image(a, g)) == multiset(Image(b, g))
  {
    assert |multiset(Image(a, f))| == |a| && |multiset(Image(b, f))| == |b|;
    if a == [] {
      assert Image(a, g) == Image(b, g);
    } else {
      var last := a[|a| - 1];
      assert Image(a, f)[|a| - 1] == f(last);
      NoneLeft(b, f, f(last));
      var j :| 0 <= j < |b| && f(b[j]) == f(last);
      var rest, others := a[..|a| - 1], b[..j] + b[j + 1..];
      assert a[..|a| - 1] + a[|a| - 1 + 1..] == rest;
      ImageCut(a, |a| - 1, f);
      ImageCut(b, j, f);
      ImageCut(a, |a| - 1, g);
      ImageCut(b, j, g);
      DeterminedWithout(a, b, f, g, j);
      Cancel(Image(a, f), Image(rest, f), Image(b, f), Image(others, f), f(last));
      DeterminedImages(rest, others, f, g);
      assert last in a && b[j] in b;
    }
  }

  lemma Cancel<T>(a: seq<T>, a': seq<T>, b: seq<T>, b': seq<T>, x: T)
    requires multiset(a) == multiset(a') + multiset{x} && multiset(b) == multiset(b') + multiset{x} && multiset(a) == multiset(b)
    ensures multiset(a') == multiset(b')
  {
    assert multiset(a') == multiset(a) - multiset{x};
    assert multiset(b') == multiset(b) - multiset{x};
  }

  lemma DeterminedWithout<S, T>(a: seq<Proxy>, b: seq<Proxy>, f: Proxy -> S, g: Proxy -> T, j: nat)
    requires Determines(f, g, a, b) && a != [] && j < |b|
    ensures Determines(f, g, a[..|a| - 1], b[..j] + b[j + 1..])
  {
  }

  /** When IsConfigsEqual finds no difference, there is nothing to plan. */
  lemma EqualConfigsGiveEmptyPlan(t: Text, prior: seq<Proxy>, news: seq<Proxy>)
    requires Distinct(prior) && Distinct(news) && forall p :: p in prior + news ==> Plain(p)
    requires multiset(Image(prior, Signature)) == multiset(Image(news, Signature))
    ensures Changes(t, PlanOf(t, prior, news)) == []
  {
    forall p, q | p in prior && q in news && Signature(p) == Signature(q) ensures MarkOf(t)(p) == MarkOf(t)(q) {
      assert p in prior + news && q in prior + news;
      SignatureTells(p, q);
    }
    DeterminedImages(prior, news, Signature, MarkOf(t));
    PlanEmptyIff(t, prior, news);
  }

  /** A name with the separator in it can hide a renaming from IsConfigsEqual. */
  lemma SeparatorHidesRenaming(t: Text, p: Proxy, q: Proxy)
    requires p.revision == q.revision && p.groupName == q.groupName == "" && p.labels == q.labels
    requires p.name == "a\U{1d}b" && p.subName == "c" && q.name == "a" && q.subName == "b\U{1d}c"
    requires forall x :: t.trim(x) == x
    ensures Signature(p) == Signature(q) && Changes(t, PlanOf(t, [p], [q])) != []
  {
    var l := LabelText(p.labels);
    assert "a\U{1d}b" + ("\U{1d}" + ("c" + ("\U{1d}" + ("" + l)))) == "a" + ("\U{1d}" + ("b\U{1d}c" + ("\U{1d}" + ("" + l))));
    var protocol := t.lower(t.trim(t.protocolOf(p.revision)));
    assert Display(t, p)[|protocol| + 1] == 'c';
    assert Display(t, q)[|protocol| + 1] == 'b';
    assert Marks(t, [p])[0] == MarkOf(t)(p) && Marks(t, [q])[0] == MarkOf(t)(q);
    assert multiset(Marks(t, [p])) != multiset(Marks(t, [q])) by {
      assert Marks(t, [p]) == [MarkOf(t)(p)] && Marks(t, [q]) == [MarkOf(t)(q)];
      assert multiset(Marks(t, [p]))[MarkOf(t)(p)] == 1;
    }
    PlanEmptyIff(t, [p], [q]);
  }

  method CountSignatures(s: seq<Proxy>) returns (counts: map<string, nat>)
    ensures forall k :: k in counts <==> k in Image(s, Signature)
    ensures forall k :: k in counts ==> counts[k] == multiset(Image(s, Signature))[k]
  {
    counts := map[];
    for i := 0 to |s|
      invariant forall k :: k in counts <==> k in Image(s[..i], Signature)
      invariant forall k :: k in counts ==> counts[k] == multiset(Image(s[..i], Signature))[k]
    {
      var sig := Signature(s[i]);
      assert s[..i + 1] == s[..i] + [s[i]];
      ImageAppend(s[..i], s[i], Signature);
      counts := counts[sig := (if sig in counts then counts[sig] else 0) + 1];
    }
    assert s[..|s|] == s;
  }

  /** IsConfigsEqual. */
  method IsConfigsEqual(prior: seq<Proxy>, news: seq<Proxy>) returns (equal: bool)
    ensures equal <==> multiset(Image(prior, Signature)) == multiset(Image(news, Signature))
  {
    if |prior| != |news| {
      assert |multiset(Image(prior, Signature))| == |prior| && |multiset(Image(news, Signature))| == |news|;
      return false;
    }
    var priorCounts := CountSignatures(prior);
    var newCounts := CountSignatures(news);
    ghost var a, b := multiset(Image(prior, Signature)), multiset(Image(news, Signature));
    if |priorCounts| != |newCounts| {
      assert a == b ==> priorCounts.Keys == newCounts.Keys;
      return false;
    }
    var pending := priorCounts.Keys;
    while pending != {}
      invariant pending <= priorCounts.Keys
      invariant forall k :: k in priorCounts && k !in pending ==> k in newCounts && newCounts[k] == priorCounts[k]
      decreases pending
    {
      var sig :| sig in pending;
      if sig !in newCounts || newCounts[sig] != priorCounts[sig] {
        assert a[sig] != b[sig];
        return false;
      }
      pending := pending - {sig};
    }
    SameKeys(priorCounts.Keys, newCounts.Keys);
    forall k ensures a[k] == b[k] {
      assert k in priorCounts <==> k in newCounts;
    }
    return true;
  }

  lemma SameKeys<T>(a: set<T>, b: set<T>)
    requires a <= b && |a| == |b|
    ensures a == b
  {
    assert |b - a| == |b| - |a|;
  }

  // ---- the pass as the original runs it ----

  type Buckets = map<string, seq<Proxy>>

  function BucketAt(buckets: Buckets, k: string): seq<Proxy> {
    if k in buckets then buckets[k] else []
  }

  /** The buckets hold the free old entries by key. */
  ghost predicate Filed(buckets: Buckets, key: Proxy -> string, free: seq<Proxy>) {
    forall k: string :: BucketAt(buckets, k) == Bucket(free, key, k)
  }

  method Collect(prior: seq<Proxy>, matched: set<Proxy>, key: Proxy -> string) returns (buckets: Buckets)
    ensures Filed(buckets, key, Outside(prior, matched))
  {
    buckets := map[];
    for i := 0 to |prior|
      invariant Filed(buckets, key, Outside(prior[..i], matched))
    {
      var p := prior[i];
      assert prior[..i + 1] == prior[..i] + [p];
      OutsideAppend(prior[..i], p, matched);
      if p !in matched {
        FiledAppend(buckets, key, Outside(prior[..i], matched), p);
        buckets := buckets[key(p) := BucketAt(buckets, key(p)) + [p]];
      }
    }
    assert prior[..|prior|] == prior;
  }

  lemma FiledAppend(buckets: Buckets, key: Proxy -> string, free: seq<Proxy>, p: Proxy)
    requires Filed(buckets, key, free)
    ensures Filed(buckets[key(p) := BucketAt(buckets, key(p)) + [p]], key, free + [p])
  {
    forall k: string ensures BucketAt(buckets[key(p) := BucketAt(buckets, key(p)) + [p]], k) == Bucket(free + [p], key, k) {
      assert BucketAt(buckets, k) == Bucket(free, key, k);
      BucketAppend(free, p, key, k);
    }
  }

  lemma FiledStep(buckets: Buckets, key: Proxy -> string, free: seq<Proxy>, k: string, i: nat)
    requires Filed(buckets, key, free) && Distinct(free) && i < |BucketAt(buckets, k)|
    ensures var c := BucketAt(buckets, k);
            Filed(buckets[k := c[..i] + c[i + 1..]], key, Outside(free, {c[i]}))
  {
    var c := BucketAt(buckets, k);
    var next := buckets[k := c[..i] + c[i + 1..]];
    BucketMembers(free, key, k);
    assert c == Bucket(free, key, k) && c[i] in c;
    forall k': string ensures BucketAt(next, k') == Bucket(Outside(free, {c[i]}), key, k') {
      assert BucketAt(buckets, k') == Bucket(free, key, k');
      BucketOutside(free, {c[i]}, key, k');
      if k' == k {
        OutsideCut(c, i);
      } else {
        BucketMembers(free, key, k');
        OutsideNone(Bucket(free, key, k'), {c[i]});
      }
    }
  }

  /** The search for a candidate that looks the same. */
  method FindCandidate(t: Text, candidates: seq<Proxy>, next: Proxy) returns (index: nat)
    requires candidates != []
    ensures index < |candidates| && candidates[index] == Choice(t, candidates, next)
  {
    index := 0;
    var i := 0;
    while i < |candidates|
      invariant i <= |candidates|
      invariant forall j :: 0 <= j < i ==> !Alike(t, candidates[j], next)
    {
      if Alike(t, candidates[i], next) {
        return i;
      }
      i := i + 1;
    }
  }

  /** The body of the loop in match, up to the choice. */
  method Pick(t: Text, key: Proxy -> string, next: Proxy, buckets: Buckets, ghost m: Pass)
    returns (previous: Proxy?, buckets': Buckets)
    requires Filed(buckets, key, m.free) && Distinct(m.free)
    ensures Filed(buckets', key, Paired(t, m, next, key).free)
    ensures previous == null ==> Paired(t, m, next, key) == m
    ensures previous != null ==> Paired(t, m, next, key) == Pass(Outside(m.free, {previous}), m.pairs + [Pair(previous, next)])
    ensures previous != null ==> previous in m.free
  {
    previous, buckets' := null, buckets;
    var candidates := BucketAt(buckets, key(next));
    if candidates != [] {
      ChoiceIsCandidate(t, candidates, next);
      BucketMembers(m.free, key, key(next));
      var index := FindCandidate(t, candidates, next);
      FiledStep(buckets, key, m.free, key(next), index);
      previous := candidates[index];
      buckets' := buckets[key(next) := candidates[..index] + candidates[index + 1..]];
    }
  }

  /** The change recorded for a pair. */
  method Record(t: Text, plan: seq<Change>, previous: Proxy, next: Proxy) returns (plan': seq<Change>)
    ensures plan' == plan + ReportOf(t, Pair(previous, next))
  {
    plan' := plan;
    if previous.revision != next.revision {
      plan' := plan + [Changed(previous, next)];
    } else if !Alike(t, previous, next) {
      plan' := plan + [Renamed(previous, next)];
    }
  }

  function NameIn(names: Names, p: Proxy): string {
    if p in names then names[p] else ""
  }

  /** The identities after every new entry has taken over the one of its partner. */
  function Carry(names: Names, pairs: seq<Pair>): Names {
    if pairs == [] then names
    else Carry(names, pairs[..|pairs| - 1])[pairs[|pairs| - 1].next := NameIn(names, pairs[|pairs| - 1].prior)]
  }

  lemma CarryAppend(names: Names, pairs: seq<Pair>, p: Pair)
    ensures Carry(names, pairs + [p]) == Carry(names, pairs)[p.next := NameIn(names, p.prior)]
  {
    assert (pairs + [p])[..|pairs|] == pairs;
  }

  lemma DistinctLast(s: seq<Proxy>, x: Proxy)
    requires Distinct(s + [x])
    ensures Distinct(s) && x !in s && forall i :: 0 <= i < |s| ==> s[i] != x
  {
    forall i | 0 <= i < |s| ensures s[i] != x {
      assert (s + [x])[i] == s[i] && (s + [x])[|s|] == x;
    }
    forall i, j | 0 <= i < j < |s| ensures s[i] != s[j] {
      assert (s + [x])[i] == s[i] && (s + [x])[j] == s[j];
    }
  }

  /** Carry gives partners their identity and leaves everyone else alone. */
  lemma {:induction false} CarryGives(names: Names, pairs: seq<Pair>)
    requires Distinct(Nexts(pairs)) && forall p :: p in Nexts(pairs) ==> p in names
    ensures Carry(names, pairs).Keys == names.Keys
    ensures forall i :: 0 <= i < |pairs| ==> NameIn(Carry(names, pairs), pairs[i].next) == NameIn(names, pairs[i].prior)
    ensures forall p :: p in names && p !in Nexts(pairs) ==> Carry(names, pairs)[p] == names[p]
  {
    if pairs != [] {
      var rest, last := pairs[..|pairs| - 1], pairs[|pairs| - 1];
      assert pairs == rest + [last];
      OldsAppend(rest, last);
      assert Nexts(pairs) == Nexts(rest) + [last.next];
      DistinctLast(Nexts(rest), last.next);
      CarryGives(names, rest);
      assert forall i :: 0 <= i < |rest| ==> Nexts(rest)[i] == rest[i].next;
    }
  }

  /** The sets of matched entries and the changes so far, in terms of the pairs made since `mo0`, `mn0` and `plan0`. */
  ghost predicate Tracked(t: Text, mo0: set<Proxy>, mn0: set<Proxy>, plan0: seq<Change>, pairs: seq<Pair>,
                          mo: set<Proxy>, mn: set<Proxy>, plan: seq<Change>)
  {
    && mo == mo0 + Elements(Olds(pairs)) && mn == mn0 + Elements(Nexts(pairs))
    && plan == plan0 + Reported(t, pairs)
  }

  lemma TrackedStep(t: Text, mo0: set<Proxy>, mn0: set<Proxy>, plan0: seq<Change>, pairs: seq<Pair>,
                    mo: set<Proxy>, mn: set<Proxy>, plan: seq<Change>, p: Pair)
    requires Tracked(t, mo0, mn0, plan0, pairs, mo, mn, plan)
    ensures Tracked(t, mo0, mn0, plan0, pairs + [p], mo + {p.prior}, mn + {p.next}, plan + ReportOf(t, p))
  {
    OldsAppend(pairs, p);
    assert (pairs + [p])[..|pairs|] == pairs;
    assert Elements(Olds(pairs) + [p.prior]) == Elements(Olds(pairs)) + {p.prior};
    assert Elements(Nexts(pairs) + [p.next]) == Elements(Nexts(pairs)) + {p.next};
    assert plan0 + Reported(t, pairs) + ReportOf(t, p) == plan0 + (Reported(t, pairs) + ReportOf(t, p));
  }

  lemma MatchingAppend(t: Text, prior: seq<Proxy>, news: seq<Proxy>, key: Proxy -> string, next: Proxy)
    ensures Matching(t, prior, news + [next], key) == Paired(t, Matching(t, prior, news, key), next, key)
  {
    assert (news + [next])[..|news|] == news;
  }

  /** One turn of the loop in match. */
  method Turn(t: Text, key: Proxy -> string, next: Proxy, buckets: Buckets, mo: set<Proxy>, mn: set<Proxy>, plan: seq<Change>,
              ghost m: Pass, ghost mo0: set<Proxy>, ghost mn0: set<Proxy>, ghost plan0: seq<Change>, ghost names: Names, ghost ids: Names)
    returns (buckets': Buckets, mo': set<Proxy>, mn': set<Proxy>, plan': seq<Change>, ghost m': Pass, ghost ids': Names)
    requires Filed(buckets, key, m.free) && Distinct(m.free) && Tracked(t, mo0, mn0, plan0, m.pairs, mo, mn, plan)
    requires ids == Carry(names, m.pairs) && Carries(ids)
    requires next in ids && forall p :: p in m.free ==> p in names && p != next && p in ids && ids[p] == names[p]
    modifies next
    ensures m' == Paired(t, m, next, key)
    ensures Filed(buckets', key, m'.free) && Tracked(t, mo0, mn0, plan0, m'.pairs, mo', mn', plan')
    ensures ids' == Carry(names, m'.pairs) && Carries(ids')
  {
    hide Filed, Tracked, Paired, Outside, Distinct, Carry;
    mo', mn', plan', m', ids' := mo, mn, plan, m, ids;
    var previous;
    previous, buckets' := Pick(t, key, next, buckets, m);
    if previous != null {
      m' := Pass(Outside(m.free, {previous}), m.pairs + [Pair(previous, next)]);
      TrackedStep(t, mo0, mn0, plan0, m.pairs, mo, mn, plan, Pair(previous, next));
      CarryAppend(names, m.pairs, Pair(previous, next));
      mo' := mo + {previous};
      mn' := mn + {next};
      plan' := Record(t, plan, previous, next);
      next.logicalID := previous.logicalID;
      ids' := ids[next := previous.logicalID];
    }
  }

  /** The entries of a pass that starts with `mo0` and `mn0` matched, read up to the `j`th new one. */
  ghost function PassTo(t: Text, key: Proxy -> string, prior: seq<Proxy>, newSet: seq<Proxy>, mo0: set<Proxy>, mn0: set<Proxy>, j: nat): Pass
    requires j <= |newSet|
  {
    Matching(t, Outside(prior, mo0), Outside(newSet[..j], mn0), key)
  }

  lemma PassStep(t: Text, key: Proxy -> string, prior: seq<Proxy>, newSet: seq<Proxy>, mo0: set<Proxy>, mn0: set<Proxy>, j: nat)
    requires j < |newSet|
    ensures PassTo(t, key, prior, newSet, mo0, mn0, j + 1) ==
            if newSet[j] in mn0 then PassTo(t, key, prior, newSet, mo0, mn0, j)
            else Paired(t, PassTo(t, key, prior, newSet, mo0, mn0, j), newSet[j], key)
  {
    assert newSet[..j + 1] == newSet[..j] + [newSet[j]];
    OutsideAppend(newSet[..j], newSet[j], mn0);
    MatchingAppend(t, Outside(prior, mo0), Outside(newSet[..j], mn0), key, newSet[j]);
  }

  /** What a turn may rely on. */
  lemma BeforeTurn(t: Text, key: Proxy -> string, prior: seq<Proxy>, newSet: seq<Proxy>, mo0: set<Proxy>, mn0: set<Proxy>, j: nat, names: Names)
    requires j < |newSet| && Distinct(prior) && Distinct(newSet) && Elements(prior) !! Elements(newSet)
    requires names.Keys == Elements(prior) + Elements(newSet)
    ensures var m := PassTo(t, key, prior, newSet, mo0, mn0, j);
            && Distinct(m.free) && newSet[j] !in Nexts(m.pairs) && newSet[j] in Carry(names, m.pairs)
            && forall p :: p in m.free ==> p in names && p != newSet[j] && p in Carry(names, m.pairs) && Carry(names, m.pairs)[p] == names[p]
  {
    var m := PassTo(t, key, prior, newSet, mo0, mn0, j);
    PassWithin(t, key, prior, newSet, mo0, mn0, j);
    hide PassTo, Distinct, Carry;
    assert forall p :: p in Nexts(m.pairs) ==> p in Elements(newSet);
    assert forall p :: p in m.free ==> p in Elements(prior);
    CarryGives(names, m.pairs);
  }

  lemma PassWithin(t: Text, key: Proxy -> string, prior: seq<Proxy>, newSet: seq<Proxy>, mo0: set<Proxy>, mn0: set<Proxy>, j: nat)
    requires j < |newSet| && Distinct(prior) && Distinct(newSet)
    ensures var m := PassTo(t, key, prior, newSet, mo0, mn0, j);
            && Distinct(m.free) && Within(m.free, prior)
            && Distinct(Nexts(m.pairs)) && Within(Nexts(m.pairs), newSet) && newSet[j] !in Nexts(m.pairs)
  {
    var ps, ns := Outside(prior, mo0), Outside(newSet[..j], mn0);
    OutsideWithin(prior, mo0);
    DistinctPrefix(newSet, j);
    OutsideWithin(newSet[..j], mn0);
    MatchingWithin(t, ps, ns, key);
    MatchingPairs(t, ps, ns, key);
    hide Outside, Matching, Distinct, Nexts;
    PrefixWithin(newSet, j);
  }

  lemma DistinctPrefix(s: seq<Proxy>, j: nat)
    requires j < |s| && Distinct(s)
    ensures Distinct(s[..j]) && s[j] !in s[..j]
  {
    NotElsewhere(s, j);
  }

  lemma PrefixWithin(s: seq<Proxy>, j: nat)
    requires j <= |s|
    ensures Within(s[..j], s)
  {
  }

  /** The two passes share this loop; `pairs` are the pairs it makes. */
  method Match(t: Text, key: Proxy -> string, prior: seq<Proxy>, newSet: seq<Proxy>, mo0: set<Proxy>, mn0: set<Proxy>, plan0: seq<Change>,
               ghost names: Names)
    returns (mo: set<Proxy>, mn: set<Proxy>, plan: seq<Change>, ghost m: Pass, ghost ids: Names)
    requires Distinct(prior) && Distinct(newSet) && Elements(prior) !! Elements(newSet)
    requires names.Keys == Elements(prior) + Elements(newSet) && Carries(names)
    modifies newSet
    ensures m == Matching(t, Outside(prior, mo0), Outside(newSet, mn0), key)
    ensures Tracked(t, mo0, mn0, plan0, m.pairs, mo, mn, plan) && ids == Carry(names, m.pairs) && Carries(ids)
  {
    mo, mn, plan, ids := mo0, mn0, plan0, names;
    var buckets := Collect(prior, mo, key);
    m := Pass(Outside(prior, mo0), []);
    assert Tracked(t, mo0, mn0, plan0, [], mo, mn, plan);
    hide Tracked, Filed, Distinct;
    for j := 0 to |newSet|
      invariant m == PassTo(t, key, prior, newSet, mo0, mn0, j)
      invariant Filed(buckets, key, m.free) && Tracked(t, mo0, mn0, plan0, m.pairs, mo, mn, plan)
      invariant ids == Carry(names, m.pairs) && Carries(ids)
    {
      var next := newSet[j];
      BeforeTurn(t, key, prior, newSet, mo0, mn0, j, names);
      PassStep(t, key, prior, newSet, mo0, mn0, j);
      TrackedTells(t, mo0, mn0, plan0, m.pairs, mo, mn, plan, next);
      if next !in mn {
        buckets, mo, mn, plan, m, ids := Turn(t, key, next, buckets, mo, mn, plan, m, mo0, mn0, plan0, names, ids);
      }
    }
    assert newSet[..|newSet|] == newSet;
  }

  lemma TrackedTells(t: Text, mo0: set<Proxy>, mn0: set<Proxy>, plan0: seq<Change>, pairs: seq<Pair>,
                     mo: set<Proxy>, mn: set<Proxy>, plan: seq<Change>, n: Proxy)
    requires Tracked(t, mo0, mn0, plan0, pairs, mo, mn, plan) && n !in Nexts(pairs)
    ensures n in mn <==> n in mn0
  {
  }

  // ---- PlanProxyUpdate ----

  predicate Earlier(t: Text, p: Proxy, q: Proxy) {
    Less(Display(t, p) + "\0" + p.revision, Display(t, q) + "\0" + q.revision)
  }

  function EarlierIn(t: Text): (Proxy, Proxy) -> bool { (p: Proxy, q: Proxy) => Earlier(t, p, q) }

  lemma EarlierIsOrder(t: Text, s: seq<Proxy>)
    ensures WeakOrderOn(s, EarlierIn(t))
  {
    forall x: Proxy, y: Proxy | Earlier(t, x, y) ensures !Earlier(t, y, x) {
      LessAsymmetric(Display(t, x) + "\0" + x.revision, Display(t, y) + "\0" + y.revision);
    }
    forall x: Proxy, y: Proxy, z: Proxy | !Earlier(t, y, x) && !Earlier(t, z, y) ensures !Earlier(t, z, x) {
      NotLessTransitive(Display(t, x) + "\0" + x.revision, Display(t, y) + "\0" + y.revision, Display(t, z) + "\0" + z.revision);
    }
  }

  /** What decides the order of two entries: the first of these that differs. */
  function Ranking(t: Text, p: Proxy): seq<string> {
    [t.lower(t.trim(t.protocolOf(p.revision))), t.trim(p.subName), t.trim(p.groupName), t.trim(p.name), p.revision]
  }

  /** The sets are sorted by protocol, subscription, group, name and revision, in this order. */
  lemma EarlierIff(t: Text, p: Proxy, q: Proxy)
    requires PlainDisplay(t, p) && PlainDisplay(t, q) && '\0' !in t.trim(p.name) && '\0' !in t.trim(q.name)
    ensures Earlier(t, p, q) <==> RanksBefore(Ranking(t, p), Ranking(t, q))
  {
    var a, b := Ranking(t, p), Ranking(t, q);
    var x3, y3 := a[3] + ("\0" + a[4]), b[3] + ("\0" + b[4]);
    var x2, y2 := a[2] + ("\0" + x3), b[2] + ("\0" + y3);
    var x1, y1 := a[1] + ("\0" + x2), b[1] + ("\0" + y2);
    assert Display(t, p) + "\0" + p.revision == a[0] + ("\0" + x1);
    assert Display(t, q) + "\0" + q.revision == b[0] + ("\0" + y1);
    LessAtMark(a[0], x1, b[0], y1);
    LessAtMark(a[1], x2, b[1], y2);
    LessAtMark(a[2], x3, b[2], y3);
    LessAtMark(a[3], a[4], b[3], b[4]);
    hide RanksBefore, Less;
    RanksFive(a, b);
  }

  lemma RanksFive(a: seq<string>, b: seq<string>)
    requires |a| == |b| == 5
    ensures RanksBefore(a, b) <==>
            Less(a[0], b[0]) || (a[0] == b[0] && (Less(a[1], b[1]) || (a[1] == b[1] && (Less(a[2], b[2]) || (a[2] == b[2] &&
            (Less(a[3], b[3]) || (a[3] == b[3] && Less(a[4], b[4]))))))))
  {
    assert a == [a[0]] + a[1..] && a[1..] == [a[1]] + a[2..] && a[2..] == [a[2]] + a[3..] && a[3..] == [a[3]] + a[4..] && a[4..] == [a[4]] + [];
    assert b == [b[0]] + b[1..] && b[1..] == [b[1]] + b[2..] && b[2..] == [b[2]] + b[3..] && b[3..] == [b[3]] + b[4..] && b[4..] == [b[4]] + [];
    RanksCons(a[0], a[1..], b[0], b[1..]);
    RanksCons(a[1], a[2..], b[1], b[2..]);
    RanksCons(a[2], a[3..], b[2], b[3..]);
    RanksCons(a[3], a[4..], b[3], b[4..]);
    RanksCons(a[4], [], b[4], []);
    assert !RanksBefore([], []);
    hide RanksBefore, Less;
  }

  /** The last two loops: what was not matched was added or removed. */
  method ListAdded(plan0: seq<Change>, newSet: seq<Proxy>, mn: set<Proxy>) returns (plan: seq<Change>)
    ensures plan == plan0 + AllAdded(Outside(newSet, mn))
  {
    plan := plan0;
    for i := 0 to |newSet|
      invariant plan == plan0 + AllAdded(Outside(newSet[..i], mn))
    {
      assert newSet[..i + 1] == newSet[..i] + [newSet[i]];
      OutsideAppend(newSet[..i], newSet[i], mn);
      if newSet[i] !in mn {
        plan := plan + [Added(newSet[i])];
      }
    }
    assert newSet[..|newSet|] == newSet;
  }

  method ListRemoved(plan0: seq<Change>, prior: seq<Proxy>, mo: set<Proxy>) returns (plan: seq<Change>)
    ensures plan == plan0 + AllRemoved(Outside(prior, mo))
  {
    plan := plan0;
    for i := 0 to |prior|
      invariant plan == plan0 + AllRemoved(Outside(prior[..i], mo))
    {
      assert prior[..i + 1] == prior[..i] + [prior[i]];
      OutsideAppend(prior[..i], prior[i], mo);
      if prior[i] !in mo {
        plan := plan + [Removed(prior[i])];
      }
    }
    assert prior[..|prior|] == prior;
  }

  /** The sets of matched entries tell what a pass leaves. */
  lemma PassLeaves(t: Text, prior: seq<Proxy>, news: seq<Proxy>, key: Proxy -> string, mo0: set<Proxy>, mn0: set<Proxy>, m: Pass)
    requires Distinct(prior) && Distinct(news) && m == Matching(t, Outside(prior, mo0), Outside(news, mn0), key)
    ensures m.free == Outside(prior, mo0 + Elements(Olds(m.pairs)))
    ensures Outside(news, mn0 + Elements(Nexts(m.pairs))) == Unpaired(Outside(news, mn0), m.pairs)
  {
    OutsideWithin(prior, mo0);
    OutsideWithin(news, mn0);
    MatchingPairs(t, Outside(prior, mo0), Outside(news, mn0), key);
    OutsideTwice(news, mn0, Elements(Nexts(m.pairs)));
    OutsideTwice(prior, mo0, Elements(Olds(m.pairs)));
  }

  /** Two passes tracked by sets are the plan. */
  lemma PassesMakePlan(t: Text, prior: seq<Proxy>, news: seq<Proxy>, one: Pass, two: Pass, mo1: set<Proxy>, mn1: set<Proxy>, plan1: seq<Change>,
                       mo: set<Proxy>, mn: set<Proxy>, plan: seq<Change>)
    requires Distinct(prior) && Distinct(news)
    requires one == Matching(t, Outside(prior, {}), Outside(news, {}), RevisionOf) && Tracked(t, {}, {}, [], one.pairs, mo1, mn1, plan1)
    requires two == Matching(t, Outside(prior, mo1), Outside(news, mn1), DisplayOf(t)) && Tracked(t, mo1, mn1, plan1, two.pairs, mo, mn, plan)
    ensures PlanOf(t, prior, news) == Outcome(one.pairs, two.pairs, Outside(news, mn), Outside(prior, mo))
    ensures plan == Reported(t, one.pairs) + Reported(t, two.pairs)
  {
    hide Matching, Outside, Distinct;
    OutsideNone(prior, {});
    OutsideNone(news, {});
    PassLeaves(t, prior, news, RevisionOf, {}, {}, one);
    PassLeaves(t, prior, news, DisplayOf(t), mo1, mn1, two);
    assert mo1 == {} + Elements(Olds(one.pairs)) && mn1 == {} + Elements(Nexts(one.pairs));
    assert {} + Elements(Nexts(one.pairs)) == Elements(Nexts(one.pairs));
  }

  // ---- identities ----

  /** The identities that the new entries hold when the last AssignLogicalIDs starts: a paired
      one holds its partner's, the others what they came with. */
  ghost predicate Holds(o: Outcome, names: Names, held: Names) {
    && held.Keys == Elements(Nexts(o.Pairs())) + (set n | n in o.added && NameIn(names, n) != "")
    && (forall i :: 0 <= i < |o.Pairs()| ==> NameIn(held, o.Pairs()[i].next) == NameIn(names, o.Pairs()[i].prior))
    && (forall n :: n in o.added && n in held ==> held[n] == NameIn(names, n))
  }

  /** No added entry came with the identity of a paired old entry or of another added one. */
  ghost predicate PresetsClear(o: Outcome, names: Names) {
    forall n :: n in o.added && NameIn(names, n) != "" ==>
      && (forall i :: 0 <= i < |o.Pairs()| ==> NameIn(names, o.Pairs()[i].prior) != NameIn(names, n))
      && (forall m :: m in o.added && m != n ==> NameIn(names, m) != NameIn(names, n))
  }

  ghost predicate AllDistinct(ids: Names) {
    forall p, q :: p in ids && q in ids && p != q ==> ids[p] != ids[q]
  }

  /** No entry is paired twice, on either side, and a paired new entry is not added. */
  lemma PlanPairsOnce(t: Text, prior: seq<Proxy>, news: seq<Proxy>)
    requires Distinct(prior) && Distinct(news)
    ensures var o := PlanOf(t, prior, news);
            && Distinct(Olds(o.Pairs())) && Distinct(Nexts(o.Pairs()))
            && Within(Olds(o.Pairs()), prior)
            && Elements(news) == Elements(Nexts(o.Pairs())) + Elements(o.added)
            && Elements(Nexts(o.Pairs())) !! Elements(o.added)
  {
    var o := PlanOf(t, prior, news);
    PlanIsMatching(t, prior, news);
    hide PlanOf, Distinct, Olds, Nexts, Elements;
    ConcatPairs(o.first, o.second);
    PartDistinct(prior, Olds(o.first), Olds(o.second), o.removed);
    PartDistinct(news, Nexts(o.first), Nexts(o.second), o.added);
  }

  lemma ConcatPairs(a: seq<Pair>, b: seq<Pair>)
    ensures Olds(a + b) == Olds(a) + Olds(b) && Nexts(a + b) == Nexts(a) + Nexts(b)
  {
  }

  lemma PartDistinct(s: seq<Proxy>, a: seq<Proxy>, b: seq<Proxy>, c: seq<Proxy>)
    requires Distinct(s) && multiset(s) == multiset(a) + multiset(b) + multiset(c)
    ensures Distinct(a + b) && Within(a + b, s) && Elements(s) == Elements(a + b) + Elements(c) && Elements(a + b) !! Elements(c)
  {
    var d := a + b;
    assert multiset(d) == multiset(a) + multiset(b);
    assert multiset(d + c) == multiset(d) + multiset(c);
    DistinctElements(s, d + c);
    SameElements(s, d + c);
    PartsOfDistinct(d, c);
  }

  lemma PartsOfDistinct(a: seq<Proxy>, b: seq<Proxy>)
    requires Distinct(a + b)
    ensures Distinct(a) && Elements(a + b) == Elements(a) + Elements(b) && Elements(a) !! Elements(b)
  {
    assert forall i :: 0 <= i < |a| ==> (a + b)[i] == a[i];
    assert forall i :: 0 <= i < |b| ==> (a + b)[|a| + i] == b[i];
  }

  lemma DistinctHeldIsClear(o: Outcome, names: Names, held: Names)
    requires Holds(o, names, held) && Elements(Nexts(o.Pairs())) !! Elements(o.added) && AllDistinct(held)
    ensures PresetsClear(o, names)
  {
    var pairs := o.Pairs();
    forall n, i | n in o.added && NameIn(names, n) != "" && 0 <= i < |pairs| ensures NameIn(names, pairs[i].prior) != NameIn(names, n) {
      PairIsHeld(o, names, held, i);
      assert n in Elements(o.added) && n in held;
    }
    forall n, m | n in o.added && NameIn(names, n) != "" && m in o.added && m != n ensures NameIn(names, m) != NameIn(names, n) {
      assert n in held && (m in held || NameIn(names, m) == "");
    }
  }

  /** A held identity is carried over from an old entry, or the preset of an added one. */
  lemma HeldIsCarriedOrPreset(o: Outcome, names: Names, held: Names, p: Proxy)
    requires Holds(o, names, held) && p in held
    ensures (exists i :: 0 <= i < |o.Pairs()| && o.Pairs()[i].next == p) || (p in o.added && held[p] == NameIn(names, p) != "")
  {
    if p in Nexts(o.Pairs()) {
      var i :| 0 <= i < |o.Pairs()| && Nexts(o.Pairs())[i] == p;
      assert o.Pairs()[i].next == p;
    }
  }

  lemma ClearHeldDiffer(o: Outcome, names: Names, held: Names, p: Proxy, q: Proxy)
    requires Holds(o, names, held) && Distinct(Olds(o.Pairs())) && PresetsClear(o, names)
    requires forall p, q :: p in Olds(o.Pairs()) && q in Olds(o.Pairs()) && p != q ==> NameIn(names, p) != NameIn(names, q)
    requires p in held && q in held && p != q
    ensures held[p] != held[q]
  {
    var pairs := o.Pairs();
    HeldIsCarriedOrPreset(o, names, held, p);
    HeldIsCarriedOrPreset(o, names, held, q);
    if i :| 0 <= i < |pairs| && pairs[i].next == p {
      PairIsHeld(o, names, held, i);
      if j :| 0 <= j < |pairs| && pairs[j].next == q {
        PairIsHeld(o, names, held, j);
        assert Olds(pairs)[i] != Olds(pairs)[j];
      }
    } else {
      if j :| 0 <= j < |pairs| && pairs[j].next == q {
        PairIsHeld(o, names, held, j);
      }
    }
  }

  lemma HeldDistinctIff(o: Outcome, names: Names, held: Names)
    requires Holds(o, names, held) && Distinct(Olds(o.Pairs())) && Elements(Nexts(o.Pairs())) !! Elements(o.added)
    requires forall p, q :: p in Olds(o.Pairs()) && q in Olds(o.Pairs()) && p != q ==> NameIn(names, p) != NameIn(names, q)
    ensures AllDistinct(held) <==> PresetsClear(o, names)
  {
    if AllDistinct(held) {
      DistinctHeldIsClear(o, names, held);
    }
    if PresetsClear(o, names) {
      hide Holds, PresetsClear;
      forall p, q | p in held && q in held && p != q ensures held[p] != held[q] {
        ClearHeldDiffer(o, names, held, p, q);
      }
    }
  }

  lemma PairIsHeld(o: Outcome, names: Names, held: Names, i: nat)
    requires Holds(o, names, held) && i < |o.Pairs()|
    ensures var p := o.Pairs()[i];
            p.next in held && held[p.next] == NameIn(names, p.prior)
            && p.next in Nexts(o.Pairs()) && p.prior in Olds(o.Pairs()) && Olds(o.Pairs())[i] == p.prior
  {
    assert Nexts(o.Pairs())[i] in Nexts(o.Pairs()) && Olds(o.Pairs())[i] in Olds(o.Pairs());
    assert o.Pairs()[i].next in Elements(Nexts(o.Pairs()));
  }

  /** If the old identities are distinct, the new ones are exactly when no added entry came with
      an identity that a pair carried over or another added entry came with. */
  lemma IdentitiesDistinctIff(t: Text, s: Suffixes, prior: seq<Proxy>, news: seq<Proxy>, names: Names, held: Names,
                              ids: Names, nth: map<Proxy, nat>)
    requires Distinct(prior) && Distinct(news)
    requires forall p, q :: p in prior && q in prior && p != q ==> NameIn(names, p) != NameIn(names, q)
    requires Holds(PlanOf(t, prior, news), names, held) && Settled(s, held, ids, nth, |news|)
    ensures AllDistinct(ids) <==> PresetsClear(PlanOf(t, prior, news), names)
  {
    PlanPairsOnce(t, prior, news);
    HeldDistinctIff(PlanOf(t, prior, news), names, held);
    DistinctIffPresets(s, held, ids, nth, |news|);
  }

  /** Entries that come without an identity never collide. */
  lemma NoPresetsNoCollision(t: Text, s: Suffixes, prior: seq<Proxy>, news: seq<Proxy>, names: Names, held: Names,
                             ids: Names, nth: map<Proxy, nat>)
    requires Distinct(prior) && Distinct(news)
    requires forall p, q :: p in prior && q in prior && p != q ==> NameIn(names, p) != NameIn(names, q)
    requires Holds(PlanOf(t, prior, news), names, held) && Settled(s, held, ids, nth, |news|)
    requires forall n :: n in news ==> NameIn(names, n) == ""
    ensures AllDistinct(ids)
  {
    PlanPairsOnce(t, prior, news);
    hide PlanOf, Distinct, Holds, Settled, AllDistinct;
    forall n | n in PlanOf(t, prior, news).added ensures NameIn(names, n) == "" {
      assert n in Elements(news);
    }
    IdentitiesDistinctIff(t, s, prior, news, names, held, ids, nth);
  }

  /** The only new entry of a revision that an old one has is paired in the first pass, ... */
  lemma SoleOfRevisionIsPaired(t: Text, prior: seq<Proxy>, news: seq<Proxy>, n: Proxy, q: Proxy)
    requires Distinct(prior) && Distinct(news) && n in news && q in prior && q.revision == n.revision
    requires forall m :: m in news && m.revision == n.revision ==> m == n
    ensures n in Nexts(Matching(t, prior, news, RevisionOf).pairs)
  {
    var one := Matching(t, prior, news, RevisionOf);
    MatchingPairs(t, prior, news, RevisionOf);
    LeftoversApart(t, prior, news, RevisionOf);
    OutsideMembers(prior, Elements(Olds(one.pairs)));
    OutsideMembers(news, Elements(Nexts(one.pairs)));
    hide Matching, Outside, Distinct;
    if n !in Nexts(one.pairs) {
      assert n in Unpaired(news, one.pairs) && RevisionOf(q) == RevisionOf(n);
      assert q !in one.free;
      PartnerOf(one.pairs, q);
    }
  }

  lemma PartnerOf(pairs: seq<Pair>, q: Proxy)
    requires PairedBy(RevisionOf, pairs) && q in Olds(pairs)
    ensures exists m :: m in Nexts(pairs) && m.revision == q.revision
  {
    var i :| 0 <= i < |pairs| && Olds(pairs)[i] == q;
    assert Nexts(pairs)[i] in Nexts(pairs) && RevisionOf(pairs[i].prior) == RevisionOf(pairs[i].next);
  }

  /** ... and not added. */
  lemma SoleOfRevisionIsKept(t: Text, prior: seq<Proxy>, news: seq<Proxy>, n: Proxy, q: Proxy)
    requires Distinct(prior) && Distinct(news) && n in news && q in prior && q.revision == n.revision
    requires forall m :: m in news && m.revision == n.revision ==> m == n
    ensures n !in PlanOf(t, prior, news).added
  {
    var one := Matching(t, prior, news, RevisionOf);
    var rest := Unpaired(news, one.pairs);
    SoleOfRevisionIsPaired(t, prior, news, n, q);
    OutsideMembers(news, Elements(Nexts(one.pairs)));
    OutsideMembers(rest, Elements(Nexts(Matching(t, one.free, rest, DisplayOf(t)).pairs)));
    hide Matching, Outside, Distinct;
  }

  /** Where an entry comes with the identity of an old one, its revision is an old one, and it is the
      only new entry of that revision. */
  ghost predicate PresetsStable(prior: seq<Proxy>, news: seq<Proxy>, names: Names) {
    forall n, q :: n in news && q in prior && NameIn(names, n) == NameIn(names, q) != "" ==>
      (exists o :: o in prior && o.revision == n.revision) && forall m :: m in news && m.revision == n.revision ==> m == n
  }

  /** A condition on the two sets alone: entries that come with distinct identities, and with an old
      one only where the revision is kept, never collide. */
  lemma StablePresetsDontCollide(t: Text, s: Suffixes, prior: seq<Proxy>, news: seq<Proxy>, names: Names, held: Names,
                                 ids: Names, nth: map<Proxy, nat>)
    requires Distinct(prior) && Distinct(news)
    requires forall p, q :: p in prior && q in prior && p != q ==> NameIn(names, p) != NameIn(names, q)
    requires Holds(PlanOf(t, prior, news), names, held) && Settled(s, held, ids, nth, |news|)
    requires forall n, m :: n in news && m in news && n != m && NameIn(names, n) != "" ==> NameIn(names, n) != NameIn(names, m)
    requires PresetsStable(prior, news, names)
    ensures AllDistinct(ids)
  {
    var o := PlanOf(t, prior, news);
    PlanPairsOnce(t, prior, news);
    IdentitiesDistinctIff(t, s, prior, news, names, held, ids, nth);
    hide PlanOf, Distinct, Holds, Settled, AllDistinct;
    forall n | n in o.added && NameIn(names, n) != ""
      ensures forall i :: 0 <= i < |o.Pairs()| ==> NameIn(names, o.Pairs()[i].prior) != NameIn(names, n)
      ensures forall m :: m in o.added && m != n ==> NameIn(names, m) != NameIn(names, n)
    {
      assert n in Elements(news) && forall m :: m in o.added ==> m in Elements(news);
      forall i | 0 <= i < |o.Pairs()| ensures NameIn(names, o.Pairs()[i].prior) != NameIn(names, n) {
        assert Olds(o.Pairs())[i] in prior;
        if NameIn(names, o.Pairs()[i].prior) == NameIn(names, n) {
          var q :| q in prior && q.revision == n.revision;
          SoleOfRevisionIsKept(t, prior, news, n, q);
          assert false;
        }
      }
    }
  }

  lemma OnlyOneMatches(t: Text, successor: Proxy, kept: Proxy, returned: Proxy)
    requires kept.revision == successor.revision && Display(t, kept) == Display(t, successor) && returned.revision != kept.revision
    ensures Matching(t, [successor], [kept, returned], RevisionOf) == Pass([], [Pair(successor, kept)])
    ensures Matching(t, [successor], [returned, kept], RevisionOf) == Pass([], [Pair(successor, kept)])
  {
    var prior := [successor];
    var start, m := Pass(prior, []), Pass([], [Pair(successor, kept)]);
    assert prior[..0] == [];
    assert Bucket(prior, RevisionOf, RevisionOf(kept)) == [successor];
    assert Bucket(prior, RevisionOf, RevisionOf(returned)) == [];
    assert FirstAlike(t, [successor], kept) == 0;
    assert Outside(prior, {successor}) == [];
    assert Paired(t, start, kept, RevisionOf) == m && Paired(t, m, returned, RevisionOf) == m && Paired(t, start, returned, RevisionOf) == start;
    hide Paired, Bucket;
    MatchingTwo(t, prior, kept, returned);
    MatchingTwo(t, prior, returned, kept);
  }

  lemma MatchingTwo(t: Text, prior: seq<Proxy>, a: Proxy, b: Proxy)
    ensures Matching(t, prior, [a, b], RevisionOf) == Paired(t, Paired(t, Pass(prior, []), a, RevisionOf), b, RevisionOf)
  {
    var one, both := [a], [a, b];
    assert both[..1] == one && one[..0] == [];
    assert Matching(t, prior, one, RevisionOf) == Paired(t, Pass(prior, []), a, RevisionOf);
  }

  lemma NoneToMatch(t: Text, next: Proxy)
    ensures Matching(t, [], [next], DisplayOf(t)) == Pass([], [])
    ensures Outside([next], {}) == [next]
  {
    var rest := [next];
    assert rest[..0] == [];
  }

  lemma OneOfTwo(kept: Proxy, returned: Proxy)
    requires kept != returned
    ensures Outside([kept, returned], {kept}) == [returned] && Outside([returned, kept], {kept}) == [returned]
  {
    var both, other := [kept, returned], [returned, kept];
    assert both[..1] == [kept] && other[..1] == [returned];
    assert Outside([kept], {kept}) == [] && Outside([returned], {kept}) == [returned];
  }

  /** An entry with a new connection and the same display takes over in the second pass. */
  lemma SuccessorTakesOver(t: Text, original: Proxy, successor: Proxy)
    requires original.revision != successor.revision && Display(t, original) == Display(t, successor)
    ensures PlanOf(t, [original], [successor]) == Outcome([], [Pair(original, successor)], [], [])
  {
    MatchingOne(t, original, successor, RevisionOf);
    MatchingOne(t, original, successor, DisplayOf(t));
    assert Nexts([]) == [] && Elements<Proxy>([]) == {};
    NoneToMatch(t, successor);
    assert Nexts([Pair(original, successor)]) == [successor] && Elements([successor]) == {successor};
    OneOut(successor);
    hide Matching, Outside, Nexts;
  }

  lemma OneOut(p: Proxy)
    ensures Outside([p], {p}) == []
  {
    var s := [p];
    assert s[..0] == [] && Outside([], {p}) == [];
  }

  lemma MatchingOne(t: Text, prior: Proxy, next: Proxy, key: Proxy -> string)
    ensures Matching(t, [prior], [next], key) == if key(prior) == key(next) then Pass([], [Pair(prior, next)]) else Pass([prior], [])
  {
    BucketOne(prior, key, key(next));
    OneOut(prior);
    MatchingIsPaired(t, [prior], next, key);
    assert Choice(t, [prior], next) == prior;
    hide Matching, Bucket, Outside, FirstAlike;
  }

  lemma BucketOne(p: Proxy, key: Proxy -> string, k: string)
    ensures Bucket([p], key, k) == if key(p) == k then [p] else []
  {
    var s := [p];
    assert s[..0] == [] && Bucket([], key, k) == [];
  }

  lemma MatchingIsPaired(t: Text, prior: seq<Proxy>, next: Proxy, key: Proxy -> string)
    ensures Matching(t, prior, [next], key) == Paired(t, Pass(prior, []), next, key)
  {
    var news := [next];
    assert news[..0] == [] && Matching(t, prior, [], key) == Pass(prior, []);
    hide Paired;
  }

  lemma ReturnIsAdded(t: Text, successor: Proxy, kept: Proxy, returned: Proxy, news: seq<Proxy>)
    requires kept.revision == successor.revision && Display(t, kept) == Display(t, successor) && returned.revision != kept.revision
    requires news == [kept, returned] || news == [returned, kept]
    ensures PlanOf(t, [successor], news) == Outcome([Pair(successor, kept)], [], [returned], [])
  {
    OnlyOneMatches(t, successor, kept, returned);
    var pairs := [Pair(successor, kept)];
    assert Nexts(pairs) == [kept] && Elements([kept]) == {kept};
    OneOfTwo(kept, returned);
    NoneToMatch(t, returned);
    assert Nexts([]) == [] && Elements<Proxy>([]) == {};
    hide Matching, Outside, Nexts;
  }

  /** An endpoint's identity is carried over to its successor, because they look the same.  The
      endpoint comes back to the pool with its deterministic identity while the successor is kept,
      and the two end up with the same identity. */
  lemma ReturnCollides(t: Text, s: Suffixes, original: Proxy, successor: Proxy, kept: Proxy, returned: Proxy, news: seq<Proxy>,
                       names: Names, held: Names, ids: Names, nth: map<Proxy, nat>,
                       names': Names, held': Names, ids': Names, nth': map<Proxy, nat>)
    requires original.revision != successor.revision && Display(t, original) == Display(t, successor) && NameIn(names, original) != ""
    requires Holds(PlanOf(t, [original], [successor]), names, held) && Settled(s, held, ids, nth, 1)
    requires kept.revision == successor.revision && Display(t, kept) == Display(t, successor)
    requires returned.revision == original.revision && (news == [kept, returned] || news == [returned, kept])
    requires NameIn(names', successor) == NameIn(ids, successor) && NameIn(names', returned) == NameIn(names, original)
    requires Holds(PlanOf(t, [successor], news), names', held') && Settled(s, held', ids', nth', 2)
    ensures kept != returned && kept in ids' && returned in ids' && ids'[kept] == ids'[returned] == NameIn(names, original)
  {
    SuccessorTakesOver(t, original, successor);
    ReturnIsAdded(t, successor, kept, returned, news);
    hide PlanOf;
    PairIsHeld(PlanOf(t, [original], [successor]), names, held, 0);
    PairIsHeld(PlanOf(t, [successor], news), names', held', 0);
  }

  /** Carrying over in two passes is carrying over once. */
  lemma {:induction false} CarryTwice(names: Names, a: seq<Pair>, b: seq<Pair>)
    requires Distinct(Nexts(a)) && forall p :: p in Nexts(a) ==> p in names
    requires forall p :: p in Olds(b) ==> p !in Nexts(a)
    ensures Carry(Carry(names, a), b) == Carry(names, a + b)
  {
    if b == [] {
      assert a + b == a;
    } else {
      var rest, last := b[..|b| - 1], b[|b| - 1];
      assert b == rest + [last] && a + b == (a + rest) + [last];
      OldsAppend(rest, last);
      CarryTwice(names, a, rest);
      CarryAppend(names, a + rest, last);
      CarryGives(names, a);
      assert last.prior in Olds(b) by {
        assert Olds(b)[|rest|] == last.prior;
      }
    }
  }

  /** The identities after both passes are what the new entries hold. */
  lemma CarriedHolds(o: Outcome, names: Names, prior: seq<Proxy>, news: seq<Proxy>, ids: Names, held: Names)
    requires Distinct(Nexts(o.Pairs())) && Elements(news) == Elements(Nexts(o.Pairs())) + Elements(o.added)
    requires Elements(Nexts(o.Pairs())) !! Elements(o.added)
    requires names.Keys == Elements(prior) + Elements(news) && ids == Carry(names, o.Pairs())
    requires Within(Olds(o.Pairs()), prior) && forall p :: p in prior ==> names[p] != ""
    requires held == map n | n in news && n in ids && ids[n] != "" :: ids[n]
    ensures Holds(o, names, held)
  {
    var pairs := o.Pairs();
    forall p | p in Nexts(pairs) ensures p in names {
      assert p in Elements(Nexts(pairs));
    }
    CarryGives(names, pairs);
    forall i | 0 <= i < |pairs| ensures pairs[i].next in held && NameIn(held, pairs[i].next) == NameIn(names, pairs[i].prior) {
      assert Nexts(pairs)[i] in Elements(Nexts(pairs)) && Olds(pairs)[i] in Olds(pairs);
      assert pairs[i].next in Elements(news);
    }
    forall n | n in o.added ensures n in news && n in ids && ids[n] == NameIn(names, n) {
      assert n in Elements(o.added) && n in Elements(news);
    }
    forall p ensures p in held.Keys <==> p in Elements(Nexts(pairs)) || p in (set n | n in o.added && NameIn(names, n) != "") {
      if p in Nexts(pairs) {
        var i :| 0 <= i < |pairs| && Nexts(pairs)[i] == p;
        assert pairs[i].next in held;
      }
      if p in held {
        assert p in Elements(news);
      }
    }
  }

  /** Both passes over the sorted sets. */
  method MatchTwice(t: Text, prior: seq<Proxy>, newSet: seq<Proxy>, ghost names: Names)
    returns (mo: set<Proxy>, mn: set<Proxy>, plan: seq<Change>, ghost ids: Names)
    requires Distinct(prior) && Distinct(newSet) && Elements(prior) !! Elements(newSet)
    requires names.Keys == Elements(prior) + Elements(newSet) && Carries(names)
    modifies newSet
    ensures var o := PlanOf(t, prior, newSet);
            && o.added == Outside(newSet, mn) && o.removed == Outside(prior, mo)
            && plan == Reported(t, o.first) + Reported(t, o.second)
            && ids == Carry(names, o.Pairs())
    ensures Carries(ids)
  {
    ghost var one, two, ids1;
    mo, mn, plan, one, ids1 := Match(t, RevisionOf, prior, newSet, {}, {}, [], names);
    ghost var mo1, mn1, plan1 := mo, mn, plan;
    FirstPassFacts(t, prior, newSet, one, names);
    mo, mn, plan, two, ids := Match(t, DisplayOf(t), prior, newSet, mo, mn, plan, ids1);
    PassesMakePlan(t, prior, newSet, one, two, mo1, mn1, plan1, mo, mn, plan);
    SecondPassFacts(t, prior, newSet, names);
  }

  lemma FirstPassFacts(t: Text, prior: seq<Proxy>, news: seq<Proxy>, one: Pass, names: Names)
    requires Distinct(prior) && Distinct(news) && names.Keys == Elements(prior) + Elements(news)
    requires one == Matching(t, Outside(prior, {}), Outside(news, {}), RevisionOf)
    ensures Carry(names, one.pairs).Keys == names.Keys
  {
    OutsideNone(prior, {});
    OutsideNone(news, {});
    MatchingPairs(t, prior, news, RevisionOf);
    assert forall p :: p in Nexts(one.pairs) ==> p in Elements(news);
    CarryGives(names, one.pairs);
  }

  lemma SecondPassFacts(t: Text, prior: seq<Proxy>, news: seq<Proxy>, names: Names)
    requires Distinct(prior) && Distinct(news) && Elements(prior) !! Elements(news) && names.Keys == Elements(prior) + Elements(news)
    ensures var o := PlanOf(t, prior, news);
            Carry(Carry(names, o.first), o.second) == Carry(names, o.Pairs())
  {
    var o := PlanOf(t, prior, news);
    PlanPairsOnce(t, prior, news);
    ConcatPairs(o.first, o.second);
    PartsOfDistinct(Nexts(o.first), Nexts(o.second));
    hide PlanOf, Distinct, Olds, Nexts, Carry;
    forall p | p in Nexts(o.first) ensures p in Elements(news) {
      assert p in Elements(Nexts(o.first));
    }
    forall p | p in Olds(o.second) ensures p in Elements(prior) {
      assert p in Olds(o.Pairs());
    }
    CarryTwice(names, o.first, o.second);
  }

  lemma SortedInside(r: seq<Proxy>, s: seq<Proxy>)
    requires multiset(r) == multiset(s)
    ensures forall i :: 0 <= i < |r| ==> r[i] in s
    ensures |r| == |s| && Elements(r) == Elements(s)
  {
    SameElements(r, s);
  }

  /** The identities of the entries of `s`. */
  function Only(names: Names, s: set<Proxy>): Names {
    map p | p in names && p in s :: names[p]
  }

  /** What the new entries hold when the matching is done. */
  lemma CarriedOver(t: Text, prior: seq<Proxy>, news: seq<Proxy>, names: Names, ids: Names)
    requires Distinct(prior) && Distinct(news) && Elements(prior) !! Elements(news)
    requires names.Keys == Elements(prior) + Elements(news) && forall p :: p in prior ==> names[p] != ""
    requires ids == Carry(names, PlanOf(t, prior, news).Pairs()) && Carries(ids)
    ensures NamesOf(Only(ids, Elements(news)), news)
    ensures Holds(PlanOf(t, prior, news), names, Presets(Only(ids, Elements(news))))
  {
    PlanPairsOnce(t, prior, news);
    hide Distinct, Holds, PlanOf, Carry;
    CarriedKeys(news, names, PlanOf(t, prior, news), ids);
    CarriedHolds(PlanOf(t, prior, news), names, prior, news, ids, Presets(Only(ids, Elements(news))));
  }

  /** The part of PlanProxyUpdate that works on the sorted sets. */
  method PlanSorted(s: Suffixes, t: Text, prior: seq<Proxy>, newSet: seq<Proxy>, ghost names: Names, ghost kept: Names)
    returns (plan: seq<Change>, ghost held: Names, ghost final: Names, ghost nth: map<Proxy, nat>)
    requires Distinct(prior) && Distinct(newSet) && Elements(prior) !! Elements(newSet) && s.Injective(|newSet|)
    requires names.Keys == Elements(prior) + Elements(newSet) && Carries(names) && forall p :: p in prior ==> names[p] != ""
    requires Carries(kept) && kept.Keys !! Elements(newSet)
    modifies newSet
    ensures Carries(kept) && NamesOf(final, newSet)
    ensures plan == Changes(t, PlanOf(t, prior, newSet))
    ensures Holds(PlanOf(t, prior, newSet), names, held)
    ensures Settled(s, held, final, nth, |newSet|)
  {
    var mo, mn;
    ghost var ids;
    assert forall p :: p in newSet ==> p in Elements(newSet) && p !in kept;
    hide Distinct, Settled, Holds, PlanOf, Carry, Outside, Reported, Only, Presets;
    mo, mn, plan, ids := MatchTwice(t, prior, newSet, names);
    ghost var before := Only(ids, Elements(newSet));
    CarriedOver(t, prior, newSet, names, ids);
    held := Presets(before);
    final, nth := AssignLogicalIDs(s, newSet, before);
    plan := ListAdded(plan, newSet, mn);
    plan := ListRemoved(plan, prior, mo);
  }

  lemma CarriedKeys(news: seq<Proxy>, names: Names, o: Outcome, ids: Names)
    requires ids == Carry(names, o.Pairs()) && Carries(ids)
    requires Distinct(Nexts(o.Pairs())) && Elements(Nexts(o.Pairs())) <= Elements(news) <= names.Keys
    ensures NamesOf(Only(ids, Elements(news)), news)
  {
    forall p | p in Nexts(o.Pairs()) ensures p in names {
      assert p in Elements(Nexts(o.Pairs()));
    }
    CarryGives(names, o.Pairs());
  }

  lemma NamesAtStart(s: Suffixes, oldNames: Names, given: Names, nth: map<Proxy, nat>, bound: nat)
    requires Settled(s, Presets(oldNames), given, nth, bound)
    ensures forall p :: p in given ==> given[p] != ""
  {
    forall p | p in given ensures given[p] != "" {
      assert p in nth ==> SuffixedAt(s, given, nth, bound, p);
    }
  }

  lemma JoinedNames(priors: seq<Proxy>, news: seq<Proxy>, given: Names, newNames: Names)
    requires NamesOf(given, priors) && NamesOf(newNames, news) && Elements(priors) !! Elements(news)
    ensures (given + newNames).Keys == Elements(priors) + Elements(news) && Carries(given + newNames)
    ensures forall p :: p in given ==> (given + newNames)[p] == given[p]
  {
  }

  ghost predicate SortedCopy(t: Text, r: seq<Proxy>, s: seq<Proxy>) {
    multiset(r) == multiset(s) && Sorted(r, EarlierIn(t)) && Distinct(r)
  }

  /** sortProxySet on a copy. */
  method SortProxySet(t: Text, s: seq<Proxy>) returns (r: seq<Proxy>)
    requires Distinct(s)
    ensures SortedCopy(t, r, s) && Distinct(r) && |r| == |s| && Elements(r) == Elements(s)
    ensures forall i :: 0 <= i < |r| ==> r[i] in s
  {
    EarlierIsOrder(t, s);
    r := Sort(s, EarlierIn(t));
    DistinctElements(s, r);
    SortedInside(r, s);
  }

  /** PlanProxyUpdate.  `oldNames` and `newNames` are the identities that the entries come with,
      `given` those of the old entries once they have theirs, `held` those that the new entries
      hold after the matching and `final` those that they end up with. */
  method PlanProxyUpdate(s: Suffixes, t: Text, oldProxies: seq<Proxy>, newProxies: seq<Proxy>, ghost oldNames: Names, ghost newNames: Names)
    returns (plan: seq<Change>, ghost prior: seq<Proxy>, ghost news: seq<Proxy>, ghost given: Names, ghost nthOld: map<Proxy, nat>,
             ghost held: Names, ghost final: Names, ghost nthNew: map<Proxy, nat>)
    requires Distinct(oldProxies) && Distinct(newProxies) && Elements(oldProxies) !! Elements(newProxies)
    requires s.Injective(|oldProxies|) && s.Injective(|newProxies|)
    requires NamesOf(oldNames, oldProxies) && NamesOf(newNames, newProxies)
    modifies oldProxies, newProxies
    ensures SortedCopy(t, prior, oldProxies) && SortedCopy(t, news, newProxies)
    ensures plan == Changes(t, PlanOf(t, prior, news))
    ensures Reports(t, PlanOf(t, prior, news).Pairs(), prior, news, plan)
    ensures NamesOf(given, oldProxies) && Settled(s, Presets(oldNames), given, nthOld, |oldProxies|)
    ensures Holds(PlanOf(t, prior, news), given + newNames, held)
    ensures NamesOf(final, newProxies) && Settled(s, held, final, nthNew, |newProxies|)
  {
    hide Distinct, Settled, Holds, PlanOf, Sorted, Suffixes.Injective, SortedCopy, Presets, Changes, Reports;
    assert forall p :: p in oldProxies ==> p in Elements(oldProxies) && p !in Elements(newProxies);
    given, nthOld := AssignLogicalIDs(s, oldProxies, oldNames);
    var sortedOld := SortProxySet(t, oldProxies);
    var sortedNew := SortProxySet(t, newProxies);
    prior, news := sortedOld, sortedNew;
    NamesAtStart(s, oldNames, given, nthOld, |oldProxies|);
    JoinedNames(oldProxies, newProxies, given, newNames);
    assert forall p :: p in prior ==> p in Elements(oldProxies);
    plan, held, final, nthNew := PlanSorted(s, t, sortedOld, sortedNew, given + newNames, given);
    PlanReports(t, prior, news);
  }
}
