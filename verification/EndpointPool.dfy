/** The accumulating endpoint pool of checker/endpoint_pool.go. */
module EndpointPools {
  import opened Repair
  import opened Ordering

  datatype Option<+T> = None | Some(value: T)

  /** A hash or an identifier is never the empty text. */
  type ID = s: string | s != "" witness "0"

  /** The hashes, the trimming and lowering of server names, and the canonical text of those that are
      addresses, all of which the pool only compares. */
  datatype Hashes = Hashes(
    hostOf: (Connection, string, string, string) -> ID,
    nodeOf: string -> ID,
    bindingOf: (string, string, string) -> ID,
    normal: string -> string,
    address: string -> string)
  {
    function Canonical(server: string): string { address(normal(server)) }
  }

  /** A subscription entry.  Its revision is `conn`; the rest is display and topology data. */
  datatype Config = Config(conn: Connection, name: string, subName: string, groupName: string, labels: map<string, string>,
                           hostID: string, nodeID: string, logicalID: string)

  datatype Key = Key(host: string, server: string, port: string) {
    function Identity(): (string, string) { (host, server) }
  }

  /** endpointHostServerKey. */
  function IdentityOf(h: Hashes, c: Config): (string, string) {
    (if c.hostID == "" then h.hostOf(c.conn, c.subName, c.groupName, c.name) else c.hostID, h.Canonical(c.conn.server))
  }

  /** endpointPoolKey. */
  function KeyOf(h: Hashes, c: Config): Key {
    Key(IdentityOf(h, c).0, IdentityOf(h, c).1, c.conn.port)
  }

  /** ensureTopologyIDs on a clone. */
  function Prepared(h: Hashes, c: Config): Config {
    var host: string := if c.hostID == "" then h.hostOf(c.conn, c.subName, c.groupName, c.name) else c.hostID;
    c.(hostID := host,
       nodeID := h.nodeOf(h.normal(c.conn.server)),
       logicalID := if c.logicalID == "" then h.bindingOf(host, h.normal(c.conn.server), c.conn.port) else c.logicalID)
  }

  /** copyDisplayMetadata. */
  function Relabelled(target: Config, source: Config): Config {
    target.(name := source.name, subName := source.subName, groupName := source.groupName, labels := source.labels,
            hostID := source.hostID, nodeID := source.nodeID)
  }

  datatype Candidate = Candidate(config: Config, firstSeenAt: int, lastSeenAt: int, lastSeenRound: int, missingPolls: nat,
                                 pending: Option<Config>, pendingRounds: nat,
                                 replacement: Option<Key>, replacementRounds: nat)

  const DETACH_AFTER: nat := 30

  // ---- one poll's votes ----

  /** How often a revision of an endpoint occurred in the reads of a poll, and its first sighting. */
  datatype Vote = Vote(config: Config, count: nat)

  type Tally = map<Key, map<Connection, Vote>>

  function VotesFor(t: Tally, k: Key): map<Connection, Vote> {
    if k in t then t[k] else map[]
  }

  function Count(h: Hashes, t: Tally, c: Config): Tally {
    var p, k := Prepared(h, c), KeyOf(h, Prepared(h, c));
    var votes := VotesFor(t, k);
    var vote := if c.conn in votes then votes[c.conn] else Vote(p, 0);
    t[k := votes[c.conn := vote.(count := vote.count + 1)]]
  }

  function CountAll(h: Hashes, t: Tally, read: seq<Config>): Tally {
    if read == [] then t else Count(h, CountAll(h, t, read[..|read| - 1]), read[|read| - 1])
  }

  function TallyOf(h: Hashes, sampled: seq<seq<Config>>): Tally {
    if sampled == [] then map[] else CountAll(h, TallyOf(h, sampled[..|sampled| - 1]), sampled[|sampled| - 1])
  }

  /** No candidate revision has more votes. */
  predicate IsWinner(votes: map<Connection, Vote>, c: Connection) {
    c in votes && forall d :: d in votes ==> votes[d].count <= votes[c].count
  }

  ghost predicate WinnersOf(t: Tally, winners: map<Key, Connection>) {
    winners.Keys == t.Keys && forall k :: k in t ==> IsWinner(t[k], winners[k])
  }

  // ---- the step of one endpoint ----

  /** A sighting. */
  function Sighted(before: Option<Candidate>, observed: Vote, round: int, now: int): Candidate {
    match before
    case None => Candidate(observed.config, now, now, round, 0, None, 0, None, 0)
    case Some(c) =>
      var seen := c.(lastSeenAt := now, lastSeenRound := round, missingPolls := 0, replacement := None, replacementRounds := 0);
      if c.config.conn == observed.config.conn then
        seen.(config := Relabelled(c.config, observed.config), pending := None, pendingRounds := 0)
      else if observed.count >= 2 then
        seen.(config := observed.config, pending := None, pendingRounds := 0)
      else if c.pending.Some? && c.pending.value.conn == observed.config.conn then
        if c.pendingRounds + 1 >= 2 then seen.(config := c.pending.value, pending := None, pendingRounds := 0)
        else seen.(pendingRounds := c.pendingRounds + 1)
      else
        seen.(pending := Some(observed.config), pendingRounds := 1)
  }

  /** Some revision of an endpoint was counted once for every sample of the poll. */
  predicate StandsIn(h: Hashes, votes: map<Connection, Vote>, identity: (string, string), samples: nat) {
    exists r :: r in votes && votes[r].count == samples && IdentityOf(h, votes[r].config) == identity
  }

  /** Other endpoints of the same host and server that were in every sample of the poll. */
  function Replacements(h: Hashes, t: Tally, k: Key, identity: (string, string), samples: nat): set<Key> {
    set s | s in t && s != k && StandsIn(h, t[s], identity, samples)
  }

  /** The sole replacement of an unseen endpoint, if there is exactly one. */
  ghost predicate IsSole(h: Hashes, t: Tally, k: Key, identity: (string, string), samples: nat, s: Key) {
    samples >= 2 && Replacements(h, t, k, identity, samples) == {s}
  }

  /** Ageing without a replacement in sight. */
  function Aged(c: Candidate): Option<Candidate> {
    if c.missingPolls + 1 >= DETACH_AFTER then None else Some(c.(missingPolls := c.missingPolls + 1))
  }

  /** A miss, with the sole replacement seen in its place, if any. */
  function Missed(c: Candidate, sole: Option<Key>): Option<Candidate> {
    if sole.None? then Aged(c.(replacement := None, replacementRounds := 0))
    else
      var rounds := if c.replacement == sole then c.replacementRounds + 1 else 1;
      if rounds >= 2 then None else Aged(c.(replacement := sole, replacementRounds := rounds))
  }

  ghost function Sole(h: Hashes, t: Tally, k: Key, identity: (string, string), samples: nat): Option<Key> {
    if exists s :: IsSole(h, t, k, identity, samples, s) then
      var s :| IsSole(h, t, k, identity, samples, s);
      Some(s)
    else None
  }

  /** One poll: its votes, the winner of every vote, the time and the number of samples. */
  datatype Poll = Poll(tally: Tally, winners: map<Key, Connection>, now: int, samples: nat)

  function At(pool: map<Key, Candidate>, k: Key): Option<Candidate> {
    if k in pool then Some(pool[k]) else None
  }

  /** What a poll makes of one endpoint.  It looks at no other endpoint of the pool. */
  ghost function Step(h: Hashes, k: Key, before: Option<Candidate>, p: Poll, round: int): Option<Candidate>
    requires WinnersOf(p.tally, p.winners)
  {
    if k in p.tally then Some(Sighted(before, p.tally[k][p.winners[k]], round, p.now))
    else if before.None? then None
    else Missed(before.value, Sole(h, p.tally, k, IdentityOf(h, before.value.config), p.samples))
  }

  /** The pool after a poll is the pointwise image of the step. */
  ghost predicate Refined(h: Hashes, before: map<Key, Candidate>, p: Poll, round: int, after: map<Key, Candidate>)
    requires WinnersOf(p.tally, p.winners)
  {
    forall k :: At(after, k) == Step(h, k, At(before, k), p, round)
  }

  // ---- what holds of every endpoint in the pool ----

  ghost predicate Settled(h: Hashes, k: Key, c: Candidate, round: int) {
    && KeyOf(h, c.config) == k && c.config.hostID != ""
    && c.missingPolls == round - c.lastSeenRound && c.missingPolls < DETACH_AFTER
    && c.pendingRounds == (if c.pending.Some? then 1 else 0)
    && (c.pending.Some? ==> KeyOf(h, c.pending.value) == k && c.pending.value.hostID != "")
    && c.replacementRounds == (if c.replacement.Some? then 1 else 0)
    && (c.replacement.Some? ==> c.missingPolls >= 1 && c.replacement.value != k && c.replacement.value.Identity() == k.Identity())
  }

  ghost predicate Consistent(h: Hashes, pool: map<Key, Candidate>, round: int) {
    forall k :: k in pool ==> Settled(h, k, pool[k], round)
  }

  /** Every vote is filed under the key and the revision of its configuration. */
  ghost predicate Filed(h: Hashes, t: Tally) {
    forall k :: k in t ==> t[k] != map[] && VotesFiled(h, k, t[k])
  }

  ghost predicate VotesFiled(h: Hashes, k: Key, votes: map<Connection, Vote>) {
    forall r :: r in votes ==> VoteFiled(h, k, r, votes[r])
  }

  predicate VoteFiled(h: Hashes, k: Key, r: Connection, v: Vote) {
    v.config.conn == r && KeyOf(h, v.config) == k && v.config.hostID != "" && v.count >= 1
  }

  lemma PreparedKeepsKey(h: Hashes, c: Config)
    ensures KeyOf(h, Prepared(h, c)) == KeyOf(h, c) && Prepared(h, c).conn == c.conn && Prepared(h, c).hostID != ""
    ensures Prepared(h, c).logicalID != ""
  {
  }

  lemma CountFiled(h: Hashes, t: Tally, c: Config)
    requires Filed(h, t)
    ensures Filed(h, Count(h, t, c))
  {
    var p, k := Prepared(h, c), KeyOf(h, Prepared(h, c));
    var votes := VotesFor(t, k);
    PreparedKeepsKey(h, c);
    assert c.conn in votes ==> VoteFiled(h, k, c.conn, votes[c.conn]);
    assert VotesFiled(h, k, Count(h, t, c)[k]);
  }

  lemma {:induction false} CountAllFiled(h: Hashes, t: Tally, read: seq<Config>)
    requires Filed(h, t)
    ensures Filed(h, CountAll(h, t, read))
  {
    if read != [] {
      CountAllFiled(h, t, read[..|read| - 1]);
      CountFiled(h, CountAll(h, t, read[..|read| - 1]), read[|read| - 1]);
    }
  }

  lemma {:induction false} TallyFiled(h: Hashes, sampled: seq<seq<Config>>)
    ensures Filed(h, TallyOf(h, sampled))
  {
    if sampled != [] {
      TallyFiled(h, sampled[..|sampled| - 1]);
      CountAllFiled(h, TallyOf(h, sampled[..|sampled| - 1]), sampled[|sampled| - 1]);
    }
  }

  // ---- a vote counts the occurrences of its revision ----

  function Occurrences(h: Hashes, read: seq<Config>, k: Key, r: Connection): nat {
    if read == [] then 0
    else
      var c := read[|read| - 1];
      Occurrences(h, read[..|read| - 1], k, r) + (if KeyOf(h, c) == k && c.conn == r then 1 else 0)
  }

  function AllOccurrences(h: Hashes, sampled: seq<seq<Config>>, k: Key, r: Connection): nat {
    if sampled == [] then 0
    else AllOccurrences(h, sampled[..|sampled| - 1], k, r) + Occurrences(h, sampled[|sampled| - 1], k, r)
  }

  function VoteCount(t: Tally, k: Key, r: Connection): nat {
    if k in t && r in t[k] then t[k][r].count else 0
  }

  lemma {:induction false} CountAllCounts(h: Hashes, t: Tally, read: seq<Config>, k: Key, r: Connection)
    ensures VoteCount(CountAll(h, t, read), k, r) == VoteCount(t, k, r) + Occurrences(h, read, k, r)
  {
    if read != [] {
      CountAllCounts(h, t, read[..|read| - 1], k, r);
      PreparedKeepsKey(h, read[|read| - 1]);
    }
  }

  /** A vote is the number of times its revision of the endpoint occurred in all the reads. */
  lemma {:induction false} VotesCountOccurrences(h: Hashes, sampled: seq<seq<Config>>, k: Key, r: Connection)
    ensures VoteCount(TallyOf(h, sampled), k, r) == AllOccurrences(h, sampled, k, r)
  {
    if sampled != [] {
      VotesCountOccurrences(h, sampled[..|sampled| - 1], k, r);
      CountAllCounts(h, TallyOf(h, sampled[..|sampled| - 1]), sampled[|sampled| - 1], k, r);
    }
  }

  ghost predicate InEach(h: Hashes, sampled: seq<seq<Config>>, k: Key, r: Connection) {
    forall i :: 0 <= i < |sampled| ==> Occurrences(h, sampled[i], k, r) >= 1
  }

  /** No read names this revision of the endpoint twice. */
  ghost predicate NeverTwice(h: Hashes, sampled: seq<seq<Config>>, k: Key, r: Connection) {
    forall i :: 0 <= i < |sampled| ==> Occurrences(h, sampled[i], k, r) <= 1
  }

  lemma {:induction false} OccurrencesSpread(h: Hashes, sampled: seq<seq<Config>>, k: Key, r: Connection)
    ensures InEach(h, sampled, k, r) ==> AllOccurrences(h, sampled, k, r) >= |sampled|
    ensures NeverTwice(h, sampled, k, r) ==> AllOccurrences(h, sampled, k, r) <= |sampled|
    ensures InEach(h, sampled, k, r) && AllOccurrences(h, sampled, k, r) == |sampled| ==> NeverTwice(h, sampled, k, r)
    ensures NeverTwice(h, sampled, k, r) && AllOccurrences(h, sampled, k, r) == |sampled| ==> InEach(h, sampled, k, r)
  {
    if sampled != [] {
      var rest := sampled[..|sampled| - 1];
      assert sampled == rest + [sampled[|sampled| - 1]];
      OccurrencesSpread(h, rest, k, r);
      assert InEach(h, sampled, k, r) ==> InEach(h, rest, k, r);
      assert NeverTwice(h, sampled, k, r) ==> NeverTwice(h, rest, k, r);
    }
  }

  /** A full count means "observed in every sample" exactly when no read repeats the revision; and a
      revision that every read names once does get the full count. */
  lemma InEverySample(h: Hashes, sampled: seq<seq<Config>>, k: Key, r: Connection)
    ensures VoteCount(TallyOf(h, sampled), k, r) == |sampled| ==> (InEach(h, sampled, k, r) <==> NeverTwice(h, sampled, k, r))
    ensures InEach(h, sampled, k, r) && NeverTwice(h, sampled, k, r) ==> VoteCount(TallyOf(h, sampled), k, r) == |sampled|
  {
    VotesCountOccurrences(h, sampled, k, r);
    OccurrencesSpread(h, sampled, k, r);
  }

  /** One read that repeats an endpoint passes for two samples. */
  lemma RepeatedReadPassesForTwo(h: Hashes, c: Config)
    ensures VoteCount(TallyOf(h, [[c, c], []]), KeyOf(h, c), c.conn) == 2
    ensures !InEach(h, [[c, c], []], KeyOf(h, c), c.conn)
  {
    var twice, sampled := [c, c], [[c, c], []];
    VotesCountOccurrences(h, sampled, KeyOf(h, c), c.conn);
    assert twice[..1] == [c];
    assert Occurrences(h, [c], KeyOf(h, c), c.conn) == 1;
    assert sampled[..1] == [twice] && sampled[1] == [];
    assert AllOccurrences(h, [twice], KeyOf(h, c), c.conn) == Occurrences(h, twice, KeyOf(h, c), c.conn);
    assert Occurrences(h, sampled[1], KeyOf(h, c), c.conn) == 0;
  }

  // ---- one poll keeps every endpoint settled ----

  lemma WinnerIsFiled(h: Hashes, p: Poll, k: Key)
    requires Filed(h, p.tally) && WinnersOf(p.tally, p.winners) && k in p.tally
    ensures var v := p.tally[k][p.winners[k]];
            v.config.conn == p.winners[k] && KeyOf(h, v.config) == k && v.config.hostID != "" && v.count >= 1
  {
    assert IsWinner(p.tally[k], p.winners[k]);
  }

  lemma SightedIsSettled(h: Hashes, k: Key, before: Option<Candidate>, v: Vote, round: int, now: int)
    requires before.Some? ==> Settled(h, k, before.value, round - 1)
    requires KeyOf(h, v.config) == k && v.config.hostID != ""
    ensures Settled(h, k, Sighted(before, v, round, now), round)
    ensures Sighted(before, v, round, now).lastSeenRound == round
  {
  }

  lemma SoleIsOther(h: Hashes, t: Tally, k: Key, identity: (string, string), samples: nat)
    requires Filed(h, t) && Sole(h, t, k, identity, samples).Some?
    ensures var s := Sole(h, t, k, identity, samples).value;
            IsSole(h, t, k, identity, samples, s) && s in t && s != k && s.Identity() == identity
  {
    var s := Sole(h, t, k, identity, samples).value;
    assert s in Replacements(h, t, k, identity, samples);
    assert StandsIn(h, t[s], identity, samples);
    var r :| r in t[s] && t[s][r].count == samples && IdentityOf(h, t[s][r].config) == identity;
    assert KeyOf(h, t[s][r].config) == s;
  }

  lemma SoleIsUnique(h: Hashes, t: Tally, k: Key, identity: (string, string), samples: nat, s: Key)
    requires IsSole(h, t, k, identity, samples, s)
    ensures Sole(h, t, k, identity, samples) == Some(s)
  {
    var x := Sole(h, t, k, identity, samples).value;
    assert x in {s};
  }

  lemma MissedIsSettled(h: Hashes, k: Key, c: Candidate, sole: Option<Key>, round: int)
    requires Settled(h, k, c, round - 1)
    requires sole.Some? ==> sole.value != k && sole.value.Identity() == k.Identity()
    ensures Missed(c, sole).Some? ==> Settled(h, k, Missed(c, sole).value, round)
  {
  }

  /** Key consistency, the counters and the vote bookkeeping survive every poll. */
  lemma StepIsSettled(h: Hashes, k: Key, before: Option<Candidate>, p: Poll, round: int)
    requires Filed(h, p.tally) && WinnersOf(p.tally, p.winners)
    requires before.Some? ==> Settled(h, k, before.value, round - 1)
    ensures Step(h, k, before, p, round).Some? ==> Settled(h, k, Step(h, k, before, p, round).value, round)
  {
    if k in p.tally {
      WinnerIsFiled(h, p, k);
      SightedIsSettled(h, k, before, p.tally[k][p.winners[k]], round, p.now);
    } else if before.Some? {
      var identity := IdentityOf(h, before.value.config);
      var sole := Sole(h, p.tally, k, identity, p.samples);
      if sole.Some? {
        SoleIsOther(h, p.tally, k, identity, p.samples);
      }
      MissedIsSettled(h, k, before.value, sole, round);
    }
  }

  /** `after` is what the poll makes of `before`. */
  ghost predicate IsPoll(h: Hashes, before: map<Key, Candidate>, p: Poll, round: int, after: map<Key, Candidate>) {
    Filed(h, p.tally) && WinnersOf(p.tally, p.winners) && Refined(h, before, p, round, after)
  }

  lemma PollKeepsConsistent(h: Hashes, before: map<Key, Candidate>, p: Poll, round: int, after: map<Key, Candidate>)
    requires Consistent(h, before, round - 1) && IsPoll(h, before, p, round, after)
    ensures Consistent(h, after, round)
  {
    forall k | k in after ensures Settled(h, k, after[k], round) {
      assert At(after, k) == Step(h, k, At(before, k), p, round);
      StepIsSettled(h, k, At(before, k), p, round);
    }
  }

  /** Every vote has one winner only. */
  ghost predicate Untied(t: Tally) {
    forall k, c, d :: k in t && IsWinner(t[k], c) && IsWinner(t[k], d) ==> c == d
  }

  /** When no vote is tied, the poll leaves nothing to the iteration order: the outcome is unique. */
  lemma UntiedPollIsDeterministic(h: Hashes, before: map<Key, Candidate>, p: Poll, q: Poll, round: int,
                                  after: map<Key, Candidate>, other: map<Key, Candidate>)
    requires p.tally == q.tally && p.now == q.now && p.samples == q.samples
    requires Untied(p.tally)
    requires IsPoll(h, before, p, round, after) && IsPoll(h, before, q, round, other)
    ensures after == other
  {
    assert p.winners == q.winners;
    forall k ensures At(after, k) == At(other, k) {
      assert At(after, k) == Step(h, k, At(before, k), p, round);
      assert At(other, k) == Step(h, k, At(before, k), q, round);
    }
    forall k ensures k in after <==> k in other {
      assert At(after, k) == At(other, k);
    }
    forall k | k in after ensures after[k] == other[k] {
      assert At(after, k) == At(other, k);
    }
  }

  /** The pool that a poll leaves, given the winners of its votes. */
  ghost function PoolAfter(h: Hashes, before: map<Key, Candidate>, p: Poll, round: int): map<Key, Candidate>
    requires WinnersOf(p.tally, p.winners)
  {
    map k | k in before.Keys + p.tally.Keys && Step(h, k, At(before, k), p, round).Some? :: Step(h, k, At(before, k), p, round).value
  }

  lemma PoolAfterIsPoll(h: Hashes, before: map<Key, Candidate>, p: Poll, round: int)
    requires Filed(h, p.tally) && WinnersOf(p.tally, p.winners)
    ensures IsPoll(h, before, p, round, PoolAfter(h, before, p, round))
  {
    forall k ensures At(PoolAfter(h, before, p, round), k) == Step(h, k, At(before, k), p, round) {
    }
  }

  /** Whichever winners the iteration meets, the pool after the poll is the same. */
  ghost predicate OrderIndependent(h: Hashes, before: map<Key, Candidate>, t: Tally, now: int, samples: nat, round: int) {
    forall w: map<Key, Connection>, v: map<Key, Connection>, after: map<Key, Candidate>, other: map<Key, Candidate> ::
      IsPoll(h, before, Poll(t, w, now, samples), round, after) && IsPoll(h, before, Poll(t, v, now, samples), round, other) ==> after == other
  }

  lemma {:induction false} HasWinner(votes: map<Connection, Vote>)
    requires votes != map[]
    ensures exists c :: IsWinner(votes, c)
    decreases |votes|
  {
    var d :| d in votes;
    var rest := votes - {d};
    assert votes.Keys == rest.Keys + {d};
    if rest == map[] {
      assert forall e :: e in votes ==> e == d || e in rest;
      assert IsWinner(votes, d);
    } else {
      HasWinner(rest);
      var c :| IsWinner(rest, c);
      assert forall e :: e in votes ==> e == d || e in rest;
      assert IsWinner(votes, if votes[d].count > votes[c].count then d else c);
    }
  }

  ghost function SomeWinner(votes: map<Connection, Vote>): Connection
    requires exists c :: IsWinner(votes, c)
  {
    var c :| IsWinner(votes, c); c
  }

  lemma SomeWinners(h: Hashes, t: Tally) returns (winners: map<Key, Connection>)
    requires Filed(h, t)
    ensures WinnersOf(t, winners)
  {
    forall k | k in t ensures exists c :: IsWinner(t[k], c) {
      HasWinner(t[k]);
    }
    winners := map k | k in t :: SomeWinner(t[k]);
  }

  /** Tied votes for different revisions make different endpoints of whatever was there before. */
  lemma TieShows(h: Hashes, k: Key, before: Option<Candidate>, v: Vote, w: Vote, round: int, now: int)
    requires before.Some? ==> Settled(h, k, before.value, round - 1)
    requires v.count == w.count && v.config.conn != w.config.conn
    ensures Sighted(before, v, round, now) != Sighted(before, w, round, now)
  {
  }

  lemma ChooseWinner(t: Tally, winners: map<Key, Connection>, k: Key, c: Connection)
    requires WinnersOf(t, winners) && k in t && IsWinner(t[k], c)
    ensures WinnersOf(t, winners[k := c])
  {
  }

  /** Two winners of one vote lead to two pools. */
  lemma TwoOutcomes(h: Hashes, before: map<Key, Candidate>, t: Tally, now: int, samples: nat, round: int, k: Key, c: Connection, d: Connection)
    returns (w: map<Key, Connection>, v: map<Key, Connection>, after: map<Key, Candidate>, other: map<Key, Candidate>)
    requires Consistent(h, before, round - 1) && Filed(h, t)
    requires k in t && IsWinner(t[k], c) && IsWinner(t[k], d) && c != d
    ensures IsPoll(h, before, Poll(t, w, now, samples), round, after) && IsPoll(h, before, Poll(t, v, now, samples), round, other)
    ensures after != other
  {
    assert k in before ==> Settled(h, k, before[k], round - 1);
    assert t[k][c].count == t[k][d].count;
    hide Consistent, Filed, Sighted, Settled, IsPoll, WinnersOf, IsWinner;
    var winners := SomeWinners(h, t);
    ChooseWinner(t, winners, k, c);
    ChooseWinner(t, winners, k, d);
    w, v := winners[k := c], winners[k := d];
    var p, q := Poll(t, w, now, samples), Poll(t, v, now, samples);
    WinnerIsFiled(h, p, k);
    WinnerIsFiled(h, q, k);
    after := OneOutcome(h, before, p, round, k);
    other := OneOutcome(h, before, q, round, k);
    TieShows(h, k, At(before, k), t[k][c], t[k][d], round, now);
  }

  lemma TieIsSeen(h: Hashes, before: map<Key, Candidate>, t: Tally, now: int, samples: nat, round: int, k: Key, c: Connection, d: Connection)
    requires Consistent(h, before, round - 1) && Filed(h, t)
    requires k in t && IsWinner(t[k], c) && IsWinner(t[k], d) && c != d
    ensures !OrderIndependent(h, before, t, now, samples, round)
  {
    hide IsPoll, Consistent, Filed, IsWinner;
    var w, v, after, other := TwoOutcomes(h, before, t, now, samples, round, k, c, d);
  }

  lemma OneOutcome(h: Hashes, before: map<Key, Candidate>, p: Poll, round: int, k: Key) returns (after: map<Key, Candidate>)
    requires Filed(h, p.tally) && WinnersOf(p.tally, p.winners) && k in p.tally
    ensures IsPoll(h, before, p, round, after) && p.winners[k] in p.tally[k]
    ensures At(after, k) == Some(Sighted(At(before, k), p.tally[k][p.winners[k]], round, p.now))
  {
    after := PoolAfter(h, before, p, round);
    PoolAfterIsPoll(h, before, p, round);
    assert IsWinner(p.tally[k], p.winners[k]);
    assert At(after, k) == Step(h, k, At(before, k), p, round);
  }

  /** The outcome of a poll depends on the iteration order exactly when some vote is tied, whatever
      the pool was before. */
  lemma OrderIndependentIff(h: Hashes, before: map<Key, Candidate>, t: Tally, now: int, samples: nat, round: int)
    requires Consistent(h, before, round - 1) && Filed(h, t)
    ensures OrderIndependent(h, before, t, now, samples, round) <==> Untied(t)
  {
    if Untied(t) {
      forall w, v, after, other | IsPoll(h, before, Poll(t, w, now, samples), round, after) && IsPoll(h, before, Poll(t, v, now, samples), round, other)
        ensures after == other
      {
        UntiedPollIsDeterministic(h, before, Poll(t, w, now, samples), Poll(t, v, now, samples), round, after, other);
      }
    } else {
      var k, c, d :| k in t && IsWinner(t[k], c) && IsWinner(t[k], d) && c != d;
      TieIsSeen(h, before, t, now, samples, round, k, c, d);
    }
  }

  /** Two samples that show an endpoint in two revisions tie, so map order decides. */
  lemma TieIsOrderDependent(h: Hashes, before: map<Key, Candidate>, c: Config, d: Config, now: int, round: int)
    requires Consistent(h, before, round - 1) && KeyOf(h, c) == KeyOf(h, d) && c.conn != d.conn
    ensures !OrderIndependent(h, before, TallyOf(h, [[c], [d]]), now, 2, round)
  {
    var k, t := KeyOf(h, c), TallyOf(h, [[c], [d]]);
    TallyOfTwo(h, c, d);
    TallyFiled(h, [[c], [d]]);
    TieIsSeen(h, before, t, now, 2, round, k, c.conn, d.conn);
  }

  lemma TallyOfOne(h: Hashes, t: Tally, c: Config)
    ensures CountAll(h, t, [c]) == Count(h, t, c)
  {
    assert [c][..0] == [];
    assert CountAll(h, t, []) == t;
  }

  lemma TallyOfTwo(h: Hashes, c: Config, d: Config)
    requires KeyOf(h, c) == KeyOf(h, d) && c.conn != d.conn
    ensures TallyOf(h, [[c], [d]]) == map[KeyOf(h, c) := map[c.conn := Vote(Prepared(h, c), 1), d.conn := Vote(Prepared(h, d), 1)]]
  {
    var sampled := [[c], [d]];
    assert sampled[..1] == [[c]] && [[c]][..0] == [];
    PreparedKeepsKey(h, c);
    PreparedKeepsKey(h, d);
    TallyOfOne(h, map[], c);
    var one := map[KeyOf(h, c) := map[c.conn := Vote(Prepared(h, c), 1)]];
    assert TallyOf(h, [[c]]) == one;
    TallyOfOne(h, one, d);
    assert TallyOf(h, sampled) == Count(h, one, d);
  }

  // ---- counts ----

  lemma PoolKeys(h: Hashes, before: map<Key, Candidate>, p: Poll, round: int, after: map<Key, Candidate>)
    requires IsPoll(h, before, p, round, after)
    ensures p.tally.Keys <= after.Keys <= p.tally.Keys + before.Keys
  {
    forall k ensures (k in p.tally ==> k in after) && (k in after ==> k in p.tally || k in before) {
      assert At(after, k) == Step(h, k, At(before, k), p, round);
    }
  }

  lemma SetSizes<T>(before: set<T>, seen: set<T>, after: set<T>)
    requires seen <= after <= seen + before
    ensures |after| == |before| + |seen - before| - |before - after|
    ensures |after| == |seen| + |after - seen|
    ensures after - seen == (before - seen) * after
  {
    assert after + (before - after) == before + (seen - before);
    assert |after + (before - after)| == |after| + |before - after|;
    assert after == seen + (after - seen);
  }

  /** |after| = |before| + added - detached, and every retained endpoint was seen or is missing. */
  lemma PoolSize(h: Hashes, before: map<Key, Candidate>, p: Poll, round: int, after: map<Key, Candidate>)
    requires IsPoll(h, before, p, round, after)
    ensures |after| == |before| + |p.tally.Keys - before.Keys| - |before.Keys - after.Keys|
    ensures |after| == |p.tally| + |after.Keys - p.tally.Keys|
  {
    PoolKeys(h, before, p, round, after);
    SetSizes(before.Keys, p.tally.Keys, after.Keys);
  }

  // ---- whole runs ----

  ghost predicate PollAt(h: Hashes, start: int, pools: seq<map<Key, Candidate>>, polls: seq<Poll>, i: nat) {
    i < |polls| && i + 1 < |pools| && IsPoll(h, pools[i], polls[i], start + i + 1, pools[i + 1])
  }

  /** The pools of a run of polls; pools[i] meets polls[i] in round start + i + 1. */
  ghost predicate IsRun(h: Hashes, start: int, pools: seq<map<Key, Candidate>>, polls: seq<Poll>) {
    && |pools| == |polls| + 1
    && (forall i :: 0 <= i < |polls| ==> PollAt(h, start, pools, polls, i))
  }

  /** A pool as it comes out of NewEndpointPool: nothing is pending. */
  ghost predicate Unmissed(pool: map<Key, Candidate>) {
    forall k :: k in pool ==> pool[k].replacement.None?
  }

  lemma PollOfRun(h: Hashes, start: int, pools: seq<map<Key, Candidate>>, polls: seq<Poll>, i: nat)
    requires IsRun(h, start, pools, polls) && i < |polls|
    ensures i + 1 < |pools| && IsPoll(h, pools[i], polls[i], start + i + 1, pools[i + 1])
  {
    assert PollAt(h, start, pools, polls, i);
  }

  lemma NextConsistent(h: Hashes, before: map<Key, Candidate>, p: Poll, round: int, after: map<Key, Candidate>)
    requires Consistent(h, before, round) && IsPoll(h, before, p, round + 1, after)
    ensures Consistent(h, after, round + 1)
  {
    hide IsPoll, Consistent;
    PollKeepsConsistent(h, before, p, round + 1, after);
  }

  lemma ConsistentAfter(h: Hashes, start: int, pools: seq<map<Key, Candidate>>, polls: seq<Poll>, i: nat)
    requires IsRun(h, start, pools, polls) && i < |polls| && Consistent(h, pools[i], start + i)
    ensures Consistent(h, pools[i + 1], start + i + 1)
  {
    hide IsRun, IsPoll, Consistent;
    PollOfRun(h, start, pools, polls, i);
    NextConsistent(h, pools[i], polls[i], start + i, pools[i + 1]);
  }

  lemma {:induction false} RunIsConsistent(h: Hashes, start: int, pools: seq<map<Key, Candidate>>, polls: seq<Poll>, n: nat)
    requires IsRun(h, start, pools, polls) && n < |pools| && Consistent(h, pools[0], start)
    ensures Consistent(h, pools[n], start + n)
  {
    if n > 0 {
      var i := n - 1;
      RunIsConsistent(h, start, pools, polls, i);
      ConsistentAfter(h, start, pools, polls, i);
    }
  }

  /** What one poll of a run makes of one endpoint. */
  lemma StepOfRun(h: Hashes, start: int, pools: seq<map<Key, Candidate>>, polls: seq<Poll>, i: nat, k: Key)
    requires IsRun(h, start, pools, polls) && i < |polls| && Consistent(h, pools[0], start)
    ensures WinnersOf(polls[i].tally, polls[i].winners)
    ensures At(pools[i + 1], k) == Step(h, k, At(pools[i], k), polls[i], start + i + 1)
    ensures k in pools[i] ==> Settled(h, k, pools[i][k], start + i)
    ensures k in polls[i].tally ==> k in polls[i].winners && polls[i].winners[k] in polls[i].tally[k]
                                    && polls[i].tally[k][polls[i].winners[k]].config.conn == polls[i].winners[k]
  {
    RunIsConsistent(h, start, pools, polls, i);
    PollOfRun(h, start, pools, polls, i);
    if k in polls[i].tally {
      WinnerIsFiled(h, polls[i], k);
    }
  }

  ghost predicate SoleIn(h: Hashes, p: Poll, k: Key, s: Key) {
    k !in p.tally && IsSole(h, p.tally, k, k.Identity(), p.samples, s)
  }

  /** A remembered replacement is the sole one of the poll before. */
  lemma PollRemembers(h: Hashes, before: map<Key, Candidate>, p: Poll, round: int, after: map<Key, Candidate>, k: Key)
    requires Consistent(h, before, round - 1) && IsPoll(h, before, p, round, after)
    requires k in after && after[k].replacement.Some?
    ensures k in before && SoleIn(h, p, k, after[k].replacement.value)
  {
    assert k in before ==> Settled(h, k, before[k], round - 1);
    assert At(after, k) == Step(h, k, At(before, k), p, round);
    StepRemembers(h, k, At(before, k), p, round);
  }

  lemma RememberedReplacement(h: Hashes, start: int, pools: seq<map<Key, Candidate>>, polls: seq<Poll>, n: nat, k: Key)
    requires IsRun(h, start, pools, polls) && n < |pools| && Consistent(h, pools[0], start) && Unmissed(pools[0])
    requires k in pools[n] && pools[n][k].replacement.Some?
    ensures n > 0 && k in pools[n - 1] && SoleIn(h, polls[n - 1], k, pools[n][k].replacement.value)
  {
    assert n > 0;
    assert n - 1 < |polls|;
    hide *;
    RememberedAt(h, start, pools, polls, n - 1, k);
  }

  lemma RememberedAt(h: Hashes, start: int, pools: seq<map<Key, Candidate>>, polls: seq<Poll>, i: nat, k: Key)
    requires IsRun(h, start, pools, polls) && i < |polls| && Consistent(h, pools[0], start)
    requires i + 1 < |pools| && k in pools[i + 1] && pools[i + 1][k].replacement.Some?
    ensures k in pools[i] && SoleIn(h, polls[i], k, pools[i + 1][k].replacement.value)
  {
    hide *;
    RunIsConsistent(h, start, pools, polls, i);
    PollOfRun(h, start, pools, polls, i);
    NextRemembers(h, pools[i], polls[i], start + i, pools[i + 1], k);
  }

  lemma NextRemembers(h: Hashes, before: map<Key, Candidate>, p: Poll, round: int, after: map<Key, Candidate>, k: Key)
    requires Consistent(h, before, round) && IsPoll(h, before, p, round + 1, after)
    requires k in after && after[k].replacement.Some?
    ensures k in before && SoleIn(h, p, k, after[k].replacement.value)
  {
    hide IsPoll, Consistent, SoleIn;
    PollRemembers(h, before, p, round + 1, after, k);
  }

  lemma MissedRemembers(c: Candidate, sole: Option<Key>)
    requires Missed(c, sole).Some? && Missed(c, sole).value.replacement.Some?
    ensures Missed(c, sole).value.replacement == sole
  {
  }

  lemma StepRemembers(h: Hashes, k: Key, before: Option<Candidate>, p: Poll, round: int)
    requires Filed(h, p.tally) && WinnersOf(p.tally, p.winners)
    requires before.Some? ==> IdentityOf(h, before.value.config) == k.Identity()
    requires var after := Step(h, k, before, p, round); after.Some? && after.value.replacement.Some?
    ensures before.Some? && SoleIn(h, p, k, Step(h, k, before, p, round).value.replacement.value)
  {
    assert k !in p.tally;
    hide Filed, Sighted, Aged, Replacements;
    var sole := Sole(h, p.tally, k, k.Identity(), p.samples);
    MissedRemembers(before.value, sole);
    SoleIsOther(h, p.tally, k, k.Identity(), p.samples);
  }

  /** Why an endpoint left: it had been unseen for exactly 30 rounds ... */
  ghost predicate LeftByAge(start: int, pools: seq<map<Key, Candidate>>, polls: seq<Poll>, i: nat, k: Key)
    requires i < |polls| && |pools| == |polls| + 1 && k in pools[i]
  {
    k !in polls[i].tally && start + i + 1 - pools[i][k].lastSeenRound == 30
  }

  /** ... or the same sole replacement stood in for it in this poll and the one before. */
  ghost predicate LeftByReplacement(h: Hashes, pools: seq<map<Key, Candidate>>, polls: seq<Poll>, i: nat, k: Key, s: Key)
    requires i < |polls| && |pools| == |polls| + 1
  {
    i > 0 && SoleIn(h, polls[i - 1], k, s) && SoleIn(h, polls[i], k, s)
  }

  /** In every run an endpoint leaves only for one of the two reasons, and a replacement that
      retires it is in the pool with the same host and server. */
  lemma WhyEndpointsLeave(h: Hashes, start: int, pools: seq<map<Key, Candidate>>, polls: seq<Poll>, i: nat, k: Key)
    requires IsRun(h, start, pools, polls) && Consistent(h, pools[0], start) && Unmissed(pools[0])
    requires i < |polls| && k in pools[i]
    ensures k !in pools[i + 1] ==>
              || LeftByAge(start, pools, polls, i, k)
              || exists s :: LeftByReplacement(h, pools, polls, i, k, s) && s in pools[i + 1] && s.Identity() == k.Identity()
    ensures k in polls[i].tally ==> k in pools[i + 1]
    ensures LeftByAge(start, pools, polls, i, k) ==> k !in pools[i + 1]
  {
    assert |pools| == |polls| + 1;
    hide IsRun, IsPoll, Consistent, Unmissed, SoleIn;
    LeavesOfRun(h, start, pools, polls, i, k);
    if k !in pools[i + 1] && !LeftByAge(start, pools, polls, i, k) {
      var s :| ReplacedBy(h, pools[i], polls[i], pools[i + 1], k, s);
      RememberedReplacement(h, start, pools, polls, i, k);
      assert LeftByReplacement(h, pools, polls, i, k, s);
    }
  }

  lemma LeavesOfRun(h: Hashes, start: int, pools: seq<map<Key, Candidate>>, polls: seq<Poll>, i: nat, k: Key)
    requires IsRun(h, start, pools, polls) && Consistent(h, pools[0], start) && i < |polls| && i + 1 < |pools| && k in pools[i]
    ensures k in polls[i].tally ==> k in pools[i + 1]
    ensures k !in pools[i + 1] ==>
              (k !in polls[i].tally && start + i + 1 - pools[i][k].lastSeenRound == 30) ||
              IsReplaced(h, pools[i], polls[i], pools[i + 1], k)
    ensures k !in polls[i].tally && start + i + 1 - pools[i][k].lastSeenRound == 30 ==> k !in pools[i + 1]
  {
    hide *;
    RunIsConsistent(h, start, pools, polls, i);
    PollOfRun(h, start, pools, polls, i);
    LeavesNext(h, pools[i], polls[i], start + i, pools[i + 1], k);
  }

  lemma LeavesNext(h: Hashes, before: map<Key, Candidate>, p: Poll, round: int, after: map<Key, Candidate>, k: Key)
    requires Consistent(h, before, round) && IsPoll(h, before, p, round + 1, after) && k in before
    ensures k in p.tally ==> k in after
    ensures k !in after ==> (k !in p.tally && round + 1 - before[k].lastSeenRound == 30) || IsReplaced(h, before, p, after, k)
    ensures k !in p.tally && round + 1 - before[k].lastSeenRound == 30 ==> k !in after
  {
    hide *;
    LeavesInPoll(h, before, p, round + 1, after, k);
  }

  /** The poll removes the endpoint because of a replacement that it remembers. */
  ghost predicate ReplacedBy(h: Hashes, before: map<Key, Candidate>, p: Poll, after: map<Key, Candidate>, k: Key, s: Key)
    requires k in before
  {
    before[k].replacement == Some(s) && SoleIn(h, p, k, s) && s in after && s.Identity() == k.Identity()
  }

  ghost predicate IsReplaced(h: Hashes, before: map<Key, Candidate>, p: Poll, after: map<Key, Candidate>, k: Key)
    requires k in before
  {
    exists s :: ReplacedBy(h, before, p, after, k, s)
  }

  lemma LeavesInPoll(h: Hashes, before: map<Key, Candidate>, p: Poll, round: int, after: map<Key, Candidate>, k: Key)
    requires Consistent(h, before, round - 1) && IsPoll(h, before, p, round, after) && k in before
    ensures k in p.tally ==> k in after
    ensures k !in after ==> (k !in p.tally && round - before[k].lastSeenRound == 30) || IsReplaced(h, before, p, after, k)
    ensures k !in p.tally && round - before[k].lastSeenRound == 30 ==> k !in after
  {
    var c := before[k];
    assert Settled(h, k, c, round - 1);
    assert At(after, k) == Step(h, k, At(before, k), p, round);
    assert IdentityOf(h, c.config) == k.Identity();
    var sole := Sole(h, p.tally, k, k.Identity(), p.samples);
    if k !in after && sole.Some? {
      SoleIsOther(h, p.tally, k, k.Identity(), p.samples);
      assert At(after, sole.value) == Step(h, sole.value, At(before, sole.value), p, round);
      hide Sighted, IdentityOf, Replacements, Consistent, IsPoll;
      assert c.replacement == sole ==> ReplacedBy(h, before, p, after, k, sole.value);
    }
  }

  // ---- when a revision changes ----

  /** A pool as it comes out of NewEndpointPool: no revision waits for a second sighting. */
  ghost predicate Unpended(pool: map<Key, Candidate>) {
    forall k :: k in pool ==> pool[k].pending.None?
  }

  /** Poll `j` is the last one before the `n`th that saw the endpoint, and `r` won it. */
  ghost predicate LastSighting(polls: seq<Poll>, n: nat, k: Key, r: Connection, j: nat)
    requires n <= |polls|
  {
    && j < n && k in polls[j].tally && k in polls[j].winners && polls[j].winners[k] == r
    && forall m :: j < m < n ==> k !in polls[m].tally
  }

  ghost predicate LastWon(polls: seq<Poll>, n: nat, k: Key, r: Connection)
    requires n <= |polls|
  {
    exists j: nat :: LastSighting(polls, n, k, r, j)
  }

  predicate Waits(c: Candidate, r: Connection) { c.pending.Some? && c.pending.value.conn == r }

  /** When one sighting changes the revision. */
  lemma SightingChangesIff(h: Hashes, k: Key, c: Candidate, v: Vote, round: int, now: int)
    requires Settled(h, k, c, round - 1)
    ensures Sighted(Some(c), v, round, now).config.conn != c.config.conn <==>
            v.config.conn != c.config.conn && (v.count >= 2 || Waits(c, v.config.conn))
    ensures forall r :: Waits(Sighted(Some(c), v, round, now), r) <==> r == v.config.conn && Sighted(Some(c), v, round, now).config.conn != r
  {
  }

  lemma MissKeepsPending(c: Candidate, sole: Option<Key>)
    requires Missed(c, sole).Some?
    ensures Missed(c, sole).value.pending == c.pending && Missed(c, sole).value.config == c.config
    ensures Missed(c, sole).value.lastSeenRound == c.lastSeenRound
  {
  }

  lemma LastWonStep(polls: seq<Poll>, n: nat, k: Key, r: Connection)
    requires n < |polls|
    ensures k in polls[n].tally && k in polls[n].winners ==> (LastWon(polls, n + 1, k, r) <==> polls[n].winners[k] == r)
    ensures k !in polls[n].tally ==> (LastWon(polls, n + 1, k, r) <==> LastWon(polls, n, k, r))
  {
    if k in polls[n].tally && k in polls[n].winners && polls[n].winners[k] == r {
      assert LastSighting(polls, n + 1, k, r, n);
    }
    if k !in polls[n].tally && LastWon(polls, n, k, r) {
      var j: nat :| LastSighting(polls, n, k, r, j);
      assert LastSighting(polls, n + 1, k, r, j);
    }
    if LastWon(polls, n + 1, k, r) {
      var j: nat :| LastSighting(polls, n + 1, k, r, j);
      assert j < n ==> LastSighting(polls, n, k, r, j);
    }
  }

  /** What waits for a second sighting is the revision that won the last one, unless it is the one
      in use; unseen rounds in between do not matter. */
  ghost predicate WaitsForLast(polls: seq<Poll>, n: nat, k: Key, c: Candidate)
    requires n <= |polls|
  {
    forall r :: Waits(c, r) <==> r != c.config.conn && LastWon(polls, n, k, r)
  }

  lemma WaitsAfterSighting(h: Hashes, polls: seq<Poll>, n: nat, k: Key, before: Option<Candidate>, v: Vote, round: int)
    requires n < |polls| && k in polls[n].tally && k in polls[n].winners && polls[n].winners[k] == v.config.conn
    requires before.Some? ==> Settled(h, k, before.value, round - 1)
    ensures WaitsForLast(polls, n + 1, k, Sighted(before, v, round, polls[n].now))
  {
    var c := Sighted(before, v, round, polls[n].now);
    forall r ensures Waits(c, r) <==> r != c.config.conn && LastWon(polls, n + 1, k, r) {
      LastWonStep(polls, n, k, r);
      if before.Some? {
        SightingChangesIff(h, k, before.value, v, round, polls[n].now);
      }
    }
  }

  lemma WaitsAfterMiss(polls: seq<Poll>, n: nat, k: Key, c: Candidate, sole: Option<Key>)
    requires n < |polls| && k !in polls[n].tally && WaitsForLast(polls, n, k, c) && Missed(c, sole).Some?
    ensures WaitsForLast(polls, n + 1, k, Missed(c, sole).value)
  {
    MissKeepsPending(c, sole);
    var m := Missed(c, sole).value;
    forall r ensures Waits(m, r) <==> r != m.config.conn && LastWon(polls, n + 1, k, r) {
      LastWonStep(polls, n, k, r);
      assert Waits(c, r) <==> r != c.config.conn && LastWon(polls, n, k, r);
    }
  }

  lemma {:induction false} PendingIsLastWinner(h: Hashes, start: int, pools: seq<map<Key, Candidate>>, polls: seq<Poll>, n: nat, k: Key)
    requires IsRun(h, start, pools, polls) && Consistent(h, pools[0], start) && Unpended(pools[0]) && n < |pools| && k in pools[n]
    ensures WaitsForLast(polls, n, k, pools[n][k])
  {
    assert |pools| == |polls| + 1;
    hide IsRun, IsPoll, Consistent, Filed, Sighted, Missed, Settled;
    if n > 0 {
      var i, round := n - 1, start + n;
      var p := polls[i];
      StepOfRun(h, start, pools, polls, i, k);
      if k in p.tally {
        WaitsAfterSighting(h, polls, i, k, At(pools[i], k), p.tally[k][p.winners[k]], round);
      } else {
        PendingIsLastWinner(h, start, pools, polls, i, k);
        WaitsAfterMiss(polls, i, k, pools[i][k], Sole(h, p.tally, k, IdentityOf(h, pools[i][k].config), p.samples));
      }
    } else {
      NothingPending(polls, k, pools[0]);
    }
  }

  lemma NothingPending(polls: seq<Poll>, k: Key, pool: map<Key, Candidate>)
    requires Unpended(pool) && k in pool
    ensures WaitsForLast(polls, 0, k, pool[k])
  {
    forall r ensures !LastWon(polls, 0, k, r) {
    }
  }

  /** The poll saw the endpoint, and a revision other than the one in use won its vote. */
  ghost predicate Challenged(pools: seq<map<Key, Candidate>>, polls: seq<Poll>, i: nat, k: Key)
    requires i < |polls| && |pools| == |polls| + 1 && k in pools[i]
  {
    k in polls[i].tally && k in polls[i].winners && polls[i].winners[k] in polls[i].tally[k] && polls[i].winners[k] != pools[i][k].config.conn
  }

  /** Over every run, an endpoint changes its revision in a poll exactly when another one wins the
      vote and either has two votes in this poll or also won the last sighting before it, however
      many rounds ago that was. */
  lemma RevisionChangesIff(h: Hashes, start: int, pools: seq<map<Key, Candidate>>, polls: seq<Poll>, i: nat, k: Key)
    requires IsRun(h, start, pools, polls) && Consistent(h, pools[0], start) && Unpended(pools[0])
    requires i < |polls| && k in pools[i]
    ensures k in pools[i + 1] && pools[i + 1][k].config.conn != pools[i][k].config.conn <==>
            Challenged(pools, polls, i, k)
            && (polls[i].tally[k][polls[i].winners[k]].count >= 2 || LastWon(polls, i, k, polls[i].winners[k]))
    ensures k in pools[i + 1] && pools[i + 1][k].config.conn != pools[i][k].config.conn ==>
            pools[i + 1][k].config.conn == polls[i].winners[k]
  {
    assert |pools| == |polls| + 1;
    hide IsRun, IsPoll, Consistent, Filed, Sighted, Missed, Settled, Unpended;
    var p, c, round := polls[i], pools[i][k], start + i + 1;
    StepOfRun(h, start, pools, polls, i, k);
    PendingIsLastWinner(h, start, pools, polls, i, k);
    if k in p.tally {
      SightingChangesIff(h, k, c, p.tally[k][p.winners[k]], round, p.now);
    } else if k in pools[i + 1] {
      MissKeepsPending(c, Sole(h, p.tally, k, IdentityOf(h, c.config), p.samples));
    }
  }

  lemma {:induction false} SeenAtLastSighting(h: Hashes, start: int, pools: seq<map<Key, Candidate>>, polls: seq<Poll>, n: nat, k: Key,
                                              r: Connection, j: nat)
    requires IsRun(h, start, pools, polls) && Consistent(h, pools[0], start) && n < |pools| && k in pools[n]
    requires LastSighting(polls, n, k, r, j)
    ensures pools[n][k].lastSeenRound == start + j + 1
  {
    assert |pools| == |polls| + 1;
    hide IsRun, IsPoll, Consistent, Filed, Missed, Settled;
    var i, round := n - 1, start + n;
    var p := polls[i];
    StepOfRun(h, start, pools, polls, i, k);
    if j < i {
      assert LastSighting(polls, i, k, r, j) && k !in p.tally;
      SeenAtLastSighting(h, start, pools, polls, i, k, r, j);
      MissKeepsPending(pools[i][k], Sole(h, p.tally, k, IdentityOf(h, pools[i][k].config), p.samples));
    }
  }

  /** The two sightings that make a revision the one in use are in consecutive rounds exactly when
      the endpoint was not missing in between. */
  lemma ConsecutiveIffNotMissing(h: Hashes, start: int, pools: seq<map<Key, Candidate>>, polls: seq<Poll>, i: nat, k: Key, r: Connection, j: nat)
    requires IsRun(h, start, pools, polls) && Consistent(h, pools[0], start) && i < |polls| && k in pools[i]
    requires LastSighting(polls, i, k, r, j)
    ensures pools[i][k].missingPolls == i - 1 - j
    ensures j == i - 1 <==> pools[i][k].missingPolls == 0
  {
    RunIsConsistent(h, start, pools, polls, i);
    SeenAtLastSighting(h, start, pools, polls, i, k, r, j);
    assert Settled(h, k, pools[i][k], start + i);
  }

  lemma NoSole(h: Hashes, t: Tally, k: Key, identity: (string, string), samples: nat)
    requires samples < 2
    ensures Sole(h, t, k, identity, samples) == None
  {
  }

  lemma TallyOfSingle(h: Hashes, d: Config)
    ensures TallyOf(h, [[d]]) == map[KeyOf(h, d) := map[d.conn := Vote(Prepared(h, d), 1)]]
  {
    assert [[d]][..0] == [];
    PreparedKeepsKey(h, d);
    TallyOfOne(h, map[], d);
  }

  lemma TallyOfNothing(h: Hashes)
    ensures TallyOf(h, [[]]) == map[]
  {
    var sampled: seq<seq<Config>> := [[]];
    assert sampled[..0] == [] && sampled[0] == [];
    assert CountAll(h, map[], []) == map[];
  }

  /** The pool of a restart: one endpoint, seen in no round yet. */
  function Starting(h: Hashes, c: Config): map<Key, Candidate> {
    map[KeyOf(h, c) := Candidate(Prepared(h, c), 0, 0, 0, 0, None, 0, None, 0)]
  }

  lemma StartingIsConsistent(h: Hashes, c: Config)
    ensures Consistent(h, Starting(h, c), 0) && Unpended(Starting(h, c)) && Unmissed(Starting(h, c))
  {
    PreparedKeepsKey(h, c);
  }

  /** A run by its polls. */
  lemma RunExtends(h: Hashes, start: int, pools: seq<map<Key, Candidate>>, polls: seq<Poll>, p: Poll) returns (after: map<Key, Candidate>)
    requires IsRun(h, start, pools, polls) && Filed(h, p.tally) && WinnersOf(p.tally, p.winners)
    ensures IsRun(h, start, pools + [after], polls + [p])
    ensures forall k :: At(after, k) == Step(h, k, At(pools[|polls|], k), p, start + |polls| + 1)
  {
    after := PoolAfter(h, pools[|polls|], p, start + |polls| + 1);
    PoolAfterIsPoll(h, pools[|polls|], p, start + |polls| + 1);
    RunAppend(h, start, pools, polls, p, after);
  }

  lemma RunAppend(h: Hashes, start: int, pools: seq<map<Key, Candidate>>, polls: seq<Poll>, p: Poll, after: map<Key, Candidate>)
    requires IsRun(h, start, pools, polls) && IsPoll(h, pools[|polls|], p, start + |polls| + 1, after)
    ensures IsRun(h, start, pools + [after], polls + [p])
  {
    hide IsPoll;
    var pools', polls' := pools + [after], polls + [p];
    forall i | 0 <= i < |polls'| ensures PollAt(h, start, pools', polls', i) {
      assert i < |polls| ==> PollAt(h, start, pools, polls, i);
    }
  }

  /** An endpoint is seen with a new revision, not seen, and seen with it again: the revision is
      accepted, though the rounds are not consecutive. */
  lemma AcceptedAcrossMiss(h: Hashes, c: Config, d: Config) returns (pools: seq<map<Key, Candidate>>, polls: seq<Poll>)
    requires KeyOf(h, c) == KeyOf(h, d) && c.conn != d.conn
    ensures IsRun(h, 0, pools, polls) && pools[0] == Starting(h, c) && |polls| == 3
    ensures polls[0].tally == polls[2].tally == TallyOf(h, [[d]]) && polls[1].tally == TallyOf(h, [[]])
    ensures var k := KeyOf(h, c);
            && k in pools[2] && pools[2][k].config.conn == c.conn && pools[2][k].missingPolls == 1
            && k in pools[3] && pools[3][k].config.conn == d.conn
  {
    var k, t := KeyOf(h, c), TallyOf(h, [[d]]);
    var seen, missed := Poll(t, map[k := d.conn], 0, 1), Poll(map[], map[], 0, 1);
    TallyOfSingle(h, d);
    TallyOfNothing(h);
    TallyFiled(h, [[d]]);
    PreparedKeepsKey(h, c);
    PreparedKeepsKey(h, d);
    hide TallyOf, IsRun, Prepared, IdentityOf;
    assert IsWinner(t[k], d.conn);
    polls := [];
    pools := [Starting(h, c)];
    assert IsRun(h, 0, pools, polls) by {
      SingleRun(h, 0, Starting(h, c));
    }
    var a := RunExtends(h, 0, pools, polls, seen);
    pools, polls := pools + [a], polls + [seen];
    assert At(a, k) == Some(Sighted(At(pools[0], k), t[k][d.conn], 1, 0));
    var b := RunExtends(h, 0, pools, polls, missed);
    pools, polls := pools + [b], polls + [missed];
    NoSole(h, map[], k, IdentityOf(h, a[k].config), 1);
    assert At(b, k) == Missed(a[k], None);
    var e := RunExtends(h, 0, pools, polls, seen);
    pools, polls := pools + [e], polls + [seen];
    assert At(e, k) == Some(Sighted(Some(b[k]), t[k][d.conn], 3, 0));
  }

  lemma SingleRun(h: Hashes, start: int, pool: map<Key, Candidate>)
    ensures IsRun(h, start, [pool], [])
  {
  }

  lemma TallyOfTwice(h: Hashes, d: Config)
    ensures TallyOf(h, [[d, d], []]) == map[KeyOf(h, d) := map[d.conn := Vote(Prepared(h, d), 2)]]
  {
    var sampled: seq<seq<Config>>, one: seq<seq<Config>>, twice := [[d, d], []], [[d, d]], [d, d];
    var k := KeyOf(h, d);
    var first: Tally := map[k := map[d.conn := Vote(Prepared(h, d), 1)]];
    PreparedKeepsKey(h, d);
    TallyOfOne(h, map[], d);
    assert Count(h, map[], d) == first && VotesFor(first, k) == first[k];
    var votes := first[k][d.conn := Vote(Prepared(h, d), 2)];
    assert Count(h, first, d) == first[k := votes];
    assert votes == map[d.conn := Vote(Prepared(h, d), 2)];
    assert first[k := votes] == map[k := votes];
    assert sampled[..1] == one && one[..0] == [] && twice[..1] == [d];
    assert CountAll(h, map[], twice) == Count(h, CountAll(h, map[], [d]), d);
    assert TallyOf(h, one) == CountAll(h, map[], twice);
    assert TallyOf(h, sampled) == CountAll(h, TallyOf(h, one), []) == TallyOf(h, one);
  }

  lemma OnlyOther(h: Hashes, k: Key, d: Config, identity: (string, string))
    requires KeyOf(h, d) != k && IdentityOf(h, d) == identity
    ensures Sole(h, TallyOf(h, [[d, d], []]), k, identity, 2) == Some(KeyOf(h, d))
    ensures IsSole(h, TallyOf(h, [[d, d], []]), k, identity, 2, KeyOf(h, d))
  {
    var s := KeyOf(h, d);
    var t: Tally := TallyOf(h, [[d, d], []]);
    TallyOfTwice(h, d);
    PreparedKeepsKey(h, d);
    assert d.conn in t[s] && t[s][d.conn].count == 2;
    assert StandsIn(h, t[s], identity, 2);
    assert Replacements(h, t, k, identity, 2) == {s};
    SoleIsUnique(h, t, k, identity, 2, s);
  }

  /** A read that repeats an endpoint can retire another one of the same host and server in two
      polls, although the second sample of each poll does not contain it. */
  lemma RepeatedReadRetires(h: Hashes, c: Config, d: Config) returns (pools: seq<map<Key, Candidate>>, polls: seq<Poll>)
    requires IdentityOf(h, c) == IdentityOf(h, d) && KeyOf(h, c) != KeyOf(h, d)
    ensures IsRun(h, 0, pools, polls) && pools[0] == Starting(h, c) && |polls| == 2
    ensures polls[0].tally == polls[1].tally == TallyOf(h, [[d, d], []]) && polls[0].samples == polls[1].samples == 2
    ensures !InEach(h, [[d, d], []], KeyOf(h, d), d.conn)
    ensures KeyOf(h, c) in pools[1] && KeyOf(h, c) !in pools[2] && LeftByReplacement(h, pools, polls, 1, KeyOf(h, c), KeyOf(h, d))
  {
    var k, s, t := KeyOf(h, c), KeyOf(h, d), TallyOf(h, [[d, d], []]);
    var p := Poll(t, map[s := d.conn], 0, 2);
    TallyOfTwice(h, d);
    RepeatedReadPassesForTwo(h, d);
    TallyFiled(h, [[d, d], []]);
    PreparedKeepsKey(h, c);
    assert IdentityOf(h, Prepared(h, c)) == IdentityOf(h, c) == k.Identity();
    OnlyOther(h, k, d, IdentityOf(h, c));
    hide TallyOf, IsRun, IsSole, InEach, Prepared, IdentityOf;
    assert IsWinner(t[s], d.conn);
    polls := [];
    pools := [Starting(h, c)];
    SingleRun(h, 0, Starting(h, c));
    var a := RunExtends(h, 0, pools, polls, p);
    pools, polls := pools + [a], polls + [p];
    assert At(a, k) == Missed(pools[0][k], Some(s));
    var b := RunExtends(h, 0, pools, polls, p);
    pools, polls := pools + [b], polls + [p];
    assert At(b, k) == Missed(a[k], Some(s)) == None;
  }

  ghost predicate HasIdentity(pool: map<Key, Candidate>, identity: (string, string)) {
    exists k :: k in pool && k.Identity() == identity
  }

  /** A host and server disappear from the pool only in a poll in which every endpoint they
      still have ages out; a replacement never removes them. */
  lemma IdentitiesShrinkByAge(h: Hashes, start: int, pools: seq<map<Key, Candidate>>, polls: seq<Poll>, i: nat, identity: (string, string))
    requires IsRun(h, start, pools, polls) && Consistent(h, pools[0], start) && Unmissed(pools[0])
    requires i < |polls| && HasIdentity(pools[i], identity) && !HasIdentity(pools[i + 1], identity)
    ensures forall k :: k in pools[i] && k.Identity() == identity ==> LeftByAge(start, pools, polls, i, k)
  {
    forall k | k in pools[i] && k.Identity() == identity ensures LeftByAge(start, pools, polls, i, k) {
      WhyEndpointsLeave(h, start, pools, polls, i, k);
    }
  }

  // ---- what the entries of the pool carry ----

  /** Two entries are the same endpoint exactly if host, canonical server and port agree. */
  lemma SameEndpointIff(h: Hashes, c: Config, d: Config)
    ensures KeyOf(h, c) == KeyOf(h, d) <==>
            && (if c.hostID != "" then c.hostID else h.hostOf(c.conn, c.subName, c.groupName, c.name)) ==
               (if d.hostID != "" then d.hostID else h.hostOf(d.conn, d.subName, d.groupName, d.name))
            && h.address(h.normal(c.conn.server)) == h.address(h.normal(d.conn.server)) && c.conn.port == d.conn.port
  {
  }

  /** `c` is the entry `e` of a read with the identifiers it lacks filled in: an identity of its own is
      kept, and otherwise it is the one of its host, server and port. */
  predicate Carries(h: Hashes, c: Config, e: Config) {
    && c.conn == e.conn && c.logicalID == (if e.logicalID != "" then e.logicalID else h.bindingOf(c.hostID, h.normal(e.conn.server), e.conn.port))
    && ShownAs(h, c, e)
  }

  /** `c` has the names, labels, host and node of `e`. */
  predicate ShownAs(h: Hashes, c: Config, e: Config) {
    && c.name == e.name && c.subName == e.subName && c.groupName == e.groupName && c.labels == e.labels
    && c.hostID == (if e.hostID != "" then e.hostID else h.hostOf(e.conn, e.subName, e.groupName, e.name))
    && c.nodeID == h.nodeOf(h.normal(e.conn.server))
  }

  /** The entries of all reads, in the order in which they are counted. */
  function Entries(sampled: seq<seq<Config>>): seq<Config> {
    if sampled == [] then [] else Entries(sampled[..|sampled| - 1]) + sampled[|sampled| - 1]
  }

  predicate Shows(h: Hashes, e: Config, k: Key, r: Connection) { KeyOf(h, e) == k && e.conn == r }

  /** The first entry that shows the endpoint in that revision. */
  predicate IsFirst(h: Hashes, es: seq<Config>, k: Key, r: Connection, i: nat) {
    i < |es| && Shows(h, es[i], k, r) && forall j :: 0 <= j < i ==> !Shows(h, es[j], k, r)
  }

  lemma {:induction false} CountAllConcat(h: Hashes, t: Tally, a: seq<Config>, b: seq<Config>)
    ensures CountAll(h, t, a + b) == CountAll(h, CountAll(h, t, a), b)
  {
    if b == [] {
      assert a + b == a;
    } else {
      CountAllConcat(h, t, a, b[..|b| - 1]);
      hide Count;
      assert (a + b)[..|a + b| - 1] == a + b[..|b| - 1];
    }
  }

  lemma {:induction false} TallyCountsEntries(h: Hashes, sampled: seq<seq<Config>>)
    ensures TallyOf(h, sampled) == CountAll(h, map[], Entries(sampled))
  {
    if sampled != [] {
      TallyCountsEntries(h, sampled[..|sampled| - 1]);
      CountAllConcat(h, map[], Entries(sampled[..|sampled| - 1]), sampled[|sampled| - 1]);
    }
  }

  lemma PreparedCarries(h: Hashes, e: Config)
    ensures Carries(h, Prepared(h, e), e)
  {
  }

  predicate HasVote(t: Tally, k: Key, r: Connection) { k in t && r in t[k] }

  lemma CountAt(h: Hashes, t: Tally, e: Config, k: Key, r: Connection)
    ensures HasVote(Count(h, t, e), k, r) <==> HasVote(t, k, r) || Shows(h, e, k, r)
    ensures HasVote(t, k, r) ==> Count(h, t, e)[k][r].config == t[k][r].config
    ensures !HasVote(t, k, r) && Shows(h, e, k, r) ==> Count(h, t, e)[k][r].config == Prepared(h, e)
  {
    PreparedKeepsKey(h, e);
    hide Prepared, KeyOf;
  }

  /** A vote carries what the first entry of its revision says. */
  lemma {:induction false} VoteIsFirst(h: Hashes, es: seq<Config>, k: Key, r: Connection) returns (i: nat)
    ensures HasVote(CountAll(h, map[], es), k, r) ==> IsFirst(h, es, k, r, i) && Carries(h, CountAll(h, map[], es)[k][r].config, es[i])
    ensures !HasVote(CountAll(h, map[], es), k, r) ==> forall j :: 0 <= j < |es| ==> !Shows(h, es[j], k, r)
  {
    i := 0;
    if es != [] {
      var rest, last := es[..|es| - 1], es[|es| - 1];
      i := VoteIsFirst(h, rest, k, r);
      CountAt(h, CountAll(h, map[], rest), last, k, r);
      PreparedCarries(h, last);
      assert CountAll(h, map[], es) == Count(h, CountAll(h, map[], rest), last);
      hide CountAll, Count, Carries, Prepared, Shows;
      if !HasVote(CountAll(h, map[], rest), k, r) && Shows(h, last, k, r) {
        i := |rest|;
      }
    }
  }

  /** What a poll leaves of the endpoint `k`, given the entry `e` of the winning revision. */
  predicate SeenAs(h: Hashes, before: Option<Candidate>, now: int, c: Candidate, e: Config) {
    && c.lastSeenAt == now
    && match before
       case None => c.firstSeenAt == now && Carries(h, c.config, e) && c.pending.None?
       case Some(b) =>
         && c.firstSeenAt == b.firstSeenAt
         && (if b.config.conn == e.conn then c.config.conn == b.config.conn && c.config.logicalID == b.config.logicalID && ShownAs(h, c.config, e)
             else if c.config.conn == b.config.conn then c.config == b.config && c.pending.Some? && c.pending.value.conn == e.conn
             else c.config.conn == e.conn && (Carries(h, c.config, e) || b.pending == Some(c.config)))
         && (c.pending.Some? ==> c.pending == b.pending || Carries(h, c.pending.value, e))
  }

  ghost predicate PollTells(h: Hashes, before: map<Key, Candidate>, es: seq<Config>, now: int, after: map<Key, Candidate>, k: Key)
    requires k in after
  {
    if exists e :: e in es && KeyOf(h, e) == k then exists i: nat :: FirstSeenAs(h, before, es, now, after[k], k, i)
    else
      && k in before && after[k].config == before[k].config && after[k].pending == before[k].pending
      && after[k].firstSeenAt == before[k].firstSeenAt && after[k].lastSeenAt == before[k].lastSeenAt
  }

  predicate FirstSeenAs(h: Hashes, before: map<Key, Candidate>, es: seq<Config>, now: int, c: Candidate, k: Key, i: nat) {
    i < |es| && IsFirst(h, es, k, es[i].conn, i) && SeenAs(h, At(before, k), now, c, es[i])
  }

  lemma SightedAs(h: Hashes, k: Key, before: Option<Candidate>, observed: Vote, round: int, now: int, e: Config)
    requires before.Some? ==> Settled(h, k, before.value, round - 1)
    requires Carries(h, observed.config, e)
    ensures SeenAs(h, before, now, Sighted(before, observed, round, now), e)
  {
  }

  /** After a poll, an endpoint that was read carries what the first entry of the winning revision
      says: all of it if it is new, its names and labels with the old identity if its revision is
      unchanged, all of it again once a new revision is accepted, now or as announced before.  One
      that was not read is as it was. */
  lemma PollTellsAt(h: Hashes, before: map<Key, Candidate>, sampled: seq<seq<Config>>, p: Poll, round: int, after: map<Key, Candidate>, k: Key)
    requires p.tally == TallyOf(h, sampled) && Consistent(h, before, round - 1) && IsPoll(h, before, p, round, after) && k in after
    ensures PollTells(h, before, Entries(sampled), p.now, after, k)
  {
    var es := Entries(sampled);
    TallyCountsEntries(h, sampled);
    assert At(after, k) == Step(h, k, At(before, k), p, round);
    assert k in before ==> Settled(h, k, before[k], round - 1);
    if k in p.tally {
      var r := p.winners[k];
      assert IsWinner(p.tally[k], r);
      var i := VoteIsFirst(h, es, k, r);
      SightedAs(h, k, At(before, k), p.tally[k][r], round, p.now, es[i]);
      hide Sighted, SeenAs, Carries, Settled, Consistent, IsPoll;
      assert es[i] in es && FirstSeenAs(h, before, es, p.now, after[k], k, i);
    } else {
      forall e | e in es ensures KeyOf(h, e) != k {
        var j := VoteIsFirst(h, es, k, e.conn);
        var n :| 0 <= n < |es| && es[n] == e;
      }
      MissedKeeps(before[k], Sole(h, p.tally, k, IdentityOf(h, before[k].config), p.samples));
    }
  }

  lemma MissedKeeps(c: Candidate, sole: Option<Key>)
    ensures Missed(c, sole).Some? ==>
              var m := Missed(c, sole).value;
              m.config == c.config && m.pending == c.pending && m.firstSeenAt == c.firstSeenAt && m.lastSeenAt == c.lastSeenAt
  {
  }

  /** The identity is the one of host, server and port. */
  predicate IsOwn(h: Hashes, c: Config) {
    c.logicalID == h.bindingOf(c.hostID, h.normal(c.conn.server), c.conn.port)
  }

  ghost predicate AllOwn(h: Hashes, pool: map<Key, Candidate>) {
    forall k :: k in pool ==> IsOwn(h, pool[k].config) && (pool[k].pending.Some? ==> IsOwn(h, pool[k].pending.value))
  }

  /** Reads without identities of their own keep it so. */
  lemma PollKeepsOwn(h: Hashes, before: map<Key, Candidate>, sampled: seq<seq<Config>>, p: Poll, round: int, after: map<Key, Candidate>)
    requires p.tally == TallyOf(h, sampled) && Consistent(h, before, round - 1) && IsPoll(h, before, p, round, after)
    requires AllOwn(h, before) && forall e :: e in Entries(sampled) ==> e.logicalID == ""
    ensures AllOwn(h, after)
  {
    PollKeepsConsistent(h, before, p, round, after);
    forall k | k in after ensures IsOwn(h, after[k].config) && (after[k].pending.Some? ==> IsOwn(h, after[k].pending.value)) {
      PollTellsAt(h, before, sampled, p, round, after, k);
      assert Settled(h, k, after[k], round);
      assert k in before ==> Settled(h, k, before[k], round - 1);
      hide IsPoll, Entries, TallyOf, Consistent, AllOwn;
      if exists e :: e in Entries(sampled) && KeyOf(h, e) == k {
        var i: nat :| FirstSeenAs(h, before, Entries(sampled), p.now, after[k], k, i);
        assert Entries(sampled)[i] in Entries(sampled);
        OwnSeen(h, k, At(before, k), p.now, after[k], Entries(sampled)[i], round);
      }
    }
  }

  lemma OwnSeen(h: Hashes, k: Key, before: Option<Candidate>, now: int, c: Candidate, e: Config, round: int)
    requires SeenAs(h, before, now, c, e) && e.logicalID == "" && Settled(h, k, c, round)
    requires before.Some? ==> Settled(h, k, before.value, round - 1) && IsOwn(h, before.value.config)
                              && (before.value.pending.Some? ==> IsOwn(h, before.value.pending.value))
    ensures IsOwn(h, c.config) && (c.pending.Some? ==> IsOwn(h, c.pending.value))
  {
  }

  /** Then every endpoint has an identity of its own, if the hash does not collide. */
  lemma OwnAreDistinct(h: Hashes, pool: map<Key, Candidate>, round: int, k: Key, l: Key)
    requires Consistent(h, pool, round) && AllOwn(h, pool) && k in pool && l in pool
    requires forall a, b, c, x, y, z :: h.bindingOf(a, b, c) == h.bindingOf(x, y, z) ==> a == x && b == y && c == z
    ensures pool[k].config.logicalID == pool[l].config.logicalID <==> k == l
  {
    assert Settled(h, k, pool[k], round) && Settled(h, l, pool[l], round);
  }

  // ---- the pool as the source runs it ----

  datatype Stats = Stats(bindings: nat, added: nat, updated: nat, detached: nat, missing: nat)

  function Moved(before: map<Key, Candidate>, after: map<Key, Candidate>, among: set<Key>): set<Key> {
    set k | k in among && k in before && k in after && after[k].config.conn != before[k].config.conn
  }

  /** The order in which Observe lists the configurations. */
  function Label(c: Config): string {
    c.subName + "\0" + c.groupName + "\0" + c.name + "\0" + c.conn.server + ":" + Padded(c.conn.port)
  }

  function Padded(port: string): string
    decreases 5 - |port|
  {
    if |port| >= 5 then port else Padded("0" + port)
  }

  predicate Listed(a: Config, b: Config) { Less(Label(a), Label(b)) }

  function Place(c: Config): seq<string> {
    [c.subName, c.groupName, c.name, c.conn.server + ":" + Padded(c.conn.port)]
  }

  predicate PlainNames(c: Config) { '\0' !in c.subName && '\0' !in c.groupName && '\0' !in c.name }

  /** The listing is sorted by subscription, group, name, and address with padded port, in this order. */
  lemma ListedIff(a: Config, b: Config)
    requires PlainNames(a) && PlainNames(b)
    ensures Listed(a, b) <==> RanksBefore(Place(a), Place(b))
  {
    var x, y := Place(a), Place(b);
    var x2, y2 := x[2] + ("\0" + x[3]), y[2] + ("\0" + y[3]);
    var x1, y1 := x[1] + ("\0" + x2), y[1] + ("\0" + y2);
    assert Label(a) == x[0] + ("\0" + x1) && Label(b) == y[0] + ("\0" + y1);
    LessAtMark(x[0], x1, y[0], y1);
    LessAtMark(x[1], x2, y[1], y2);
    LessAtMark(x[2], x[3], y[2], y[3]);
    assert x == [x[0]] + x[1..] && x[1..] == [x[1]] + x[2..] && x[2..] == [x[2]] + x[3..] && x[3..] == [x[3]] + [];
    assert y == [y[0]] + y[1..] && y[1..] == [y[1]] + y[2..] && y[2..] == [y[2]] + y[3..] && y[3..] == [y[3]] + [];
    RanksCons(x[0], x[1..], y[0], y[1..]);
    RanksCons(x[1], x[2..], y[1], y[2..]);
    RanksCons(x[2], x[3..], y[2], y[3..]);
    RanksCons(x[3], [], y[3], []);
    assert !RanksBefore([], []);
    hide RanksBefore, Less, Padded;
  }

  function ConfigsOf(pool: map<Key, Candidate>, keys: seq<Key>): seq<Config>
    requires forall k :: k in keys ==> k in pool
  {
    seq(|keys|, i requires 0 <= i < |keys| => pool[keys[i]].config)
  }

  ghost predicate DistinctKeys(keys: seq<Key>) {
    forall i, j :: 0 <= i < j < |keys| ==> keys[i] != keys[j]
  }

  lemma DistinctAppend(keys: seq<Key>, key: Key)
    requires DistinctKeys(keys) && key !in keys
    ensures DistinctKeys(keys + [key])
  {
  }

  /** `configs` lists the configuration of every endpoint once, in order. */
  ghost predicate IsListing(pool: map<Key, Candidate>, configs: seq<Config>) {
    && Sorted(configs, Listed)
    && exists keys: seq<Key> ::
         && (forall k :: k in keys <==> k in pool) && DistinctKeys(keys)
         && multiset(configs) == multiset(ConfigsOf(pool, keys))
  }

  lemma CountAllStep(h: Hashes, t: Tally, read: seq<Config>, j: nat)
    requires j < |read|
    ensures CountAll(h, t, read[..j + 1]) == Count(h, CountAll(h, t, read[..j]), read[j])
  {
    assert read[..j + 1][..j] == read[..j];
  }

  /** The body of the loop over a read. */
  method CountEntry(h: Hashes, before: Tally, proxy: Config) returns (seen: Tally)
    ensures seen == Count(h, before, proxy)
  {
    seen := before;
    var clone := Prepared(h, proxy);
    var key, revision := KeyOf(h, clone), clone.conn;
    PreparedKeepsKey(h, proxy);
    hide Prepared, KeyOf;
    if key !in seen {
      seen := seen[key := map[]];
    }
    var entry := if revision in seen[key] then seen[key][revision] else Vote(clone, 0);
    seen := seen[key := seen[key][revision := entry.(count := entry.count + 1)]];
  }

  method CountRead(h: Hashes, before: Tally, read: seq<Config>) returns (seen: Tally)
    ensures seen == CountAll(h, before, read)
  {
    seen := before;
    for j := 0 to |read|
      invariant seen == CountAll(h, before, read[..j])
    {
      CountAllStep(h, before, read, j);
      hide CountAll;
      seen := CountEntry(h, seen, read[j]);
    }
    assert read[..|read|] == read;
  }

  method CountVotes(h: Hashes, sampled: seq<seq<Config>>) returns (seen: Tally)
    ensures seen == TallyOf(h, sampled)
  {
    seen := map[];
    for i := 0 to |sampled|
      invariant seen == TallyOf(h, sampled[..i])
    {
      seen := CountRead(h, seen, sampled[i]);
      assert sampled[..i + 1][..i] == sampled[..i];
    }
    assert sampled[..|sampled|] == sampled;
  }

  /** The revision with the most votes; among equals, whichever the iteration meets first. */
  method Winner(votes: map<Connection, Vote>) returns (revision: Connection)
    requires votes != map[]
    ensures IsWinner(votes, revision)
  {
    var pending := votes.Keys;
    var first :| first in pending;
    revision := first;
    pending := pending - {first};
    while pending != {}
      invariant pending <= votes.Keys && revision in votes
      invariant forall d :: d in votes && d !in pending ==> votes[d].count <= votes[revision].count
      decreases pending
    {
      var candidate :| candidate in pending;
      if votes[candidate].count > votes[revision].count {
        revision := candidate;
      }
      pending := pending - {candidate};
    }
  }

  predicate CountsPending(c: Candidate) {
    c.pendingRounds == if c.pending.Some? then 1 else 0
  }

  ghost predicate PendingCounted(pool: map<Key, Candidate>) {
    forall k :: k in pool ==> CountsPending(pool[k])
  }

  ghost predicate Voted(seen: Tally) {
    forall k :: k in seen ==> seen[k] != map[]
  }

  lemma SeenToEnd(before: map<Key, Candidate>, seen: Tally, winners: map<Key, Connection>, round: int, now: int,
                  after: map<Key, Candidate>, added: nat, updated: nat)
    requires SeenSoFar(before, seen, {}, winners, round, now, after, added, updated)
    ensures WinnersOf(seen, winners)
    ensures added == |seen.Keys - before.Keys| && updated == |Moved(before, after, seen.Keys)|
  {
    assert winners.Keys == seen.Keys;
    forall k | k in seen ensures IsWinner(seen[k], winners[k]) {
      assert WonAt(seen, winners, k);
    }
  }

  lemma ReadyToSee(h: Hashes, pool: map<Key, Candidate>, round: int, seen: Tally)
    requires Consistent(h, pool, round) && Filed(h, seen)
    ensures PendingCounted(pool) && Voted(seen)
  {
    forall k | k in pool ensures CountsPending(pool[k]) {
      assert Settled(h, k, pool[k], round);
    }
  }

  /** The body of the first loop of Observe. */
  method Sight(current: Option<Candidate>, observed: Vote, round: int, now: int) returns (after: Candidate, updated: bool)
    requires current.Some? ==> CountsPending(current.value)
    ensures after == Sighted(current, observed, round, now)
    ensures updated <==> current.Some? && after.config.conn != current.value.config.conn
  {
    updated := false;
    if current.None? {
      after := Candidate(observed.config, now, now, round, 0, None, 0, None, 0);
      return;
    }
    after := current.value;
    after := after.(lastSeenAt := now);
    after := after.(lastSeenRound := round);
    after := after.(missingPolls := 0);
    after := after.(replacement := None);
    after := after.(replacementRounds := 0);
    if after.config.conn == observed.config.conn {
      after := after.(config := Relabelled(after.config, observed.config));
      after := after.(pending := None, pendingRounds := 0);
      return;
    }
    if observed.count >= 2 {
      after := after.(config := observed.config);
      after := after.(pending := None, pendingRounds := 0);
      updated := true;
      return;
    }
    if after.pending.Some? && after.pending.value.conn == observed.config.conn {
      after := after.(pendingRounds := after.pendingRounds + 1);
    } else {
      after := after.(pending := Some(observed.config), pendingRounds := 1);
    }
    if after.pendingRounds >= 2 {
      after := after.(config := after.pending.value);
      after := after.(pending := None, pendingRounds := 0);
      updated := true;
    }
  }

  method CountedInAll(h: Hashes, votes: map<Connection, Vote>, identity: (string, string), samples: nat) returns (found: bool)
    ensures found <==> StandsIn(h, votes, identity, samples)
  {
    found := false;
    var pending := votes.Keys;
    while pending != {}
      invariant pending <= votes.Keys
      invariant found <==> exists r :: r in votes.Keys - pending && votes[r].count == samples && IdentityOf(h, votes[r].config) == identity
      decreases pending
    {
      var r :| r in pending;
      pending := pending - {r};
      if votes[r].count == samples && IdentityOf(h, votes[r].config) == identity {
        found := true;
      }
    }
  }

  /** The search for a replacement inside the second loop of Observe. */
  method FindSole(h: Hashes, seen: Tally, key: Key, identity: (string, string), samples: nat) returns (sole: Option<Key>)
    ensures sole == Sole(h, seen, key, identity, samples)
  {
    hide StandsIn;
    sole := None;
    if samples >= 2 {
      var replacements: set<Key> := {};
      var pending := seen.Keys;
      while pending != {}
        invariant pending <= seen.Keys
        invariant replacements == Replacements(h, seen, key, identity, samples) - pending
        decreases pending
      {
        var other :| other in pending;
        pending := pending - {other};
        if other != key {
          var stands := CountedInAll(h, seen[other], identity, samples);
          if stands {
            replacements := replacements + {other};
          }
        }
      }
      if |replacements| == 1 {
        var found :| found in replacements;
        Singleton(replacements, found);
        SoleIsUnique(h, seen, key, identity, samples, found);
        sole := Some(found);
      }
    }
  }

  lemma Singleton<T>(s: set<T>, x: T)
    requires |s| == 1 && x in s
    ensures s == {x}
  {
    assert |s - {x}| == 0;
  }

  /** The body of the second loop of Observe; None means that the endpoint is deleted. */
  method Miss(c: Candidate, sole: Option<Key>) returns (after: Option<Candidate>)
    ensures after == Missed(c, sole)
  {
    var candidate := c;
    if sole.Some? {
      if candidate.replacement == sole {
        candidate := candidate.(replacementRounds := candidate.replacementRounds + 1);
      } else {
        candidate := candidate.(replacement := sole, replacementRounds := 1);
      }
      if candidate.replacementRounds >= 2 {
        return None;
      }
    } else {
      candidate := candidate.(replacement := None, replacementRounds := 0);
    }
    candidate := candidate.(missingPolls := candidate.missingPolls + 1);
    if candidate.missingPolls >= DETACH_AFTER {
      return None;
    }
    after := Some(candidate);
  }

  /** What the first loop makes of an endpoint whose vote has been taken. */
  ghost predicate SeenAt(before: map<Key, Candidate>, seen: Tally, winners: map<Key, Connection>, round: int, now: int,
                         after: map<Key, Candidate>, k: Key)
  {
    if k in winners && k in seen && winners[k] in seen[k] then
      k in after && after[k] == Sighted(At(before, k), seen[k][winners[k]], round, now)
    else At(after, k) == At(before, k)
  }

  ghost predicate FirstPass(before: map<Key, Candidate>, seen: Tally, winners: map<Key, Connection>, round: int, now: int,
                            after: map<Key, Candidate>)
  {
    forall k :: SeenAt(before, seen, winners, round, now, after, k)
  }

  ghost predicate WonAt(seen: Tally, winners: map<Key, Connection>, k: Key) {
    k in winners ==> k in seen && IsWinner(seen[k], winners[k])
  }

  ghost predicate AllWon(seen: Tally, winners: map<Key, Connection>) {
    forall k :: WonAt(seen, winners, k)
  }

  /** The first loop with the endpoints of `pending` still ahead. */
  ghost predicate SeenSoFar(before: map<Key, Candidate>, seen: Tally, pending: set<Key>, winners: map<Key, Connection>, round: int, now: int,
                            after: map<Key, Candidate>, added: nat, updated: nat)
  {
    && pending <= seen.Keys && winners.Keys == seen.Keys - pending && AllWon(seen, winners)
    && FirstPass(before, seen, winners, round, now, after)
    && Tallied(before, winners, after, added, updated)
  }

  /** The two counters of the first loop. */
  ghost predicate Tallied(before: map<Key, Candidate>, winners: map<Key, Connection>, after: map<Key, Candidate>, added: nat, updated: nat) {
    added == |winners.Keys - before.Keys| && updated == |Moved(before, after, winners.Keys)|
  }

  lemma FirstPassStep(before: map<Key, Candidate>, seen: Tally, winners: map<Key, Connection>, round: int, now: int,
                      after: map<Key, Candidate>, key: Key, revision: Connection)
    requires FirstPass(before, seen, winners, round, now, after)
    requires key in seen && key !in winners && revision in seen[key]
    ensures At(after, key) == At(before, key)
    ensures FirstPass(before, seen, winners[key := revision], round, now,
                      after[key := Sighted(At(before, key), seen[key][revision], round, now)])
  {
    var winners', after' := winners[key := revision], after[key := Sighted(At(before, key), seen[key][revision], round, now)];
    forall k ensures SeenAt(before, seen, winners', round, now, after', k) {
      assert SeenAt(before, seen, winners, round, now, after, k);
    }
    assert SeenAt(before, seen, winners, round, now, after, key);
  }

  /** The round number tells which endpoints were seen. */
  ghost predicate RoundsTell(pool: map<Key, Candidate>, seen: Tally, round: int) {
    forall k :: k in pool ==> (k in seen <==> pool[k].lastSeenRound == round)
  }

  function Grown(n: nat, grows: bool): nat { if grows then n + 1 else n }

  lemma Grows<T>(s: set<T>, x: T, grows: bool, t: set<T>)
    requires x !in s && t == if grows then s + {x} else s
    ensures |t| == Grown(|s|, grows)
  {
  }

  predicate IsMove(before: map<Key, Candidate>, k: Key, c: Candidate) {
    k in before && c.config.conn != before[k].config.conn
  }

  lemma AddedStep(before: map<Key, Candidate>, winners: map<Key, Connection>, key: Key, revision: Connection)
    requires key !in winners
    ensures |winners[key := revision].Keys - before.Keys| == Grown(|winners.Keys - before.Keys|, key !in before)
  {
    Grows(winners.Keys - before.Keys, key, key !in before, winners[key := revision].Keys - before.Keys);
  }

  lemma UpdatedStep(before: map<Key, Candidate>, after: map<Key, Candidate>, winners: map<Key, Connection>, key: Key, revision: Connection, c: Candidate)
    requires key !in winners
    ensures |Moved(before, after[key := c], winners[key := revision].Keys)| ==
            Grown(|Moved(before, after, winners.Keys)|, IsMove(before, key, c))
  {
    MovedStep(before, after, winners.Keys, key, c);
    assert winners[key := revision].Keys == winners.Keys + {key};
    Grows(Moved(before, after, winners.Keys), key, IsMove(before, key, c), Moved(before, after[key := c], winners.Keys + {key}));
  }

  lemma TalliedStep(before: map<Key, Candidate>, after: map<Key, Candidate>, winners: map<Key, Connection>, added: nat, updated: nat,
                    key: Key, revision: Connection, c: Candidate)
    requires Tallied(before, winners, after, added, updated) && key !in winners
    ensures Tallied(before, winners[key := revision], after[key := c], Grown(added, key !in before), Grown(updated, IsMove(before, key, c)))
  {
    AddedStep(before, winners, key, revision);
    UpdatedStep(before, after, winners, key, revision, c);
  }

  lemma SeenStep(before: map<Key, Candidate>, seen: Tally, pending: set<Key>, winners: map<Key, Connection>, round: int, now: int,
                 after: map<Key, Candidate>, added: nat, updated: nat, key: Key, revision: Connection, c: Candidate)
    requires SeenSoFar(before, seen, pending, winners, round, now, after, added, updated)
    requires key in pending && IsWinner(seen[key], revision)
    requires FirstPass(before, seen, winners[key := revision], round, now, after[key := c])
    ensures SeenSoFar(before, seen, pending - {key}, winners[key := revision], round, now, after[key := c],
                      Grown(added, key !in before), Grown(updated, IsMove(before, key, c)))
  {
    var winners' := winners[key := revision];
    assert winners'.Keys == seen.Keys - (pending - {key});
    forall k ensures WonAt(seen, winners', k) {
      assert WonAt(seen, winners, k);
    }
    TalliedStep(before, after, winners, added, updated, key, revision, c);
  }

  lemma MovedStep(before: map<Key, Candidate>, after: map<Key, Candidate>, among: set<Key>, key: Key, c: Candidate)
    requires key !in among
    ensures Moved(before, after[key := c], among + {key}) ==
            if IsMove(before, key, c) then Moved(before, after, among) + {key} else Moved(before, after, among)
  {
  }

  /** What the second loop makes of an endpoint. */
  ghost predicate UnseenAt(h: Hashes, seen: Tally, samples: nat, before: map<Key, Candidate>, after: map<Key, Candidate>, k: Key) {
    At(after, k) ==
    if k in before && k !in seen then Missed(before[k], Sole(h, seen, k, IdentityOf(h, before[k].config), samples))
    else At(before, k)
  }

  ghost predicate PassedAt(h: Hashes, seen: Tally, samples: nat, before: map<Key, Candidate>, after: map<Key, Candidate>, pending: set<Key>, k: Key) {
    if k in pending then At(after, k) == At(before, k) else UnseenAt(h, seen, samples, before, after, k)
  }

  ghost predicate SecondPass(h: Hashes, seen: Tally, samples: nat, before: map<Key, Candidate>, after: map<Key, Candidate>, pending: set<Key>) {
    forall k :: PassedAt(h, seen, samples, before, after, pending, k)
  }

  /** The second loop with the endpoints of `pending` still ahead. */
  ghost predicate UnseenSoFar(h: Hashes, seen: Tally, samples: nat, before: map<Key, Candidate>, after: map<Key, Candidate>, pending: set<Key>,
                              detached: nat, missing: nat)
  {
    && pending <= before.Keys
    && SecondPass(h, seen, samples, before, after, pending)
    && detached == |before.Keys - after.Keys|
    && missing == |after.Keys - seen.Keys - pending|
  }

  function Put(pool: map<Key, Candidate>, key: Key, c: Option<Candidate>): map<Key, Candidate> {
    if c.None? then pool - {key} else pool[key := c.value]
  }

  lemma SecondPassStep(h: Hashes, seen: Tally, samples: nat, before: map<Key, Candidate>, after: map<Key, Candidate>, pending: set<Key>,
                       key: Key, c: Option<Candidate>)
    requires SecondPass(h, seen, samples, before, after, pending) && key in pending && key in before && key !in seen
    requires c == Missed(before[key], Sole(h, seen, key, IdentityOf(h, before[key].config), samples))
    ensures SecondPass(h, seen, samples, before, Put(after, key, c), pending - {key})
  {
    var next := Put(after, key, c);
    forall k ensures PassedAt(h, seen, samples, before, next, pending - {key}, k) {
      assert PassedAt(h, seen, samples, before, after, pending, k);
      assert k != key ==> At(next, k) == At(after, k);
    }
  }

  lemma SecondPassSkip(h: Hashes, seen: Tally, samples: nat, before: map<Key, Candidate>, after: map<Key, Candidate>, pending: set<Key>, key: Key)
    requires SecondPass(h, seen, samples, before, after, pending) && key in pending && key in seen
    ensures SecondPass(h, seen, samples, before, after, pending - {key})
  {
    forall k ensures PassedAt(h, seen, samples, before, after, pending - {key}, k) {
      assert PassedAt(h, seen, samples, before, after, pending, k);
    }
  }

  lemma DetachedStep(before: map<Key, Candidate>, after: map<Key, Candidate>, key: Key, c: Option<Candidate>)
    requires key in before && key in after
    ensures |before.Keys - Put(after, key, c).Keys| == Grown(|before.Keys - after.Keys|, c.None?)
  {
    Grows(before.Keys - after.Keys, key, c.None?, before.Keys - Put(after, key, c).Keys);
  }

  lemma MissingStep(after: map<Key, Candidate>, seen: set<Key>, pending: set<Key>, key: Key, c: Option<Candidate>)
    requires key in after && key in pending && key !in seen
    ensures |Put(after, key, c).Keys - seen - (pending - {key})| == Grown(|after.Keys - seen - pending|, c.Some?)
  {
    Grows(after.Keys - seen - pending, key, c.Some?, Put(after, key, c).Keys - seen - (pending - {key}));
  }

  lemma UnseenStep(h: Hashes, seen: Tally, samples: nat, before: map<Key, Candidate>, after: map<Key, Candidate>, pending: set<Key>,
                   detached: nat, missing: nat, key: Key, c: Option<Candidate>)
    requires UnseenSoFar(h, seen, samples, before, after, pending, detached, missing) && key in pending && key !in seen && key in after
    requires SecondPass(h, seen, samples, before, Put(after, key, c), pending - {key})
    ensures UnseenSoFar(h, seen, samples, before, Put(after, key, c), pending - {key},
                        Grown(detached, c.None?), Grown(missing, c.Some?))
  {
    DetachedStep(before, after, key, c);
    MissingStep(after, seen.Keys, pending, key, c);
  }

  lemma UnseenSkip(h: Hashes, seen: Tally, samples: nat, before: map<Key, Candidate>, after: map<Key, Candidate>, pending: set<Key>,
                   detached: nat, missing: nat, key: Key)
    requires UnseenSoFar(h, seen, samples, before, after, pending, detached, missing) && key in pending && key in seen
    ensures UnseenSoFar(h, seen, samples, before, after, pending - {key}, detached, missing)
  {
    SecondPassSkip(h, seen, samples, before, after, pending, key);
    assert after.Keys - seen.Keys - pending == after.Keys - seen.Keys - (pending - {key});
  }

  lemma SeenStart(before: map<Key, Candidate>, seen: Tally, round: int, now: int)
    ensures SeenSoFar(before, seen, seen.Keys, map[], round, now, before, 0, 0)
  {
    var none: map<Key, Connection> := map[];
    assert none.Keys - before.Keys == {} && Moved(before, before, none.Keys) == {};
    assert FirstPass(before, seen, none, round, now, before);
  }

  lemma UnseenStart(h: Hashes, seen: Tally, samples: nat, before: map<Key, Candidate>)
    ensures UnseenSoFar(h, seen, samples, before, before, before.Keys, 0, 0)
  {
    assert before.Keys - before.Keys == {} && before.Keys - seen.Keys - before.Keys == {};
    forall k ensures PassedAt(h, seen, samples, before, before, before.Keys, k) {}
  }

  /** One turn of the first loop, for the endpoint `key`. */
  method SeeOne(seen: Tally, key: Key, round: int, now: int, ghost before: map<Key, Candidate>,
                pool: map<Key, Candidate>, ghost pending: set<Key>, added: nat, updated: nat, ghost winners: map<Key, Connection>)
    returns (pool': map<Key, Candidate>, added': nat, updated': nat, ghost winners': map<Key, Connection>)
    requires PendingCounted(before) && Voted(seen) && key in pending
    requires SeenSoFar(before, seen, pending, winners, round, now, pool, added, updated)
    ensures SeenSoFar(before, seen, pending - {key}, winners', round, now, pool', added', updated')
  {
    var revision := Winner(seen[key]);
    FirstPassStep(before, seen, winners, round, now, pool, key, revision);
    var current := At(pool, key);
    assert current.Some? ==> CountsPending(before[key]);
    var after, changed := Sight(current, seen[key][revision], round, now);
    SeenStep(before, seen, pending, winners, round, now, pool, added, updated, key, revision, after);
    pool' := pool[key := after];
    added' := if current.None? then added + 1 else added;
    updated' := if changed then updated + 1 else updated;
    winners' := winners[key := revision];
  }

  /** One turn of the second loop, for the endpoint `key`. */
  method MissOne(h: Hashes, seen: Tally, samples: nat, key: Key, round: int, ghost before: map<Key, Candidate>,
                 pool: map<Key, Candidate>, ghost pending: set<Key>, detached: nat, missing: nat)
    returns (pool': map<Key, Candidate>, detached': nat, missing': nat)
    requires RoundsTell(before, seen, round) && key in pending
    requires UnseenSoFar(h, seen, samples, before, pool, pending, detached, missing)
    ensures UnseenSoFar(h, seen, samples, before, pool', pending - {key}, detached', missing')
  {
    assert PassedAt(h, seen, samples, before, pool, pending, key);
    pool', detached', missing' := pool, detached, missing;
    if pool[key].lastSeenRound == round {
      UnseenSkip(h, seen, samples, before, pool, pending, detached, missing, key);
      return;
    }
    var sole := FindSole(h, seen, key, IdentityOf(h, pool[key].config), samples);
    var after := Miss(pool[key], sole);
    SecondPassStep(h, seen, samples, before, pool, pending, key, after);
    UnseenStep(h, seen, samples, before, pool, pending, detached, missing, key, after);
    if after.None? {
      pool' := pool - {key};
      detached' := detached + 1;
    } else {
      pool' := pool[key := after.value];
      missing' := missing + 1;
    }
  }

  /** The candidate was made from the last of the first `n` entries with its key. */
  predicate StartedFrom(h: Hashes, initial: seq<Config>, n: nat, now: int, c: Candidate, k: Key, i: nat) {
    && i < n <= |initial| && KeyOf(h, initial[i]) == k && (forall j :: i < j < n ==> KeyOf(h, initial[j]) != k)
    && Carries(h, c.config, initial[i]) && c.firstSeenAt == c.lastSeenAt == now
  }

  lemma StartedStep(h: Hashes, initial: seq<Config>, n: nat, next: nat, now: int, before: map<Key, Candidate>, clone: Config)
    requires next == n + 1 <= |initial| && clone == Prepared(h, initial[n])
    requires forall k :: k in before ==> exists j: nat :: StartedFrom(h, initial, n, now, before[k], k, j)
    ensures var after := before[KeyOf(h, clone) := Candidate(clone, now, now, 0, 0, None, 0, None, 0)];
            forall k :: k in after ==> exists j: nat :: StartedFrom(h, initial, next, now, after[k], k, j)
  {
    var after := before[KeyOf(h, clone) := Candidate(clone, now, now, 0, 0, None, 0, None, 0)];
    PreparedKeepsKey(h, initial[n]);
    PreparedCarries(h, initial[n]);
    hide KeyOf, Prepared, Carries;
    forall k | k in after ensures exists j: nat :: StartedFrom(h, initial, next, now, after[k], k, j) {
      if k == KeyOf(h, clone) {
        assert StartedFrom(h, initial, next, now, after[k], k, n);
      } else {
        var j: nat :| StartedFrom(h, initial, n, now, before[k], k, j);
        assert StartedFrom(h, initial, next, now, after[k], k, j);
      }
    }
  }

  class EndpointPool {
    const h: Hashes
    var round: int
    var candidates: map<Key, Candidate>

    ghost predicate Valid()
      reads this
    {
      Consistent(h, candidates, round)
    }

    /** NewEndpointPool: a later entry with the same key replaces an earlier one. */
    constructor (h: Hashes, initial: seq<Config>, now: int)
      ensures Valid() && Unmissed(candidates) && Unpended(candidates) && round == 0
      ensures forall k :: k in candidates <==> exists c :: c in initial && KeyOf(h, c) == k
      ensures forall k :: k in candidates ==> exists i: nat :: StartedFrom(h, initial, |initial|, now, candidates[k], k, i)
    {
      this.h := h;
      round := 0;
      var built: map<Key, Candidate> := map[];
      for i := 0 to |initial|
        invariant Consistent(h, built, 0) && Unmissed(built) && Unpended(built)
        invariant forall k :: k in built <==> exists j :: 0 <= j < i && KeyOf(h, initial[j]) == k
        invariant forall k :: k in built ==> exists j: nat :: StartedFrom(h, initial, i, now, built[k], k, j)
      {
        ghost var before := built;
        var clone := Prepared(h, initial[i]);
        built := built[KeyOf(h, clone) := Candidate(clone, now, now, 0, 0, None, 0, None, 0)];
        StartedStep(h, initial, i, i + 1, now, before, clone);
      }
      candidates := built;
    }

    /** The first loop of Observe, over the endpoints seen. */
    method Seen(seen: Tally, now: int) returns (added: nat, updated: nat, ghost winners: map<Key, Connection>)
      requires PendingCounted(candidates) && Voted(seen)
      modifies this`candidates
      ensures SeenSoFar(old(candidates), seen, {}, winners, round, now, candidates, added, updated)
    {
      hide SeenSoFar, PendingCounted, Voted;
      added, updated, winners := 0, 0, map[];
      var pending := seen.Keys;
      ghost var before := candidates;
      SeenStart(candidates, seen, round, now);
      while pending != {}
        invariant SeenSoFar(before, seen, pending, winners, round, now, candidates, added, updated)
        decreases pending
      {
        var key :| key in pending;
        candidates, added, updated, winners :=
          SeeOne(seen, key, round, now, before, candidates, pending, added, updated, winners);
        pending := pending - {key};
      }
    }

    /** The second loop of Observe, over the endpoints of the pool that were not seen. */
    method Unseen(seen: Tally, samples: nat) returns (detached: nat, missing: nat)
      requires RoundsTell(candidates, seen, round)
      modifies this`candidates
      ensures UnseenSoFar(h, seen, samples, old(candidates), candidates, {}, detached, missing)
    {
      hide UnseenSoFar, RoundsTell;
      detached, missing := 0, 0;
      var pending := candidates.Keys;
      UnseenStart(h, seen, samples, candidates);
      while pending != {}
        invariant UnseenSoFar(h, seen, samples, old(candidates), candidates, pending, detached, missing)
        decreases pending
      {
        var key :| key in pending;
        candidates, detached, missing :=
          MissOne(h, seen, samples, key, round, old(candidates), candidates, pending, detached, missing);
        pending := pending - {key};
      }
    }

    /** Observe: one poll of `sampled` reads. */
    method Observe(sampled: seq<seq<Config>>, now: int)
      returns (configs: seq<Config>, stats: Stats, ghost winners: map<Key, Connection>)
      requires Valid()
      modifies this
      ensures Valid() && round == old(round) + 1
      ensures IsPoll(h, old(candidates), Poll(TallyOf(h, sampled), winners, now, |sampled|), round, candidates)
      ensures forall k :: k in candidates ==> PollTells(h, old(candidates), Entries(sampled), now, candidates, k)
      ensures IsListing(candidates, configs)
      ensures stats.bindings == |candidates| == |configs|
      ensures stats.added == |TallyOf(h, sampled).Keys - old(candidates).Keys|
      ensures stats.updated == |Moved(old(candidates), candidates, TallyOf(h, sampled).Keys)|
      ensures stats.detached == |old(candidates).Keys - candidates.Keys|
      ensures stats.missing == |candidates.Keys - TallyOf(h, sampled).Keys|
      ensures stats.bindings == |old(candidates)| + stats.added - stats.detached
    {
      round := round + 1;
      var seen := CountVotes(h, sampled);
      TallyFiled(h, sampled);
      ReadyToSee(h, candidates, round - 1, seen);
      var added, updated;
      added, updated, winners := Seen(seen, now);
      SeenToEnd(old(candidates), seen, winners, round, now, candidates, added, updated);
      ghost var poll := Poll(seen, winners, now, |sampled|);
      ghost var between := candidates;
      SeenRoundsTell(h, old(candidates), seen, winners, round, now, between);
      var detached, missing := Unseen(seen, |sampled|);
      TwoPassesRefine(h, old(candidates), poll, round, between, candidates);
      TwoPassesMove(h, old(candidates), poll, round, between, candidates);
      PollKeepsConsistent(h, old(candidates), poll, round, candidates);
      PoolSize(h, old(candidates), poll, round, candidates);
      forall k | k in candidates ensures PollTells(h, old(candidates), Entries(sampled), now, candidates, k) {
        PollTellsAt(h, old(candidates), sampled, poll, round, candidates, k);
      }
      configs := List();
      stats := Stats(|configs|, added, updated, detached, missing);
    }

    /** The end of Observe: the configurations, visited in any order and then sorted. */
    method List() returns (configs: seq<Config>)
      ensures IsListing(candidates, configs) && |configs| == |candidates|
    {
      var pending := candidates.Keys;
      configs := [];
      ghost var keys: seq<Key> := [];
      while pending != {}
        invariant pending <= candidates.Keys
        invariant forall k :: k in keys <==> k in candidates.Keys - pending
        invariant DistinctKeys(keys)
        invariant configs == ConfigsOf(candidates, keys)
        invariant |keys| + |pending| == |candidates|
        decreases pending
      {
        var key :| key in pending;
        configs := configs + [candidates[key].config];
        DistinctAppend(keys, key);
        keys := keys + [key];
        pending := pending - {key};
      }
      ListedIsOrder(configs);
      ghost var unsorted := configs;
      configs := Sort(configs, Listed);
      SameElements(configs, unsorted);
    }
  }

  lemma ListedIsOrder(s: seq<Config>)
    ensures WeakOrderOn(s, Listed)
  {
    forall x, y | Listed(x, y) ensures !Listed(y, x) {
      LessAsymmetric(Label(x), Label(y));
    }
    forall x, y, z | !Listed(y, x) && !Listed(z, y) ensures !Listed(z, x) {
      NotLessTransitive(Label(x), Label(y), Label(z));
    }
  }

  lemma SeenRoundsTell(h: Hashes, before: map<Key, Candidate>, seen: Tally, winners: map<Key, Connection>, round: int, now: int,
                       between: map<Key, Candidate>)
    requires Consistent(h, before, round - 1) && WinnersOf(seen, winners) && FirstPass(before, seen, winners, round, now, between)
    ensures RoundsTell(between, seen, round)
  {
    forall k | k in between ensures k in seen <==> between[k].lastSeenRound == round {
      assert SeenAt(before, seen, winners, round, now, between, k);
      assert k in before ==> Settled(h, k, before[k], round - 1);
    }
  }

  lemma BothPassesAt(h: Hashes, before: map<Key, Candidate>, p: Poll, round: int, between: map<Key, Candidate>, after: map<Key, Candidate>, k: Key)
    requires WinnersOf(p.tally, p.winners)
    requires FirstPass(before, p.tally, p.winners, round, p.now, between)
    requires SecondPass(h, p.tally, p.samples, between, after, {})
    ensures At(after, k) == Step(h, k, At(before, k), p, round)
    ensures k in p.tally ==> k in after && k in between && after[k] == between[k]
    ensures k in between <==> k in before || k in p.tally
  {
    assert SeenAt(before, p.tally, p.winners, round, p.now, between, k);
    assert PassedAt(h, p.tally, p.samples, between, after, {}, k);
  }

  lemma TwoPassesRefine(h: Hashes, before: map<Key, Candidate>, p: Poll, round: int, between: map<Key, Candidate>, after: map<Key, Candidate>)
    requires Filed(h, p.tally) && WinnersOf(p.tally, p.winners)
    requires FirstPass(before, p.tally, p.winners, round, p.now, between)
    requires SecondPass(h, p.tally, p.samples, between, after, {})
    ensures IsPoll(h, before, p, round, after)
  {
    forall k ensures At(after, k) == Step(h, k, At(before, k), p, round) {
      BothPassesAt(h, before, p, round, between, after, k);
    }
  }

  lemma TwoPassesMove(h: Hashes, before: map<Key, Candidate>, p: Poll, round: int, between: map<Key, Candidate>, after: map<Key, Candidate>)
    requires WinnersOf(p.tally, p.winners)
    requires FirstPass(before, p.tally, p.winners, round, p.now, between)
    requires SecondPass(h, p.tally, p.samples, between, after, {})
    ensures Moved(before, between, p.tally.Keys) == Moved(before, after, p.tally.Keys)
    ensures between.Keys - after.Keys == before.Keys - after.Keys
  {
    forall k ensures k in Moved(before, between, p.tally.Keys) <==> k in Moved(before, after, p.tally.Keys)
      ensures k in between.Keys - after.Keys <==> k in before.Keys - after.Keys
    {
      BothPassesAt(h, before, p, round, between, after, k);
    }
  }
}
