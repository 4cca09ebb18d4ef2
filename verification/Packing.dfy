/** How alerts/manager.go cuts a digest into Telegram messages.  Lengths are in characters. */
module Packing {
  const MESSAGE_LIMIT: nat := 3800
  const BLOCK_LIMIT: nat := 3200

  // ---- joined texts ----

  function Join(parts: seq<string>, glue: string): string {
    if parts == [] then ""
    else if |parts| == 1 then parts[0]
    else Join(parts[..|parts| - 1], glue) + glue + parts[|parts| - 1]
  }

  function Flatten<T>(groups: seq<seq<T>>): seq<T> {
    if groups == [] then [] else Flatten(groups[..|groups| - 1]) + groups[|groups| - 1]
  }

  function JoinEach(groups: seq<seq<string>>, glue: string): seq<string> {
    seq(|groups|, i requires 0 <= i < |groups| => Join(groups[i], glue))
  }

  lemma JoinAppend(parts: seq<string>, part: string, glue: string)
    requires parts != []
    ensures Join(parts + [part], glue) == Join(parts, glue) + glue + part
  {
    assert (parts + [part])[..|parts|] == parts;
  }

  lemma FlattenAppend<T>(groups: seq<seq<T>>, group: seq<T>)
    ensures Flatten(groups + [group]) == Flatten(groups) + group
  {
    assert (groups + [group])[..|groups|] == groups;
  }

  ghost predicate NoneEmpty<T>(groups: seq<seq<T>>) { forall i :: 0 <= i < |groups| ==> groups[i] != [] }

  lemma {:induction false} JoinConcat(a: seq<string>, b: seq<string>, glue: string)
    requires a != [] && b != []
    ensures Join(a + b, glue) == Join(a, glue) + glue + Join(b, glue)
    decreases |b|
  {
    var rest, last := b[..|b| - 1], b[|b| - 1];
    assert b == rest + [last];
    if rest == [] {
      assert a + b == a + [last];
      JoinAppend(a, last, glue);
    } else {
      JoinConcat(a, rest, glue);
      assert a + b == (a + rest) + [last];
      JoinAppend(a + rest, last, glue);
      JoinAppend(rest, last, glue);
    }
  }

  lemma FlattenSomething(groups: seq<seq<string>>)
    requires NoneEmpty(groups) && groups != []
    ensures Flatten(groups) != []
  {
  }

  /** Joining the joined groups is joining everything. */
  lemma {:induction false} JoinGroups(groups: seq<seq<string>>, glue: string)
    requires NoneEmpty(groups)
    ensures Join(JoinEach(groups, glue), glue) == Join(Flatten(groups), glue)
  {
    if groups != [] {
      var rest, last := groups[..|groups| - 1], groups[|groups| - 1];
      assert groups == rest + [last];
      JoinGroups(rest, glue);
      assert JoinEach(groups, glue) == JoinEach(rest, glue) + [Join(last, glue)];
      if rest == [] {
        assert JoinEach(groups, glue) == [Join(last, glue)];
        assert Flatten(rest) == [] && Flatten(groups) == last;
      } else {
        FlattenSomething(rest);
        JoinAppend(JoinEach(rest, glue), Join(last, glue), glue);
        JoinConcat(Flatten(rest), last, glue);
      }
    }
  }

  // ---- greedy packing ----

  const GAP: string := "\n\n"

  /** The messages finished so far, and the blocks of the one being filled. */
  datatype Packing = Packing(done: seq<seq<string>>, open: seq<string>) {
    function Groups(): seq<seq<string>> { if open == [] then done else done + [open] }
  }

  /** Whether a block still fits; an empty message takes anything. */
  predicate Fits(open: seq<string>, block: string) { |Join(open, GAP)| + 2 + |block| <= MESSAGE_LIMIT }

  function Started(block: string): seq<string> { if block == "" then [] else [block] }

  function PackOne(p: Packing, block: string): Packing {
    if p.open == [] then p.(open := Started(block))
    else if Fits(p.open, block) then p.(open := p.open + [block])
    else Packing(p.done + [p.open], Started(block))
  }

  function Pack(blocks: seq<string>): Packing {
    if blocks == [] then Packing([], []) else PackOne(Pack(blocks[..|blocks| - 1]), blocks[|blocks| - 1])
  }

  predicate StartsNonEmpty(group: seq<string>) { group != [] && group[0] != "" }

  ghost predicate WellFormed(p: Packing) {
    (p.open != [] ==> StartsNonEmpty(p.open)) && forall i :: 0 <= i < |p.done| ==> StartsNonEmpty(p.done[i])
  }

  lemma {:induction false} PackIsWellFormed(blocks: seq<string>)
    ensures WellFormed(Pack(blocks))
    ensures NoneEmpty(Pack(blocks).Groups())
  {
    if blocks != [] {
      PackIsWellFormed(blocks[..|blocks| - 1]);
    }
  }

  lemma {:induction false} JoinNonEmpty(parts: seq<string>, glue: string)
    requires StartsNonEmpty(parts)
    ensures Join(parts, glue) != ""
  {
    if |parts| > 1 {
      JoinNonEmpty(parts[..|parts| - 1], glue);
    }
  }

  /** packTelegramMessages. */
  method PackTelegramMessages(blocks: seq<string>) returns (messages: seq<string>)
    ensures messages == JoinEach(Pack(blocks).Groups(), GAP)
  {
    messages := [];
    var current := "";
    for i := 0 to |blocks|
      invariant messages == JoinEach(Pack(blocks[..i]).done, GAP)
      invariant current == Join(Pack(blocks[..i]).open, GAP)
    {
      var block := blocks[i];
      ghost var p := Pack(blocks[..i]);
      assert blocks[..i + 1][..i] == blocks[..i];
      PackIsWellFormed(blocks[..i]);
      if p.open != [] {
        JoinNonEmpty(p.open, GAP);
        JoinAppend(p.open, block, GAP);
      }
      var candidate := block;
      if current != "" {
        candidate := current + "\n\n" + block;
      }
      if |candidate| > MESSAGE_LIMIT && current != "" {
        messages := messages + [current];
        current := block;
      } else {
        current := candidate;
      }
    }
    assert blocks[..|blocks|] == blocks;
    PackIsWellFormed(blocks);
    if Pack(blocks).open != [] {
      JoinNonEmpty(Pack(blocks).open, GAP);
    }
    if current != "" {
      messages := messages + [current];
    }
  }

  // ---- nothing is lost ----

  function NonEmpty(blocks: seq<string>): seq<string> {
    if blocks == [] then [] else NonEmpty(blocks[..|blocks| - 1]) + Started(blocks[|blocks| - 1])
  }

  /** How many empty blocks arrive while the message being filled has room for them. */
  function Swallowed(blocks: seq<string>): nat {
    if blocks == [] then 0
    else
      var p, block := Pack(blocks[..|blocks| - 1]), blocks[|blocks| - 1];
      Swallowed(blocks[..|blocks| - 1]) + (if block == "" && p.open != [] && Fits(p.open, block) then 1 else 0)
  }

  lemma {:induction false} NonEmptyConcat(a: seq<string>, b: seq<string>)
    ensures NonEmpty(a + b) == NonEmpty(a) + NonEmpty(b)
    decreases |b|
  {
    if b == [] {
      assert a + b == a;
    } else {
      NonEmptyConcat(a, b[..|b| - 1]);
      assert (a + b)[..|a + b| - 1] == a + b[..|b| - 1];
    }
  }

  /** Packing a block adds it to the groups unless it is empty and starts a message. */
  lemma PackOneAdds(p: Packing, block: string)
    ensures Flatten(PackOne(p, block).Groups()) ==
            Flatten(p.Groups()) + (if block == "" && (p.open == [] || !Fits(p.open, block)) then [] else [block])
  {
    if p.open == [] {
      FlattenAppend(p.done, [block]);
    } else if Fits(p.open, block) {
      FlattenAppend(p.done, p.open);
      FlattenAppend(p.done, p.open + [block]);
    } else {
      FlattenAppend(p.done + [p.open], [block]);
    }
    hide Flatten, Fits, Join;
  }

  lemma NonEmptyAppend(blocks: seq<string>, block: string)
    ensures NonEmpty(blocks + [block]) == NonEmpty(blocks) + Started(block)
  {
    assert (blocks + [block])[..|blocks|] == blocks;
  }

  /** The non-empty blocks are in the messages, in order, and besides them only swallowed empty ones. */
  lemma {:induction false} PackKeeps(blocks: seq<string>)
    ensures NonEmpty(Flatten(Pack(blocks).Groups())) == NonEmpty(blocks)
    ensures |Flatten(Pack(blocks).Groups())| == |NonEmpty(blocks)| + Swallowed(blocks)
  {
    if blocks != [] {
      var rest, block := blocks[..|blocks| - 1], blocks[|blocks| - 1];
      assert blocks == rest + [block];
      PackKeeps(rest);
      PackOneAdds(Pack(rest), block);
      NonEmptyAppend(Flatten(Pack(rest).Groups()), block);
      NonEmptyAppend(rest, block);
      hide Flatten, NonEmpty, Fits, PackOne;
    }
  }

  lemma {:induction false} NonEmptyShrinks(blocks: seq<string>)
    ensures |NonEmpty(blocks)| <= |blocks|
    ensures |NonEmpty(blocks)| == |blocks| ==> NonEmpty(blocks) == blocks
  {
    if blocks != [] {
      NonEmptyShrinks(blocks[..|blocks| - 1]);
    }
  }

  /** The length of a joined text. */
  lemma {:induction false} JoinLength(parts: seq<string>, glue: string)
    requires parts != []
    ensures |Join(parts, glue)| == Total(parts) + |glue| * (|parts| - 1)
  {
    if |parts| > 1 {
      JoinLength(parts[..|parts| - 1], glue);
    } else {
      assert parts[..0] == [];
    }
  }

  function Total(parts: seq<string>): nat {
    if parts == [] then 0 else Total(parts[..|parts| - 1]) + |parts[|parts| - 1]|
  }

  lemma {:induction false} NonEmptyTotal(blocks: seq<string>)
    ensures Total(NonEmpty(blocks)) == Total(blocks)
  {
    if blocks != [] {
      NonEmptyTotal(blocks[..|blocks| - 1]);
      var rest, last := NonEmpty(blocks[..|blocks| - 1]), blocks[|blocks| - 1];
      if last != "" {
        assert (rest + [last])[..|rest|] == rest;
      } else {
        assert rest + [] == rest;
      }
    }
  }

  /** Joining the messages gives back the joined non-empty blocks exactly when no empty block was
      swallowed by a message that had room for it. */
  lemma JoinedMessagesIff(blocks: seq<string>)
    ensures Join(JoinEach(Pack(blocks).Groups(), GAP), GAP) == Join(NonEmpty(blocks), GAP) <==> Swallowed(blocks) == 0
  {
    var all := Flatten(Pack(blocks).Groups());
    PackIsWellFormed(blocks);
    JoinGroups(Pack(blocks).Groups(), GAP);
    PackKeeps(blocks);
    NonEmptyShrinks(all);
    if Swallowed(blocks) > 0 {
      SwallowedNonEmpty(blocks);
      JoinLength(all, GAP);
      JoinLength(NonEmpty(blocks), GAP);
      NonEmptyTotal(all);
    }
  }

  /** A swallowed block needs a message to be swallowed by. */
  lemma {:induction false} SwallowedNonEmpty(blocks: seq<string>)
    ensures Swallowed(blocks) > 0 || Pack(blocks).open != [] ==> NonEmpty(blocks) != []
  {
    if blocks != [] {
      SwallowedNonEmpty(blocks[..|blocks| - 1]);
      if Pack(blocks[..|blocks| - 1]).open == [] && blocks[|blocks| - 1] != "" {
        assert NonEmpty(blocks) != [];
      }
    }
  }

  /** An empty block in the middle does get swallowed. */
  lemma EmptyBlockSwallowed()
    ensures Swallowed(["a", "", "b"]) == 1
    ensures JoinEach(Pack(["a", "", "b"]).Groups(), GAP) == ["a\n\n\n\nb"]
  {
    var one, two, three := ["a"], ["a", ""], ["a", "", "b"];
    assert one[..0] == [] && two[..1] == one && three[..2] == two;
    assert Pack(one) == Packing([], ["a"]);
    assert Join(one, GAP) == "a";
    assert Pack(two) == Packing([], two);
    assert Join(two, GAP) == "a\n\n";
    assert Pack(three) == Packing([], three);
    assert Join(three, GAP) == "a\n\n\n\nb";
  }

  ghost predicate NoEmpty(blocks: seq<string>) { forall i :: 0 <= i < |blocks| ==> blocks[i] != "" }

  lemma {:induction false} AllNonEmpty(blocks: seq<string>)
    requires NoEmpty(blocks)
    ensures NonEmpty(blocks) == blocks
  {
    if blocks != [] {
      AllNonEmpty(blocks[..|blocks| - 1]);
    }
  }

  lemma {:induction false} NothingSwallowed(blocks: seq<string>)
    requires NoEmpty(blocks)
    ensures NonEmpty(blocks) == blocks && Swallowed(blocks) == 0
  {
    AllNonEmpty(blocks);
    if blocks != [] {
      hide NonEmpty, Pack, Fits;
      NothingSwallowed(blocks[..|blocks| - 1]);
    }
  }

  /** Without empty blocks the messages are the blocks cut into consecutive runs. */
  lemma NoEmptyBlocks(blocks: seq<string>)
    requires NoEmpty(blocks)
    ensures Flatten(Pack(blocks).Groups()) == blocks
  {
    NothingSwallowed(blocks);
    PackKeeps(blocks);
    NonEmptyShrinks(Flatten(Pack(blocks).Groups()));
  }

  // ---- as few messages as possible ----

  ghost predicate AllFit(groups: seq<seq<string>>) {
    forall i :: 0 <= i < |groups| ==> |Join(groups[i], GAP)| <= 3800
  }

  /** A cut of the blocks into consecutive runs that each fit into a message. */
  ghost predicate IsCut(groups: seq<seq<string>>, blocks: seq<string>) {
    NoneEmpty(groups) && Flatten(groups) == blocks && AllFit(groups)
  }

  ghost predicate EachFits(blocks: seq<string>) { forall i :: 0 <= i < |blocks| ==> blocks[i] != "" && |blocks[i]| <= 3800 }

  lemma {:induction false} PackFits(blocks: seq<string>)
    requires EachFits(blocks)
    ensures AllFit(Pack(blocks).Groups())
  {
    if blocks != [] {
      var rest, block := blocks[..|blocks| - 1], blocks[|blocks| - 1];
      PackFits(rest);
      var p := Pack(rest);
      if p.open != [] {
        JoinAppend(p.open, block, GAP);
        assert p.Groups()[|p.done|] == p.open;
      }
      assert forall i :: 0 <= i < |p.done| ==> p.Groups()[i] == p.done[i];
    }
  }

  /** The last group, if any, and how many groups there are. */
  function LastOf(groups: seq<seq<string>>): seq<string> {
    if groups == [] then [] else groups[|groups| - 1]
  }

  /** The last group is the end of the blocks. */
  lemma LastIsSuffix(groups: seq<seq<string>>, blocks: seq<string>)
    requires Flatten(groups) == blocks
    ensures |LastOf(groups)| <= |blocks| && LastOf(groups) == blocks[|blocks| - |LastOf(groups)|..]
  {
  }

  lemma {:induction false} ShorterJoin(parts: seq<string>, k: nat, m: nat)
    requires 0 < k <= m <= |parts|
    ensures |Join(parts[|parts| - k..], GAP)| <= |Join(parts[|parts| - m..], GAP)|
    decreases m - k
  {
    if k < m {
      ShorterJoin(parts, k + 1, m);
      var long, short := parts[|parts| - (k + 1)..], parts[|parts| - k..];
      assert long == [long[0]] + short;
      JoinConcat([long[0]], short, GAP);
    }
  }

  /** A cut without its last block. */
  function Cropped(groups: seq<seq<string>>): seq<seq<string>>
    requires groups != []
  {
    var last := groups[|groups| - 1];
    if |last| <= 1 then groups[..|groups| - 1] else groups[..|groups| - 1] + [last[..|last| - 1]]
  }

  lemma CroppedIsCut(groups: seq<seq<string>>, blocks: seq<string>)
    requires IsCut(groups, blocks) && blocks != []
    ensures groups != [] && IsCut(Cropped(groups), blocks[..|blocks| - 1])
  {
    var rest, last := groups[..|groups| - 1], groups[|groups| - 1];
    if |last| <= 1 {
      assert blocks[..|blocks| - 1] == Flatten(rest);
    } else {
      FlattenAppend(rest, last[..|last| - 1]);
      assert blocks[..|blocks| - 1] == Flatten(rest) + last[..|last| - 1];
      JoinAppend(last[..|last| - 1], last[|last| - 1], GAP);
      assert last[..|last| - 1] + [last[|last| - 1]] == last;
    }
  }

  /** The greedy cut is ahead of any other one: it has fewer groups, or as many and in the last one
      no more blocks. */
  ghost predicate Ahead(greedy: seq<seq<string>>, other: seq<seq<string>>) {
    |greedy| < |other| || (|greedy| == |other| && |LastOf(greedy)| <= |LastOf(other)|)
  }

  lemma {:induction false} GreedyStaysAhead(blocks: seq<string>, other: seq<seq<string>>)
    requires EachFits(blocks) && IsCut(other, blocks)
    ensures Ahead(Pack(blocks).Groups(), other)
  {
    if blocks != [] {
      CroppedIsCut(other, blocks);
      GreedyStaysAhead(blocks[..|blocks| - 1], Cropped(other));
      AheadStep(blocks, other);
    }
  }

  lemma AheadStep(blocks: seq<string>, other: seq<seq<string>>)
    requires blocks != [] && EachFits(blocks) && IsCut(other, blocks) && other != []
    requires Ahead(Pack(blocks[..|blocks| - 1]).Groups(), Cropped(other))
    ensures Ahead(Pack(blocks).Groups(), other)
  {
    var rest, block, last := blocks[..|blocks| - 1], blocks[|blocks| - 1], LastOf(other);
    var p := Pack(rest);
    assert last != [] && block != "";
    assert Pack(blocks) == PackOne(p, block);
    hide EachFits, AllFit, IsCut, Flatten, Join, Fits, Pack;
    if p.open != [] && |last| > 1 && |p.Groups()| == |other| {
      assert |p.open| <= |last| - 1;
      RoomForBlock(blocks, other);
    }
  }

  /** If the greedy cut has as many groups and a shorter last one, the next block still fits. */
  lemma RoomForBlock(blocks: seq<string>, other: seq<seq<string>>)
    requires blocks != [] && EachFits(blocks) && IsCut(other, blocks) && other != []
    requires Pack(blocks[..|blocks| - 1]).open != [] && |Pack(blocks[..|blocks| - 1]).open| < |LastOf(other)|
    ensures Fits(Pack(blocks[..|blocks| - 1]).open, blocks[|blocks| - 1])
  {
    var rest, block := blocks[..|blocks| - 1], blocks[|blocks| - 1];
    var open := Pack(rest).open;
    NoEmptyBlocks(rest);
    LastIsSuffix(Pack(rest).Groups(), rest);
    LastIsSuffix(other, blocks);
    assert |Join(LastOf(other), GAP)| <= MESSAGE_LIMIT;
    SuffixFits(blocks, open, LastOf(other));
  }

  lemma SuffixFits(blocks: seq<string>, open: seq<string>, last: seq<string>)
    requires blocks != [] && open != [] && |open| < |last| <= |blocks|
    requires open == blocks[..|blocks| - 1][|blocks| - 1 - |open|..] && last == blocks[|blocks| - |last|..]
    requires |Join(last, GAP)| <= MESSAGE_LIMIT
    ensures Fits(open, blocks[|blocks| - 1])
  {
    var block := blocks[|blocks| - 1];
    assert open + [block] == blocks[|blocks| - (|open| + 1)..];
    ShorterJoin(blocks, |open| + 1, |last|);
    JoinAppend(open, block, GAP);
  }

  /** When every block fits, the messages are a cut into fitting runs with as few messages as any. */
  lemma FewestMessages(blocks: seq<string>, other: seq<seq<string>>)
    requires EachFits(blocks)
    ensures IsCut(Pack(blocks).Groups(), blocks)
    ensures IsCut(other, blocks) ==> |Pack(blocks).Groups()| <= |other|
  {
    PackIsWellFormed(blocks);
    NoEmptyBlocks(blocks);
    PackFits(blocks);
    if IsCut(other, blocks) {
      GreedyStaysAhead(blocks, other);
    }
  }

  // ---- digests ----

  /** What a notification contributes to a digest and, alone, to a message. */
  datatype Kind = Critical | NewIPFailed | Reminder | Unstable | IPChanged | Recovered | NewIPVerified | NetworkRecovered | OtherKind

  datatype Notification = Notification(id: string, kind: Kind, line: string, full: string)

  function Lines(items: seq<Notification>): seq<string> {
    seq(|items|, i requires 0 <= i < |items| => items[i].line)
  }

  /** A block: its heading and at least one line. */
  function BlockOf(heading: string, lines: seq<string>): string {
    heading + "\n" + Join(lines, "\n")
  }

  /** `blocks` are the lines of the items cut into consecutive runs under the same heading.  A block
      with several lines is within the limit, and it ends only where the next line would not fit. */
  ghost predicate IsDigest(heading: string, items: seq<Notification>, groups: seq<seq<string>>, blocks: seq<string>) {
    && NoneEmpty(groups) && Flatten(groups) == Lines(items) && |blocks| == |groups|
    && (forall i :: 0 <= i < |groups| ==> blocks[i] == BlockOf(heading, groups[i]))
    && (forall i :: 0 <= i < |groups| ==> Limited(groups[i], blocks[i]))
    && (forall i :: 0 <= i < |groups| - 1 ==> Tight(groups, blocks, i))
  }

  ghost predicate HasDigest(heading: string, items: seq<Notification>, blocks: seq<string>) {
    exists groups :: IsDigest(heading, items, groups, blocks)
  }

  predicate Limited(group: seq<string>, block: string) { |group| == 1 || |block| <= 3200 }

  predicate Tight(groups: seq<seq<string>>, blocks: seq<string>, i: nat)
    requires i + 1 < |groups| && i < |blocks|
  {
    groups[i + 1] != [] && |blocks[i]| + 1 + |groups[i + 1][0]| > 3200
  }

  function Decimal(n: nat): (text: string)
    ensures text != ""
  {
    if n < 10 then ["0123456789"[n]] else Decimal(n / 10) + ["0123456789"[n % 10]]
  }

  function Heading(title: string, count: nat): string { title + " \U{B7} " + Decimal(count) }

  lemma BlockAppend(heading: string, lines: seq<string>, line: string)
    requires lines != []
    ensures BlockOf(heading, lines + [line]) == BlockOf(heading, lines) + "\n" + line
  {
    JoinAppend(lines, line, "\n");
  }

  /** The finished groups and the open one are a digest of the first items. */
  ghost predicate DigestTo(heading: string, items: seq<Notification>, done: seq<seq<string>>, blocks: seq<string>, open: seq<string>) {
    IsDigest(heading, items, done + [open], blocks + [BlockOf(heading, open)])
  }

  lemma DigestStep(heading: string, items: seq<Notification>, done: seq<seq<string>>, blocks: seq<string>, open: seq<string>, item: Notification)
    requires DigestTo(heading, items, done, blocks, open)
    ensures |BlockOf(heading, open) + "\n" + item.line| > BLOCK_LIMIT ==>
              DigestTo(heading, items + [item], done + [open], blocks + [BlockOf(heading, open)], [item.line])
    ensures |BlockOf(heading, open) + "\n" + item.line| <= BLOCK_LIMIT ==> DigestTo(heading, items + [item], done, blocks, open + [item.line])
  {
    var groups, all := done + [open], blocks + [BlockOf(heading, open)];
    assert open == groups[|done|];
    BlockAppend(heading, open, item.line);
    assert Lines(items + [item]) == Lines(items) + [item.line];
    FlattenAppend(groups, [item.line]);
    FlattenAppend(done, open);
    FlattenAppend(done, open + [item.line]);
    if |BlockOf(heading, open) + "\n" + item.line| > BLOCK_LIMIT {
      var groups', all' := groups + [[item.line]], all + [BlockOf(heading, [item.line])];
      forall i | 0 <= i < |groups'| - 1 ensures Tight(groups', all', i) {
        assert i < |groups| - 1 ==> Tight(groups, all, i);
      }
      forall i | 0 <= i < |groups'| ensures Limited(groups'[i], all'[i]) {
        assert i < |groups| ==> Limited(groups[i], all[i]);
      }
    } else {
      var groups', all' := done + [open + [item.line]], blocks + [BlockOf(heading, open + [item.line])];
      forall i | 0 <= i < |groups'| - 1 ensures Tight(groups', all', i) {
        assert Tight(groups, all, i);
      }
      forall i | 0 <= i < |groups'| ensures Limited(groups'[i], all'[i]) {
        assert i < |done| ==> Limited(groups[i], all[i]);
      }
    }
  }

  lemma DigestStart(heading: string, item: Notification)
    ensures DigestTo(heading, [item], [], [], [item.line])
  {
    assert Lines([item]) == [item.line];
    var groups := [] + [[item.line]];
    assert groups[..0] == [] && Flatten(groups) == [item.line];
  }

  /** formatDigestBlocks. */
  method FormatDigestBlocks(title: string, items: seq<Notification>) returns (blocks: seq<string>)
    ensures items == [] ==> blocks == []
    ensures items != [] ==> HasDigest(Heading(title, |items|), items, blocks)
  {
    if |items| == 0 {
      return [];
    }
    var heading := Heading(title, |items|);
    blocks := [];
    var current := heading;
    ghost var done, open: seq<string> := [], [];
    for i := 0 to |items|
      invariant i == 0 ==> current == heading && blocks == [] && done == [] && open == []
      invariant i > 0 ==> current == BlockOf(heading, open) && DigestTo(heading, items[..i], done, blocks, open)
    {
      var line := items[i].line;
      var candidate := current + "\n" + line;
      assert items[..i + 1] == items[..i] + [items[i]];
      if i > 0 {
        DigestStep(heading, items[..i], done, blocks, open, items[i]);
        assert open == (done + [open])[|done|];
        BlockAppend(heading, open, line);
      } else {
        assert items[..1] == [items[0]];
        DigestStart(heading, items[0]);
      }
      if |candidate| > BLOCK_LIMIT && current != heading {
        blocks := blocks + [current];
        current := heading + "\n" + line;
        done, open := done + [open], [line];
      } else {
        current := candidate;
        open := open + [line];
      }
    }
    assert items[..|items|] == items;
    blocks := blocks + [current];
    assert IsDigest(heading, items, done + [open], blocks);
  }

  // ---- the whole digest ----

  const SECTIONS: nat := 5

  /** The section of the digest that a kind belongs to; the last one takes what no other does. */
  function SectionOf(kind: Kind): (k: nat)
    ensures k <= SECTIONS
  {
    match kind
    case Critical => 0
    case NewIPFailed => 0
    case Reminder => 0
    case Unstable => 1
    case IPChanged => 2
    case Recovered => 3
    case NewIPVerified => 3
    case NetworkRecovered => 4
    case OtherKind => 5
  }

  /** The kinds of the sections but the last. */
  const KINDS: seq<set<Kind>> :=
    [{Critical, NewIPFailed, Reminder}, {Unstable}, {IPChanged}, {Recovered, NewIPVerified}, {NetworkRecovered}]

  lemma KindsTell(kind: Kind)
    ensures forall k :: 0 <= k < SECTIONS ==> (kind in KINDS[k] <==> SectionOf(kind) == k)
  {
    assert kind in KINDS[0] <==> SectionOf(kind) == 0;
    assert kind in KINDS[1] <==> SectionOf(kind) == 1;
    assert kind in KINDS[2] <==> SectionOf(kind) == 2;
    assert kind in KINDS[3] <==> SectionOf(kind) == 3;
    assert kind in KINDS[4] <==> SectionOf(kind) == 4;
  }

  /** What a section is about: an alarm, trouble, a new address, good news, the network, or anything else. */
  predicate BelongsTo(kind: Kind, k: nat) {
    match k
    case 0 => kind == Critical || kind == NewIPFailed || kind == Reminder
    case 1 => kind == Unstable
    case 2 => kind == IPChanged
    case 3 => kind == Recovered || kind == NewIPVerified
    case 4 => kind == NetworkRecovered
    case 5 => kind == OtherKind
    case _ => false
  }

  /** The items at those places, in order, are all those that belong to the section. */
  ghost predicate Places(items: seq<Notification>, k: nat, section: seq<Notification>, places: seq<nat>) {
    && |places| == |section|
    && (forall i :: 0 <= i < |places| ==> places[i] < |items| && items[places[i]] == section[i])
    && (forall i, j :: 0 <= i < j < |places| ==> places[i] < places[j])
    && (forall n :: 0 <= n < |items| ==> (n in places <==> BelongsTo(items[n].kind, k)))
  }

  lemma PlacesKept(items: seq<Notification>, k: nat, section: seq<Notification>, places: seq<nat>, x: Notification)
    requires Places(items, k, section, places) && !BelongsTo(x.kind, k)
    ensures Places(items + [x], k, section, places)
  {
    hide BelongsTo;
  }

  lemma PlacesAppend(items: seq<Notification>, k: nat, section: seq<Notification>, places: seq<nat>, x: Notification)
    requires Places(items, k, section, places) && BelongsTo(x.kind, k)
    ensures Places(items + [x], k, section + [x], places + [|items|])
  {
    hide BelongsTo;
  }

  /** Every section holds exactly the items of its kinds, in their order. */
  lemma {:induction false} SectionHolds(items: seq<Notification>, k: nat) returns (places: seq<nat>)
    requires k <= SECTIONS
    ensures Places(items, k, Section(items, k), places)
  {
    places := [];
    if items != [] {
      var rest, last := items[..|items| - 1], items[|items| - 1];
      assert items == rest + [last];
      assert BelongsTo(last.kind, k) <==> SectionOf(last.kind) == k;
      hide BelongsTo, SectionOf, Places;
      places := SectionHolds(rest, k);
      if SectionOf(last.kind) == k {
        PlacesAppend(rest, k, Section(rest, k), places, last);
        places := places + [|rest|];
      } else {
        PlacesKept(rest, k, Section(rest, k), places, last);
      }
    }
  }

  function Section(items: seq<Notification>, k: nat): seq<Notification> {
    if items == [] then []
    else Section(items[..|items| - 1], k) + (if SectionOf(items[|items| - 1].kind) == k then [items[|items| - 1]] else [])
  }

  /** The sections up to the `k`th, one after the other. */
  function Sections(items: seq<Notification>, k: nat): seq<Notification> {
    if k == 0 then [] else Sections(items, k - 1) + Section(items, k - 1)
  }

  function CountIn(items: seq<Notification>, x: Notification): nat { multiset(items)[x] }

  lemma CountConcat(a: seq<Notification>, b: seq<Notification>, x: Notification)
    ensures CountIn(a + b, x) == CountIn(a, x) + CountIn(b, x)
  {
  }

  lemma SectionAppend(items: seq<Notification>, item: Notification, k: nat, x: Notification)
    ensures CountIn(Section(items + [item], k), x) == CountIn(Section(items, k), x) + (if SectionOf(item.kind) == k && item == x then 1 else 0)
  {
    assert (items + [item])[..|items|] == items;
    CountConcat(Section(items, k), if SectionOf(item.kind) == k then [item] else [], x);
  }

  lemma SectionsCount(items: seq<Notification>, k: nat, x: Notification)
    requires k > 0
    ensures CountIn(Sections(items, k), x) == CountIn(Sections(items, k - 1), x) + CountIn(Section(items, k - 1), x)
  {
    hide CountIn;
    CountConcat(Sections(items, k - 1), Section(items, k - 1), x);
  }

  lemma {:induction false} SectionsAppend(items: seq<Notification>, item: Notification, k: nat, x: Notification)
    ensures CountIn(Sections(items + [item], k), x) == CountIn(Sections(items, k), x) + (if SectionOf(item.kind) < k && item == x then 1 else 0)
  {
    hide CountIn, Section;
    if k == 0 {
      assert Sections(items, 0) == Sections(items + [item], 0);
    } else {
      hide Sections;
      SectionsAppend(items, item, k - 1, x);
      SectionAppend(items, item, k - 1, x);
      SectionsCount(items, k, x);
      SectionsCount(items + [item], k, x);
    }
  }

  lemma {:induction false} ItemOnce(items: seq<Notification>, x: Notification)
    ensures CountIn(Sections(items, SECTIONS + 1), x) == CountIn(items, x)
  {
    if items == [] {
      EmptySections(SECTIONS + 1);
    } else {
      var rest, last := items[..|items| - 1], items[|items| - 1];
      assert items == rest + [last];
      ItemOnce(rest, x);
      hide Sections;
      SectionsAppend(rest, last, SECTIONS + 1, x);
      CountConcat(rest, [last], x);
    }
  }

  /** Every notification is in exactly one section. */
  lemma EveryItemOnce(items: seq<Notification>)
    ensures multiset(Sections(items, SECTIONS + 1)) == multiset(items)
  {
    forall x ensures multiset(Sections(items, SECTIONS + 1))[x] == multiset(items)[x] {
      ItemOnce(items, x);
    }
  }

  lemma {:induction false} EmptySections(k: nat)
    ensures Sections([], k) == []
  {
    if k > 0 {
      EmptySections(k - 1);
    }
  }

  /** The indices of the items in the sections before the `k`th. */
  function UsedBefore(items: seq<Notification>, k: nat): set<nat> {
    set i | 0 <= i < |items| && SectionOf(items[i].kind) < k
  }

  /** The items of one section. */
  method Collect(items: seq<Notification>, ghost k: nat, kinds: set<Kind>, used: set<nat>) returns (section: seq<Notification>, used': set<nat>)
    requires k < SECTIONS && kinds == KINDS[k] && used == UsedBefore(items, k)
    ensures section == Section(items, k)
    ensures used' == UsedBefore(items, k + 1)
  {
    section, used' := [], used;
    for i := 0 to |items|
      invariant section == Section(items[..i], k)
      invariant used' == used + set j | 0 <= j < i && SectionOf(items[j].kind) == k
    {
      assert items[..i + 1][..i] == items[..i];
      KindsTell(items[i].kind);
      if items[i].kind in kinds {
        used' := used' + {i};
        section := section + [items[i]];
      }
    }
    assert items[..|items|] == items;
  }

  /** The items that no section has used. */
  method CollectUnknown(items: seq<Notification>, used: set<nat>) returns (section: seq<Notification>)
    requires used == UsedBefore(items, SECTIONS)
    ensures section == Section(items, SECTIONS)
  {
    section := [];
    for i := 0 to |items|
      invariant section == Section(items[..i], SECTIONS)
    {
      assert items[..i + 1][..i] == items[..i];
      if i !in used {
        section := section + [items[i]];
      }
    }
    assert items[..|items|] == items;
  }

  /** The blocks of the sections from the first to the `k`th. */
  ghost predicate IsDigestTo(titles: seq<string>, items: seq<Notification>, k: nat, parts: seq<seq<string>>, groups: seq<seq<seq<string>>>)
    requires k <= |titles|
  {
    |parts| == |groups| == k &&
    forall j :: 0 <= j < k ==> IsSectionDigest(titles[j], Section(items, j), groups[j], parts[j])
  }

  ghost predicate IsSectionDigest(title: string, items: seq<Notification>, groups: seq<seq<string>>, blocks: seq<string>) {
    if items == [] then blocks == [] && groups == [] else IsDigest(Heading(title, |items|), items, groups, blocks)
  }

  lemma NextSection(titles: seq<string>, items: seq<Notification>, k: nat, parts: seq<seq<string>>, groups: seq<seq<seq<string>>>,
                    digest: seq<string>, cut: seq<seq<string>>)
    requires k < |titles| && IsDigestTo(titles, items, k, parts, groups) && IsSectionDigest(titles[k], Section(items, k), cut, digest)
    ensures IsDigestTo(titles, items, k + 1, parts + [digest], groups + [cut])
    ensures Flatten(parts + [digest]) == Flatten(parts) + digest
  {
    hide IsSectionDigest;
    FlattenAppend(parts, digest);
  }

  lemma NoSections(titles: seq<string>, items: seq<Notification>)
    ensures IsDigestTo(titles, items, 0, [], []) && UsedBefore(items, 0) == {}
  {
  }

  lemma CutOf(title: string, items: seq<Notification>, blocks: seq<string>) returns (groups: seq<seq<string>>)
    requires if items == [] then blocks == [] else HasDigest(Heading(title, |items|), items, blocks)
    ensures IsSectionDigest(title, items, groups, blocks)
  {
    if items == [] {
      groups := [];
    } else {
      groups :| IsDigest(Heading(title, |items|), items, groups, blocks);
    }
  }

  /** formatNotifications. */
  method FormatNotifications(titles: seq<string>, items: seq<Notification>)
    returns (messages: seq<string>, ghost parts: seq<seq<string>>, ghost groups: seq<seq<seq<string>>>)
    requires |titles| == SECTIONS + 1
    ensures |items| == 0 ==> messages == []
    ensures |items| == 1 ==> messages == [items[0].full]
    ensures |items| > 1 ==> IsDigestTo(titles, items, SECTIONS + 1, parts, groups)
                            && messages == JoinEach(Pack(Flatten(parts)).Groups(), GAP)
  {
    messages, parts, groups := [], [], [];
    if |items| == 0 {
      return;
    }
    if |items| == 1 {
      return [items[0].full], [], [];
    }
    var blocks: seq<string> := [];
    var used: set<nat> := {};
    var section, digest;
    ghost var cut;
    hide IsDigestTo, IsDigest;
    NoSections(titles, items);
    for k := 0 to SECTIONS
      invariant IsDigestTo(titles, items, k, parts, groups)
      invariant blocks == Flatten(parts) && used == UsedBefore(items, k)
    {
      section, used := Collect(items, k, KINDS[k], used);
      digest := FormatDigestBlocks(titles[k], section);
      cut := CutOf(titles[k], section, digest);
      NextSection(titles, items, k, parts, groups, digest, cut);
      blocks := blocks + digest;
      parts, groups := parts + [digest], groups + [cut];
    }
    section := CollectUnknown(items, used);
    digest := FormatDigestBlocks(titles[SECTIONS], section);
    cut := CutOf(titles[SECTIONS], section, digest);
    NextSection(titles, items, SECTIONS, parts, groups, digest, cut);
    blocks := blocks + digest;
    parts, groups := parts + [digest], groups + [cut];
    messages := PackTelegramMessages(blocks);
  }

  /** The blocks of a digest are never empty, so packing them loses nothing, ... */
  lemma {:induction false} DigestHasNoEmptyBlock(titles: seq<string>, items: seq<Notification>, k: nat, parts: seq<seq<string>>, groups: seq<seq<seq<string>>>)
    requires k <= |titles| && IsDigestTo(titles, items, k, parts, groups)
    ensures NoEmpty(Flatten(parts))
    ensures Join(JoinEach(Pack(Flatten(parts)).Groups(), GAP), GAP) == Join(Flatten(parts), GAP)
  {
    NoEmptyParts(titles, items, k, parts, groups);
    NothingSwallowed(Flatten(parts));
    JoinedMessagesIff(Flatten(parts));
  }

  lemma {:induction false} NoEmptyParts(titles: seq<string>, items: seq<Notification>, k: nat, parts: seq<seq<string>>, groups: seq<seq<seq<string>>>)
    requires k <= |titles| && IsDigestTo(titles, items, k, parts, groups)
    ensures NoEmpty(Flatten(parts))
  {
    if k > 0 {
      NoEmptyParts(titles, items, k - 1, parts[..k - 1], groups[..k - 1]);
      assert IsSectionDigest(titles[k - 1], Section(items, k - 1), groups[k - 1], parts[k - 1]);
    }
  }

  lemma SectionLines(title: string, items: seq<Notification>, groups: seq<seq<string>>, blocks: seq<string>)
    requires IsSectionDigest(title, items, groups, blocks)
    ensures Flatten(groups) == Lines(items)
  {
  }

  lemma LinesConcat(a: seq<Notification>, b: seq<Notification>)
    ensures Lines(a + b) == Lines(a) + Lines(b)
  {
  }

  /** ... and their lines are the lines of all notifications, each once, section by section. */
  lemma {:induction false} DigestLines(titles: seq<string>, items: seq<Notification>, k: nat, parts: seq<seq<string>>, groups: seq<seq<seq<string>>>)
    requires k <= |titles| && IsDigestTo(titles, items, k, parts, groups)
    ensures Flatten(Flatten(groups)) == Lines(Sections(items, k))
  {
    if k > 0 {
      DigestLines(titles, items, k - 1, parts[..k - 1], groups[..k - 1]);
      SectionLines(titles[k - 1], Section(items, k - 1), groups[k - 1], parts[k - 1]);
      assert Flatten(groups) == Flatten(groups[..k - 1]) + groups[k - 1];
      FlattenConcat(Flatten(groups[..k - 1]), groups[k - 1]);
      LinesConcat(Sections(items, k - 1), Section(items, k - 1));
    }
  }

  lemma {:induction false} FlattenConcat<T>(a: seq<seq<T>>, b: seq<seq<T>>)
    ensures Flatten(a + b) == Flatten(a) + Flatten(b)
    decreases |b|
  {
    if b == [] {
      assert a + b == a;
    } else {
      FlattenConcat(a, b[..|b| - 1]);
      assert (a + b)[..|a + b| - 1] == a + b[..|b| - 1];
    }
  }

  /** A digest whose single lines fit never yields a message over the limit, nor more messages than
      needed for its blocks. */
  lemma DigestFits(titles: seq<string>, items: seq<Notification>, parts: seq<seq<string>>, groups: seq<seq<seq<string>>>, other: seq<seq<string>>)
    requires |titles| == SECTIONS + 1 && IsDigestTo(titles, items, SECTIONS + 1, parts, groups)
    requires forall i :: 0 <= i < |Flatten(parts)| ==> |Flatten(parts)[i]| <= 3800
    ensures AllFit(Pack(Flatten(parts)).Groups())
    ensures IsCut(other, Flatten(parts)) ==> |Pack(Flatten(parts)).Groups()| <= |other|
  {
    NoEmptyParts(titles, items, SECTIONS + 1, parts, groups);
    FewestMessages(Flatten(parts), other);
  }
}
