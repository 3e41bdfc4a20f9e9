/** app/knowledge/chunker.py: cutting a document into overlapping blocks of lines.

A block is kept as its lines; the source joins them with newlines. `tok` is the token count of a
line, any non-negative function. */
module Chunker {
  import opened Options

  type Line = string
  type Tokens = Line -> nat

  function Total(tok: Tokens, lines: seq<Line>): nat {
    if lines == [] then 0 else Total(tok, lines[..|lines| - 1]) + tok(lines[|lines| - 1])
  }

  lemma {:induction false} TotalOfConcat(tok: Tokens, a: seq<Line>, b: seq<Line>)
    ensures Total(tok, a + b) == Total(tok, a) + Total(tok, b)
  {
    if b == [] {
      assert a + b == a;
    } else {
      assert (a + b)[..|a + b| - 1] == a + b[..|b| - 1];
      TotalOfConcat(tok, a, b[..|b| - 1]);
    }
  }

  /** A block: lines repeated from the block before it, then lines of its own. */
  datatype Block = Block(carry: seq<Line>, own: seq<Line>) {
    function Lines(): seq<Line> {
      carry + own
    }
  }

  function OwnLines(blocks: seq<Block>): seq<Line> {
    if blocks == [] then [] else OwnLines(blocks[..|blocks| - 1]) + blocks[|blocks| - 1].own
  }

  /** `carry` is the longest tail of `lines` worth at most `overlap` tokens. */
  predicate IsLongestTail(tok: Tokens, lines: seq<Line>, carry: seq<Line>, overlap: int) {
    && |carry| <= |lines| && carry == lines[|lines| - |carry|..]
    && (carry != [] ==> Total(tok, carry) <= overlap)
    && (|carry| < |lines| ==> Total(tok, lines[|lines| - |carry| - 1..]) > overlap)
  }

  /** Within the limit, unless it is an affordable carry and one single line too long for it. */
  predicate FitsOrSingle(tok: Tokens, b: Block, max: int, overlap: int) {
    || Total(tok, b.Lines()) <= max
    || (|b.own| == 1 && (b.carry == [] || Total(tok, b.carry) <= overlap))
  }

  /** `next` opens because its first own line did not fit behind `b`, and repeats b's tail. */
  predicate Follows(tok: Tokens, b: Block, next: Block, max: int, overlap: int) {
    && next.own != []
    && Total(tok, b.Lines()) + tok(next.own[0]) > max
    && IsLongestTail(tok, b.Lines(), next.carry, overlap)
  }

  predicate WellCut(tok: Tokens, blocks: seq<Block>, max: int, overlap: int) {
    && (blocks != [] ==> blocks[0].carry == [])
    && (forall k | 0 <= k < |blocks| :: blocks[k].own != [] && FitsOrSingle(tok, blocks[k], max, overlap))
    && (forall k | 1 <= k < |blocks| :: Follows(tok, blocks[k - 1], blocks[k], max, overlap))
  }

  /** The overlap kept from a closed block: whole lines from its end while they fit. */
  method Tail(tok: Tokens, lines: seq<Line>, overlap: int) returns (carry: seq<Line>, tokens: nat)
    ensures IsLongestTail(tok, lines, carry, overlap) && tokens == Total(tok, carry)
  {
    carry, tokens := [], 0;
    var k := |lines|;
    while k > 0
      invariant 0 <= k <= |lines| && carry == lines[k..] && tokens == Total(tok, carry)
      invariant carry != [] ==> tokens <= overlap
    {
      var pt := tok(lines[k - 1]);
      assert lines[k - 1..] == [lines[k - 1]] + carry;
      TotalOfConcat(tok, [lines[k - 1]], carry);
      assert [lines[k - 1]][..0] == [];
      if tokens + pt > overlap {
        return;
      }
      carry := [lines[k - 1]] + carry;
      tokens := tokens + pt;
      k := k - 1;
    }
  }

  /** What holds after the first `i` lines: the closed blocks and the open one, its tokens known. */
  ghost predicate CutSoFar(tok: Tokens, blocks: seq<Block>, cur: Block, curTokens: nat, done: seq<Line>,
      max: int, overlap: int) {
    && OwnLines(blocks) + cur.own == done
    && curTokens == Total(tok, cur.Lines())
    && if done == [] then blocks == [] && cur == Block([], [])
       else cur.own != [] && WellCut(tok, blocks + [cur], max, overlap)
  }

  /** One more line: close the open block first if the line does not fit. */
  method TakeLine(tok: Tokens, blocks: seq<Block>, cur: Block, curTokens: nat, line: Line,
      max: int, overlap: int, ghost done: seq<Line>)
    returns (blocks': seq<Block>, cur': Block, curTokens': nat)
    requires CutSoFar(tok, blocks, cur, curTokens, done, max, overlap)
    ensures CutSoFar(tok, blocks', cur', curTokens', done + [line], max, overlap)
  {
    var t := tok(line);
    if cur.Lines() != [] && curTokens + t > max {
      var carry, carryTokens := Tail(tok, cur.Lines(), overlap);
      CutAfterClose(tok, blocks, cur, curTokens, carry, line, max, overlap, done);
      return blocks + [cur], Block(carry, [line]), carryTokens + t;
    }
    CutAfterExtend(tok, blocks, cur, curTokens, line, max, overlap, done);
    return blocks, cur.(own := cur.own + [line]), curTokens + t;
  }

  lemma CutAfterClose(tok: Tokens, blocks: seq<Block>, cur: Block, curTokens: nat, carry: seq<Line>, line: Line,
                      max: int, overlap: int, done: seq<Line>)
    requires CutSoFar(tok, blocks, cur, curTokens, done, max, overlap)
    requires cur.Lines() != [] && curTokens + tok(line) > max
    requires IsLongestTail(tok, cur.Lines(), carry, overlap)
    ensures CutSoFar(tok, blocks + [cur], Block(carry, [line]), Total(tok, carry) + tok(line),
      done + [line], max, overlap)
  {
    CloseBlock(tok, blocks, cur, carry, line, max, overlap);
    TotalOfConcat(tok, carry, [line]);
    assert [line][..0] == [];
    assert OwnLines(blocks) + cur.own + [line] == done + [line];
  }

  lemma CutAfterExtend(tok: Tokens, blocks: seq<Block>, cur: Block, curTokens: nat, line: Line,
                       max: int, overlap: int, done: seq<Line>)
    requires CutSoFar(tok, blocks, cur, curTokens, done, max, overlap)
    requires cur.Lines() == [] || curTokens + tok(line) <= max
    ensures CutSoFar(tok, blocks, cur.(own := cur.own + [line]), curTokens + tok(line), done + [line], max, overlap)
  {
    ExtendBlock(tok, blocks, cur, line, max, overlap);
    AppendLine(tok, cur, line);
    assert OwnLines(blocks) + (cur.own + [line]) == done + [line];
  }

  method ChunkLines(tok: Tokens, lines: seq<Line>, max: int, overlap: int) returns (blocks: seq<Block>)
    ensures OwnLines(blocks) == lines
    ensures WellCut(tok, blocks, max, overlap)
  {
    blocks := [];
    var cur, curTokens := Block([], []), 0;
    for i := 0 to |lines|
      invariant CutSoFar(tok, blocks, cur, curTokens, lines[..i], max, overlap)
    {
      blocks, cur, curTokens := TakeLine(tok, blocks, cur, curTokens, lines[i], max, overlap, lines[..i]);
      assert lines[..i + 1] == lines[..i] + [lines[i]];
    }
    assert lines[..|lines|] == lines;
    if cur.Lines() != [] {
      assert (blocks + [cur])[..|blocks + [cur]| - 1] == blocks;
      blocks := blocks + [cur];
    }
  }

  /** A line that does not fit closes the block and opens the next one with its tail. */
  lemma CloseBlock(tok: Tokens, blocks: seq<Block>, cur: Block, carry: seq<Line>, line: Line, max: int, overlap: int)
    requires cur.own != [] && WellCut(tok, blocks + [cur], max, overlap)
    requires Total(tok, cur.Lines()) + tok(line) > max
    requires IsLongestTail(tok, cur.Lines(), carry, overlap)
    ensures WellCut(tok, blocks + [cur] + [Block(carry, [line])], max, overlap)
    ensures OwnLines(blocks + [cur]) == OwnLines(blocks) + cur.own
  {
    var all := blocks + [cur] + [Block(carry, [line])];
    assert (blocks + [cur])[..|blocks + [cur]| - 1] == blocks;
    forall k | 1 <= k < |all| ensures Follows(tok, all[k - 1], all[k], max, overlap) {
      if k < |all| - 1 {
        assert all[k] == (blocks + [cur])[k] && all[k - 1] == (blocks + [cur])[k - 1];
      }
    }
    assert forall k | 0 <= k < |all| - 1 :: all[k] == (blocks + [cur])[k];
  }

  /** A line that fits, or the very first one, joins the open block. */
  lemma ExtendBlock(tok: Tokens, blocks: seq<Block>, cur: Block, line: Line, max: int, overlap: int)
    requires (blocks == [] && cur == Block([], [])) ||
      (cur.own != [] && WellCut(tok, blocks + [cur], max, overlap) && Total(tok, cur.Lines()) + tok(line) <= max)
    ensures WellCut(tok, blocks + [cur.(own := cur.own + [line])], max, overlap)
  {
    var cur' := cur.(own := cur.own + [line]);
    var all, all' := blocks + [cur], blocks + [cur'];
    AppendLine(tok, cur, line);
    forall k | 1 <= k < |all'| ensures Follows(tok, all'[k - 1], all'[k], max, overlap) {
      assert Follows(tok, all[k - 1], all[k], max, overlap);
    }
    assert forall k | 0 <= k < |blocks| :: all'[k] == all[k];
  }

  lemma AppendLine(tok: Tokens, b: Block, line: Line)
    ensures Total(tok, b.(own := b.own + [line]).Lines()) == Total(tok, b.Lines()) + tok(line)
  {
    assert b.(own := b.own + [line]).Lines() == b.Lines() + [line];
    assert (b.Lines() + [line])[..|b.Lines()|] == b.Lines();
  }

  // ---------- what the cut guarantees ----------

  /** A block is closed only because its next line would take it beyond the limit; and the next block
  repeats the longest end of it that the overlap allows, not one line more or less. */
  lemma ClosedOnlyWhenFull(tok: Tokens, blocks: seq<Block>, max: int, overlap: int, k: nat) returns (n: nat)
    requires WellCut(tok, blocks, max, overlap) && k + 1 < |blocks|
    ensures blocks[k + 1].own != []
    ensures Total(tok, blocks[k].carry + blocks[k].own + [blocks[k + 1].own[0]]) > max
    ensures var lines := blocks[k].carry + blocks[k].own;
      && n <= |lines| && blocks[k + 1].carry == lines[n..]
      && (n < |lines| ==> Total(tok, lines[n..]) <= overlap)
      && (n > 0 ==> Total(tok, lines[n - 1..]) > overlap)
  {
    var b, next := blocks[k], blocks[k + 1];
    assert Follows(tok, blocks[k + 1 - 1], blocks[k + 1], max, overlap);
    assert (b.Lines() + [next.own[0]])[..|b.Lines()|] == b.Lines();
    n := |b.Lines()| - |next.carry|;
  }

  function Larger(a: int, b: int): int {
    if a > b then a else b
  }

  /** No block exceeds the larger of the limit and the overlap plus the longest line. */
  lemma BlockSizeBound(tok: Tokens, blocks: seq<Block>, max: int, overlap: int, longest: nat, k: nat)
    requires WellCut(tok, blocks, max, overlap) && k < |blocks|
    requires forall line | line in blocks[k].own :: tok(line) <= longest
    ensures Total(tok, blocks[k].Lines()) <= Larger(max, Larger(overlap, 0) + longest)
  {
    var b := blocks[k];
    if |b.own| == 1 {
      assert b.own[0] in b.own;
      TotalOfConcat(tok, b.carry, b.own);
      assert b.own[..0] == [];
    }
  }

  lemma TailNotShorter(tok: Tokens, lines: seq<Line>, a: seq<Line>, b: seq<Line>, overlap: int)
    requires IsLongestTail(tok, lines, a, overlap) && IsLongestTail(tok, lines, b, overlap)
    ensures |a| >= |b|
  {
    if |a| < |b| {
      var n, cut := |lines| - |b|, |lines| - |a| - 1;
      var tooLong, extra := lines[cut..], lines[n..cut];
      assert b == lines[n..] == extra + tooLong;
      LongerTailCostsMore(tok, tooLong, extra, b);
    }
  }

  lemma LongestTailIsUnique(tok: Tokens, lines: seq<Line>, a: seq<Line>, b: seq<Line>, overlap: int)
    requires IsLongestTail(tok, lines, a, overlap) && IsLongestTail(tok, lines, b, overlap)
    ensures a == b
  {
    TailNotShorter(tok, lines, a, b, overlap);
    TailNotShorter(tok, lines, b, a, overlap);
  }

  lemma LongerTailCostsMore(tok: Tokens, tail: seq<Line>, extra: seq<Line>, longer: seq<Line>)
    requires longer == extra + tail
    ensures Total(tok, tail) <= Total(tok, longer)
  {
    TotalOfConcat(tok, extra, tail);
  }

  lemma {:induction false} OwnLinesSplit(blocks: seq<Block>, k: nat)
    requires k <= |blocks|
    ensures OwnLines(blocks) == OwnLines(blocks[..k]) + OwnLines(blocks[k..])
  {
    if k == |blocks| {
      assert blocks[..k] == blocks && blocks[k..] == [];
    } else {
      var init := blocks[..|blocks| - 1];
      OwnLinesSplit(init, k);
      assert init[..k] == blocks[..k] && blocks[k..][..|blocks[k..]| - 1] == init[k..];
    }
  }

  lemma OwnLinesFirst(blocks: seq<Block>)
    requires blocks != []
    ensures OwnLines(blocks) == blocks[0].own + OwnLines(blocks[1..])
  {
    OwnLinesSplit(blocks, 1);
    assert blocks[..1][..0] == [];
  }

  /** Two ways to begin one sequence: the longer beginning continues with the other's rest. */
  lemma LongerBeginning(x: seq<Line>, r: seq<Line>, y: seq<Line>, q: seq<Line>)
    requires x + r == y + q && |x| < |y|
    ensures r != [] && y == x + [r[0]] + y[|x| + 1..]
  {
    assert (x + r)[..|x|] == x && (y + q)[..|y|] == y;
    assert |x + r| == |y + q|;
    assert (x + r)[|x|] == r[0] && (y + q)[|x|] == y[|x|];
  }

  /** A block that took a line after the point where its limit was passed has to be a single. */
  lemma NoRoomLeft(tok: Tokens, short: Block, line: Line, rest: seq<Line>, long: Block, max: int, overlap: int)
    requires short.carry == long.carry && short.own != [] && long.own == short.own + [line] + rest
    requires Total(tok, short.Lines()) + tok(line) > max
    ensures !FitsOrSingle(tok, long, max, overlap)
  {
    assert long.Lines() == short.Lines() + ([line] + rest);
    TotalOfConcat(tok, short.Lines(), [line] + rest);
    TotalOfConcat(tok, [line], rest);
    assert [line][..0] == [];
  }

  /** Two cuts of the same lines that agree on their first k blocks agree on the next: the one
  with fewer own lines would have closed although its next line still fits the other. */
  lemma NotShorter(tok: Tokens, a: seq<Block>, b: seq<Block>, k: nat, max: int, overlap: int)
    requires WellCut(tok, a, max, overlap) && WellCut(tok, b, max, overlap)
    requires k < |a| && k < |b| && a[k].carry == b[k].carry
    requires OwnLines(a[k..]) == OwnLines(b[k..])
    ensures |a[k].own| >= |b[k].own|
  {
    OwnLinesFirst(a[k..]);
    OwnLinesFirst(b[k..]);
    if |a[k].own| < |b[k].own| {
      assert a[k..][1..] == a[k + 1..] && b[k..][1..] == b[k + 1..];
      LongerBeginning(a[k].own, OwnLines(a[k + 1..]), b[k].own, OwnLines(b[k + 1..]));
      OwnLinesFirst(a[k + 1..]);
      assert Follows(tok, a[k + 1 - 1], a[k + 1], max, overlap);
      NoRoomLeft(tok, a[k], a[k + 1].own[0], b[k].own[|a[k].own| + 1..], b[k], max, overlap);
    }
  }

  lemma SameNextBlock(tok: Tokens, a: seq<Block>, b: seq<Block>, k: nat, max: int, overlap: int)
    requires WellCut(tok, a, max, overlap) && WellCut(tok, b, max, overlap)
    requires k < |a| && k < |b|
    requires OwnLines(a[k..]) == OwnLines(b[k..])
    requires k > 0 ==> a[k - 1] == b[k - 1]
    ensures a[k] == b[k]
  {
    if k > 0 {
      LongestTailIsUnique(tok, a[k - 1].Lines(), a[k].carry, b[k].carry, overlap);
    }
    NotShorter(tok, a, b, k, max, overlap);
    NotShorter(tok, b, a, k, max, overlap);
    OwnLinesFirst(a[k..]);
    OwnLinesFirst(b[k..]);
    assert a[k].own == OwnLines(a[k..])[..|a[k].own|] == OwnLines(b[k..])[..|b[k].own|] == b[k].own;
  }

  /** Behind equal first blocks the same lines remain. */
  lemma SameRest(a: seq<Block>, b: seq<Block>, k: nat)
    requires k < |a| && k < |b| && a[k] == b[k] && OwnLines(a[k..]) == OwnLines(b[k..])
    ensures OwnLines(a[k + 1..]) == OwnLines(b[k + 1..])
  {
    OwnLinesFirst(a[k..]);
    OwnLinesFirst(b[k..]);
    var own, x, y := a[k].own, OwnLines(a[k..][1..]), OwnLines(b[k..][1..]);
    assert a[k..][1..] == a[k + 1..] && b[k..][1..] == b[k + 1..];
    assert x == (own + x)[|own|..] && y == (own + y)[|own|..];
  }

  lemma NoOwnLinesNoBlocks(tok: Tokens, a: seq<Block>, k: nat, max: int, overlap: int)
    requires WellCut(tok, a, max, overlap) && k < |a|
    ensures OwnLines(a[k..]) != []
  {
    OwnLinesFirst(a[k..]);
    assert a[k].own != [];
  }

  lemma {:induction false} CutsAgreeFrom(tok: Tokens, a: seq<Block>, b: seq<Block>, k: nat, max: int, overlap: int)
    requires WellCut(tok, a, max, overlap) && WellCut(tok, b, max, overlap)
    requires k <= |a| && k <= |b| && OwnLines(a[k..]) == OwnLines(b[k..])
    requires k > 0 ==> a[k - 1] == b[k - 1]
    ensures |a| == |b| && forall i | k <= i < |a| :: a[i] == b[i]
    decreases |a| - k
  {
    if k < |a| && k < |b| {
      SameNextBlock(tok, a, b, k, max, overlap);
      SameRest(a, b, k);
      CutsAgreeFrom(tok, a, b, k + 1, max, overlap);
    } else if k < |a| {
      NoOwnLinesNoBlocks(tok, a, k, max, overlap);
    } else if k < |b| {
      NoOwnLinesNoBlocks(tok, b, k, max, overlap);
    }
  }

  /** The cut is determined by its properties: a list of lines has exactly one well-cut form. */
  lemma CutIsUnique(tok: Tokens, a: seq<Block>, b: seq<Block>, max: int, overlap: int)
    requires WellCut(tok, a, max, overlap) && WellCut(tok, b, max, overlap)
    requires OwnLines(a) == OwnLines(b)
    ensures a == b
  {
    assert a[0..] == a && b[0..] == b;
    CutsAgreeFrom(tok, a, b, 0, max, overlap);
  }

  // ---------- sections ----------

  /** A heading's title, or None for an ordinary line. */
  type Heading = Line -> Option<string>

  datatype Section = Section(title: string, lines: seq<Line>)

  /** The title in force behind the given lines: that of their last heading, none before the first. */
  function TitleAfter(heading: Heading, lines: seq<Line>): string {
    if lines == [] then ""
    else
      var last := lines[|lines| - 1];
      if heading(last).Some? then heading(last).value else TitleAfter(heading, lines[..|lines| - 1])
  }

  /** From line `from` on there is no heading; the title is that of the line before, or none. */
  lemma {:induction false} TitleIsLastHeading(heading: Heading, lines: seq<Line>, from: nat)
    requires from <= |lines| && forall i | from <= i < |lines| :: heading(lines[i]).None?
    requires from > 0 ==> heading(lines[from - 1]).Some?
    ensures TitleAfter(heading, lines) == if from == 0 then "" else heading(lines[from - 1]).value
  {
    if from < |lines| {
      TitleIsLastHeading(heading, lines[..|lines| - 1], from);
    }
  }

  /** Every ordinary line with the title it stands under. */
  function Titled(heading: Heading, lines: seq<Line>): seq<(string, Line)> {
    if lines == [] then []
    else
      var init, last := lines[..|lines| - 1], lines[|lines| - 1];
      Titled(heading, init) + if heading(last).Some? then [] else [(TitleAfter(heading, init), last)]
  }

  function Tag(title: string, lines: seq<Line>): seq<(string, Line)> {
    seq(|lines|, i requires 0 <= i < |lines| => (title, lines[i]))
  }

  function Untold(sections: seq<Section>): seq<(string, Line)> {
    if sections == [] then []
    else
      var last := sections[|sections| - 1];
      Untold(sections[..|sections| - 1]) + Tag(last.title, last.lines)
  }

  /** The section's lines stand in the text from line `at` on, between two headings or text ends. */
  ghost predicate IsRun(heading: Heading, lines: seq<Line>, s: Section, at: nat) {
    var end := at + |s.lines|;
    && s.lines != [] && end <= |lines| && s.lines == lines[at..end]
    && s.title == TitleAfter(heading, lines[..at])
    && (forall line | line in s.lines :: heading(line).None?)
    && (at > 0 ==> heading(lines[at - 1]).Some?)
    && (end < |lines| ==> heading(lines[end]).Some?)
  }

  /** What is known of the lines collected since the last heading when line `i` is next. */
  ghost predicate Collected(heading: Heading, lines: seq<Line>, i: nat, title: string, buf: seq<Line>) {
    && |buf| <= i <= |lines| && buf == lines[i - |buf|..i]
    && title == TitleAfter(heading, lines[..i - |buf|]) == TitleAfter(heading, lines[..i])
    && (forall line | line in buf :: heading(line).None?)
    && (|buf| < i ==> heading(lines[i - |buf| - 1]).Some?)
  }

  lemma CollectOrdinary(heading: Heading, lines: seq<Line>, i: nat, title: string, buf: seq<Line>)
    requires i < |lines| && Collected(heading, lines, i, title, buf) && heading(lines[i]).None?
    ensures Collected(heading, lines, i + 1, title, buf + [lines[i]])
  {
    var at, buf' := i - |buf|, buf + [lines[i]];
    assert lines[..i + 1][..i] == lines[..i];
    assert i + 1 - |buf'| == at && lines[at..i + 1] == lines[at..i] + [lines[i]];
  }

  lemma CollectLine(heading: Heading, lines: seq<Line>, i: nat, title: string, buf: seq<Line>)
    requires i < |lines| && Collected(heading, lines, i, title, buf)
    ensures heading(lines[i]).None? ==> Collected(heading, lines, i + 1, title, buf + [lines[i]])
    ensures heading(lines[i]).Some? ==> Collected(heading, lines, i + 1, heading(lines[i]).value, [])
  {
    if heading(lines[i]).None? {
      CollectOrdinary(heading, lines, i, title, buf);
    } else {
      assert lines[..i + 1][..i] == lines[..i];
    }
  }

  lemma TellLine(heading: Heading, lines: seq<Line>, i: nat, told: seq<(string, Line)>, title: string, buf: seq<Line>)
    requires i < |lines| && Collected(heading, lines, i, title, buf)
    requires told + Tag(title, buf) == Titled(heading, lines[..i])
    ensures heading(lines[i]).None? ==> told + Tag(title, buf + [lines[i]]) == Titled(heading, lines[..i + 1])
    ensures heading(lines[i]).Some? ==> told + Tag(title, buf) == Titled(heading, lines[..i + 1])
  {
    assert lines[..i + 1][..i] == lines[..i];
    assert Tag(title, buf + [lines[i]]) == Tag(title, buf) + [(title, lines[i])];
  }

  /** The sections are runs that begin at `starts`, one behind the other, all before line `upTo`. */
  ghost predicate AllRuns(heading: Heading, lines: seq<Line>, sections: seq<Section>, starts: seq<nat>, upTo: int) {
    && |starts| == |sections|
    && (forall k | 0 <= k < |starts| :: IsRun(heading, lines, sections[k], starts[k]))
    && (forall k | 0 <= k < |starts| :: starts[k] + |sections[k].lines| <= upTo)
    && (forall j, k | 0 <= j < k < |starts| :: starts[j] + |sections[j].lines| <= starts[k])
  }

  /** The text's runs of ordinary lines, in order, none missing. */
  ghost predicate IsSplit(heading: Heading, lines: seq<Line>, sections: seq<Section>) {
    && Untold(sections) == Titled(heading, lines)
    && exists starts: seq<nat> :: AllRuns(heading, lines, sections, starts, |lines|)
  }

  /** Lines collected since the last heading become a section. */
  method CloseSection(heading: Heading, ghost lines: seq<Line>, ghost i: nat, sections: seq<Section>,
      ghost starts: seq<nat>,
                      title: string, buf: seq<Line>)
    returns (sections': seq<Section>, ghost starts': seq<nat>)
    requires Collected(heading, lines, i, title, buf) && AllRuns(heading, lines, sections, starts, i - |buf|)
    requires i < |lines| ==> heading(lines[i]).Some?
    ensures AllRuns(heading, lines, sections', starts', i) && AllRuns(heading, lines, sections', starts', i + 1)
    ensures Untold(sections') == Untold(sections) + Tag(title, buf)
  {
    if buf == [] {
      return sections, starts;
    }
    assert IsRun(heading, lines, Section(title, buf), i - |buf|);
    sections', starts' := sections + [Section(title, buf)], starts + [i - |buf|];
    assert sections'[..|sections|] == sections;
  }

  method SplitSections(heading: Heading, lines: seq<Line>) returns (sections: seq<Section>)
    ensures IsSplit(heading, lines, sections)
  {
    sections := [];
    ghost var starts: seq<nat>, next := [], 0;
    var title, buf := "", [];
    for i := 0 to |lines|
      invariant Collected(heading, lines, i, title, buf) && next == i - |buf|
      invariant Untold(sections) + Tag(title, buf) == Titled(heading, lines[..i])
      invariant AllRuns(heading, lines, sections, starts, next)
    {
      CollectLine(heading, lines, i, title, buf);
      TellLine(heading, lines, i, Untold(sections), title, buf);
      var h := heading(lines[i]);
      if h.Some? {
        sections, starts := CloseSection(heading, lines, i, sections, starts, title, buf);
        title, buf, next := h.value, [], i + 1;
        assert Untold(sections) + Tag(title, buf) == Untold(sections);
      } else {
        buf := buf + [lines[i]];
      }
    }
    assert lines[..|lines|] == lines;
    sections, starts := CloseSection(heading, lines, |lines|, sections, starts, title, buf);
    assert AllRuns(heading, lines, sections, starts, |lines|);
  }

  // ---------- pieces ----------

  datatype Piece = Piece(section: string, lines: seq<Line>, seqNo: nat)

  /** A block of nothing but blank lines is not worth a piece. */
  predicate IsBlank(blank: Line -> bool, lines: seq<Line>) {
    forall line | line in lines :: blank(line)
  }

  /** The non-blank blocks, in order, with their section and a running number. */
  function Pieces(blank: Line -> bool, cut: seq<(string, Block)>): (pieces: seq<Piece>)
    ensures forall k | 0 <= k < |pieces| :: pieces[k].seqNo == k && !IsBlank(blank, pieces[k].lines)
  {
    if cut == [] then []
    else
      var earlier := Pieces(blank, cut[..|cut| - 1]);
      var (title, block) := cut[|cut| - 1];
      if IsBlank(blank, block.Lines()) then earlier else earlier + [Piece(title, block.Lines(), |earlier|)]
  }

  /** The blocks of one section, with its title. */
  function Headed(title: string, blocks: seq<Block>): seq<(string, Block)> {
    seq(|blocks|, k requires 0 <= k < |blocks| => (title, blocks[k]))
  }

  /** All sections' blocks in a row. */
  function Laid(sections: seq<Section>, cuts: seq<seq<Block>>): seq<(string, Block)>
    requires |cuts| == |sections|
  {
    if sections == [] then []
    else
      var n := |sections| - 1;
      Laid(sections[..n], cuts[..n]) + Headed(sections[n].title, cuts[n])
  }

  ghost predicate CutEach(tok: Tokens, sections: seq<Section>, cuts: seq<seq<Block>>, max: int, overlap: int) {
    && |cuts| == |sections|
    && forall k | 0 <= k < |cuts| :: OwnLines(cuts[k]) == sections[k].lines && WellCut(tok, cuts[k], max, overlap)
  }

  /** Add one section's blocks, leaving out the blank ones. */
  method AddBlocks(blank: Line -> bool, pieces: seq<Piece>, ghost cut: seq<(string, Block)>,
      title: string, blocks: seq<Block>)
    returns (pieces': seq<Piece>)
    requires pieces == Pieces(blank, cut)
    ensures pieces' == Pieces(blank, cut + Headed(title, blocks))
    ensures exists js :: Numbers(blank, cut + Headed(title, blocks), js, pieces')
  {
    pieces' := pieces;
    assert cut + Headed(title, blocks[..0]) == cut;
    for k := 0 to |blocks|
      invariant pieces' == Pieces(blank, cut + Headed(title, blocks[..k]))
    {
      ghost var upTo, next := cut + Headed(title, blocks[..k]), cut + Headed(title, blocks[..k + 1]);
      assert next[..|next| - 1] == upTo && next[|next| - 1] == (title, blocks[k]);
      if !IsBlank(blank, blocks[k].Lines()) {
        pieces' := pieces' + [Piece(title, blocks[k].Lines(), |pieces'|)];
      }
    }
    assert blocks[..|blocks|] == blocks;
    ghost var js := PiecesAreNumbered(blank, cut + Headed(title, blocks));
    assert Numbers(blank, cut + Headed(title, blocks), js, pieces');
  }

  /** The block has a line that is worth keeping. */
  predicate HasText(blank: Line -> bool, block: Block) {
    exists line | line in block.carry + block.own :: !blank(line)
  }

  /** The positions of the blocks with text, each once and in order. */
  ghost predicate Positions(blank: Line -> bool, cut: seq<(string, Block)>, js: seq<nat>) {
    && (forall k | 0 <= k < |js| :: js[k] < |cut|)
    && (forall a, b | 0 <= a < b < |js| :: js[a] < js[b])
    && (forall j: nat | j < |cut| :: j in js <==> HasText(blank, cut[j].1))
  }

  /** Piece k has number k and the section and the lines of the k-th block with text. */
  ghost predicate Numbers(blank: Line -> bool, cut: seq<(string, Block)>, js: seq<nat>, pieces: seq<Piece>) {
    && Positions(blank, cut, js) && |js| == |pieces|
    && forall k | 0 <= k < |js| :: pieces[k] == Piece(cut[js[k]].0, cut[js[k]].1.carry + cut[js[k]].1.own, k)
  }

  lemma {:induction false} PiecesAreNumbered(blank: Line -> bool, cut: seq<(string, Block)>) returns (js: seq<nat>)
    ensures Numbers(blank, cut, js, Pieces(blank, cut))
  {
    js := [];
    if cut != [] {
      js := PiecesAreNumbered(blank, cut[..|cut| - 1]);
      js := NumberNext(blank, cut, js);
    }
  }

  lemma NextPosition(blank: Line -> bool, cut: seq<(string, Block)>, before: seq<nat>)
    requires cut != [] && Positions(blank, cut[..|cut| - 1], before)
    ensures Positions(blank, cut, before + if HasText(blank, cut[|cut| - 1].1) then [|cut| - 1] else [])
  {
    var n := |cut| - 1;
    var js := before + if HasText(blank, cut[n].1) then [n] else [];
    forall j: nat | j < |cut| ensures j in js <==> HasText(blank, cut[j].1) {
      if j < n {
        assert cut[..n][j] == cut[j];
      }
    }
  }

  lemma NumberNext(blank: Line -> bool, cut: seq<(string, Block)>, before: seq<nat>) returns (js: seq<nat>)
    requires cut != [] && Numbers(blank, cut[..|cut| - 1], before, Pieces(blank, cut[..|cut| - 1]))
    ensures Numbers(blank, cut, js, Pieces(blank, cut))
  {
    var n := |cut| - 1;
    var block := cut[n].1;
    assert IsBlank(blank, block.Lines()) <==> !HasText(blank, block);
    js := before + if HasText(blank, block) then [n] else [];
    NextPosition(blank, cut, before);
    assert forall k | 0 <= k < |before| :: cut[..n][before[k]] == cut[before[k]];
  }

  /** The cut determines what is numbered. */
  lemma {:induction false} NumberedArePieces(blank: Line -> bool, cut: seq<(string, Block)>, js: seq<nat>,
      pieces: seq<Piece>)
    requires Numbers(blank, cut, js, pieces)
    ensures pieces == Pieces(blank, cut)
  {
    if cut == [] {
      assert pieces == [];
    } else {
      var n := |cut| - 1;
      assert IsBlank(blank, cut[n].1.Lines()) <==> !HasText(blank, cut[n].1);
      if HasText(blank, cut[n].1) {
        LastIsLast(blank, cut, js, pieces);
        NumberedArePieces(blank, cut[..n], js[..|js| - 1], pieces[..|js| - 1]);
      } else {
        NumberedBefore(blank, cut, js, pieces);
        NumberedArePieces(blank, cut[..n], js, pieces);
      }
    }
  }

  lemma LastIsLast(blank: Line -> bool, cut: seq<(string, Block)>, js: seq<nat>, pieces: seq<Piece>)
    requires cut != [] && Numbers(blank, cut, js, pieces) && HasText(blank, cut[|cut| - 1].1)
    ensures js != [] && js[|js| - 1] == |cut| - 1
    ensures Numbers(blank, cut[..|cut| - 1], js[..|js| - 1], pieces[..|js| - 1])
  {
    var n, m := |cut| - 1, |js| - 1;
    assert n in js;
    var k :| 0 <= k < |js| && js[k] == n;
    forall j: nat | j < n ensures j in js[..m] <==> HasText(blank, cut[..n][j].1) {
      assert cut[..n][j] == cut[j];
      assert j in js <==> j in js[..m];
    }
  }

  lemma NumberedBefore(blank: Line -> bool, cut: seq<(string, Block)>, js: seq<nat>, pieces: seq<Piece>)
    requires cut != [] && Numbers(blank, cut, js, pieces) && !HasText(blank, cut[|cut| - 1].1)
    ensures Numbers(blank, cut[..|cut| - 1], js, pieces)
  {
    var n := |cut| - 1;
    forall k | 0 <= k < |js| ensures js[k] < n {
      assert js[k] in js;
    }
    assert forall j: nat | j < n :: cut[..n][j] == cut[j];
  }

  /** The pieces are the blocks with text, numbered in order, of all sections, each cut on its own. */
  ghost predicate IsChunking(tok: Tokens, blank: Line -> bool, sections: seq<Section>,
      max: int, overlap: int, pieces: seq<Piece>) {
    exists cuts: seq<seq<Block>>, js: seq<nat> ::
      CutEach(tok, sections, cuts, max, overlap) && Numbers(blank, Laid(sections, cuts), js, pieces)
  }

  method ChunkMarkdown(tok: Tokens, heading: Heading, blank: Line -> bool, lines: seq<Line>, max: int, overlap: int)
    returns (pieces: seq<Piece>)
    ensures exists sections ::
      IsSplit(heading, lines, sections) && IsChunking(tok, blank, sections, max, overlap, pieces)
  {
    var sections := SplitSections(heading, lines);
    pieces := ChunkSections(tok, blank, sections, max, overlap);
  }

  method ChunkSections(tok: Tokens, blank: Line -> bool, sections: seq<Section>, max: int, overlap: int)
    returns (pieces: seq<Piece>)
    ensures IsChunking(tok, blank, sections, max, overlap, pieces)
  {
    pieces := [];
    ghost var cuts: seq<seq<Block>> := [];
    for i := 0 to |sections|
      invariant CutSoMany(tok, blank, sections, i, cuts, max, overlap, pieces)
    {
      pieces, cuts := ChunkNext(tok, blank, sections, i, cuts, max, overlap, pieces);
    }
    assert sections[..|sections|] == sections;
    ghost var js := PiecesAreNumbered(blank, Laid(sections, cuts));
    assert Numbers(blank, Laid(sections, cuts), js, pieces);
  }

  ghost predicate CutSoMany(tok: Tokens, blank: Line -> bool, sections: seq<Section>, i: nat, cuts: seq<seq<Block>>,
                            max: int, overlap: int, pieces: seq<Piece>) {
    && i <= |sections| && CutEach(tok, sections[..i], cuts, max, overlap)
    && pieces == Pieces(blank, Laid(sections[..i], cuts))
  }

  /** One more section. */
  method ChunkNext(tok: Tokens, blank: Line -> bool, sections: seq<Section>, i: nat, ghost cuts: seq<seq<Block>>,
                   max: int, overlap: int, pieces: seq<Piece>)
    returns (pieces': seq<Piece>, ghost cuts': seq<seq<Block>>)
    requires i < |sections| && CutSoMany(tok, blank, sections, i, cuts, max, overlap, pieces)
    ensures CutSoMany(tok, blank, sections, i + 1, cuts', max, overlap, pieces')
  {
    var blocks := ChunkLines(tok, sections[i].lines, max, overlap);
    pieces' := AddBlocks(blank, pieces, Laid(sections[..i], cuts), sections[i].title, blocks);
    LayNext(sections, cuts, blocks);
    CutNext(tok, sections, cuts, blocks, max, overlap);
    cuts' := cuts + [blocks];
  }

  lemma CutNext(tok: Tokens, sections: seq<Section>, cuts: seq<seq<Block>>, blocks: seq<Block>, max: int, overlap: int)
    requires |cuts| < |sections| && CutEach(tok, sections[..|cuts|], cuts, max, overlap)
    requires OwnLines(blocks) == sections[|cuts|].lines && WellCut(tok, blocks, max, overlap)
    ensures CutEach(tok, sections[..|cuts| + 1], cuts + [blocks], max, overlap)
  {
    var upTo, cuts' := sections[..|cuts| + 1], cuts + [blocks];
    forall k | 0 <= k < |cuts'| ensures OwnLines(cuts'[k]) == upTo[k].lines && WellCut(tok, cuts'[k], max, overlap) {
      if k < |cuts| {
        assert cuts'[k] == cuts[k] && upTo[k] == sections[..|cuts|][k];
      }
    }
  }

  lemma LayNext(sections: seq<Section>, cuts: seq<seq<Block>>, blocks: seq<Block>)
    requires |cuts| < |sections|
    ensures Laid(sections[..|cuts| + 1], cuts + [blocks])
      == Laid(sections[..|cuts|], cuts) + Headed(sections[|cuts|].title, blocks)
  {
    var n := |cuts|;
    assert sections[..n + 1][..n] == sections[..n] && (cuts + [blocks])[..n] == cuts;
  }

  // ---------- what the pieces hold ----------

  /** The lines a cut brings for the first time, with their titles. */
  function OwnTitled(cut: seq<(string, Block)>): seq<(string, Line)> {
    if cut == [] then []
    else
      var (title, block) := cut[|cut| - 1];
      OwnTitled(cut[..|cut| - 1]) + Tag(title, block.own)
  }

  lemma TagOfConcat(title: string, a: seq<Line>, b: seq<Line>)
    ensures Tag(title, a + b) == Tag(title, a) + Tag(title, b)
  {
  }

  lemma {:induction false} HeadedTellsLines(cut: seq<(string, Block)>, title: string, blocks: seq<Block>)
    ensures OwnTitled(cut + Headed(title, blocks)) == OwnTitled(cut) + Tag(title, OwnLines(blocks))
  {
    if blocks == [] {
      assert cut + Headed(title, blocks) == cut;
      assert Tag(title, []) == [];
    } else {
      var n := |blocks| - 1;
      HeadedTellsLines(cut, title, blocks[..n]);
      TagOfConcat(title, OwnLines(blocks[..n]), blocks[n].own);
      var all := cut + Headed(title, blocks);
      assert all[..|all| - 1] == cut + Headed(title, blocks[..n]) && all[|all| - 1] == (title, blocks[n]);
    }
  }

  /** Cutting every section loses and moves nothing. */
  lemma {:induction false} NothingLost(tok: Tokens, sections: seq<Section>, cuts: seq<seq<Block>>,
      max: int, overlap: int)
    requires CutEach(tok, sections, cuts, max, overlap)
    ensures OwnTitled(Laid(sections, cuts)) == Untold(sections)
  {
    if sections != [] {
      var n := |sections| - 1;
      assert CutEach(tok, sections[..n], cuts[..n], max, overlap);
      NothingLost(tok, sections[..n], cuts[..n], max, overlap);
      HeadedTellsLines(Laid(sections[..n], cuts[..n]), sections[n].title, cuts[n]);
    }
  }

  /** So each ordinary line of the text is an own line of exactly one block, in order and under its
  own title. */
  lemma EveryLineOnce(tok: Tokens, heading: Heading, lines: seq<Line>, sections: seq<Section>, cuts: seq<seq<Block>>,
      max: int, overlap: int)
    requires IsSplit(heading, lines, sections) && CutEach(tok, sections, cuts, max, overlap)
    ensures OwnTitled(Laid(sections, cuts)) == Titled(heading, lines)
  {
    NothingLost(tok, sections, cuts, max, overlap);
  }

  // ---------- every line worth keeping is in a piece ----------

  /** A piece of that section holds the line. */
  ghost predicate Holds(pieces: seq<Piece>, told: (string, Line)) {
    exists k :: 0 <= k < |pieces| && pieces[k].section == told.0 && told.1 in pieces[k].lines
  }

  lemma {:induction false} OwnLineIsHeld(blank: Line -> bool, cut: seq<(string, Block)>, told: (string, Line))
    requires told in OwnTitled(cut) && !blank(told.1)
    ensures Holds(Pieces(blank, cut), told)
  {
    var n := |cut| - 1;
    var (title, block) := cut[n];
    var earlier, pieces := Pieces(blank, cut[..n]), Pieces(blank, cut);
    if told in OwnTitled(cut[..n]) {
      OwnLineIsHeld(blank, cut[..n], told);
      var k :| 0 <= k < |earlier| && earlier[k].section == told.0 && told.1 in earlier[k].lines;
      assert pieces[k] == earlier[k];
    } else {
      assert told in Tag(title, block.own);
      assert told.1 in block.Lines() && !IsBlank(blank, block.Lines());
      assert pieces[|earlier|] == Piece(title, block.Lines(), |earlier|) && title == told.0;
    }
  }

  lemma {:induction false} OwnInOwnLines(blocks: seq<Block>, k: nat, line: Line)
    requires k < |blocks| && line in blocks[k].own
    ensures line in OwnLines(blocks)
  {
    if k < |blocks| - 1 {
      OwnInOwnLines(blocks[..|blocks| - 1], k, line);
    }
  }

  /** What a block repeats is its section's, too. */
  lemma {:induction false} BlockHoldsOnlyOwnLines(tok: Tokens, blocks: seq<Block>, k: nat, line: Line,
      max: int, overlap: int)
    requires WellCut(tok, blocks, max, overlap) && k < |blocks| && line in blocks[k].Lines()
    ensures line in OwnLines(blocks)
  {
    if line in blocks[k].own {
      OwnInOwnLines(blocks, k, line);
    } else if k > 0 {
      assert Follows(tok, blocks[k - 1], blocks[k], max, overlap);
      BlockHoldsOnlyOwnLines(tok, blocks, k - 1, line, max, overlap);
    }
  }

  lemma {:induction false} LaidHoldsOnlyItsLines(tok: Tokens, sections: seq<Section>, cuts: seq<seq<Block>>,
      max: int, overlap: int, k: nat, line: Line)
    requires CutEach(tok, sections, cuts, max, overlap)
    requires k < |Laid(sections, cuts)| && line in Laid(sections, cuts)[k].1.Lines()
    ensures (Laid(sections, cuts)[k].0, line) in Untold(sections)
  {
    var n := |sections| - 1;
    var before := Laid(sections[..n], cuts[..n]);
    if k < |before| {
      LaidHoldsOnlyItsLines(tok, sections[..n], cuts[..n], max, overlap, k, line);
    } else {
      BlockHoldsOnlyOwnLines(tok, cuts[n], k - |before|, line, max, overlap);
      InTag(sections[n].title, sections[n].lines, line);
    }
  }

  lemma InTag(title: string, lines: seq<Line>, line: Line)
    requires line in lines
    ensures (title, line) in Tag(title, lines)
  {
    var k :| 0 <= k < |lines| && lines[k] == line;
    assert Tag(title, lines)[k] == (title, line);
  }

  lemma {:induction false} PieceIsABlock(blank: Line -> bool, cut: seq<(string, Block)>, k: nat) returns (j: nat)
    requires k < |Pieces(blank, cut)|
    ensures j < |cut| && cut[j].0 == Pieces(blank, cut)[k].section && cut[j].1.Lines() == Pieces(blank, cut)[k].lines
  {
    var n := |cut| - 1;
    if k < |Pieces(blank, cut[..n])| {
      j := PieceIsABlock(blank, cut[..n], k);
    } else {
      j := n;
    }
  }

  /** A line that is not blank stands in a piece of a section exactly if it is an ordinary line of the
  text under that section's title. */
  lemma PiecesHoldTheText(tok: Tokens, heading: Heading, blank: Line -> bool, lines: seq<Line>,
      sections: seq<Section>, max: int, overlap: int, pieces: seq<Piece>, told: (string, Line))
    requires IsSplit(heading, lines, sections) && IsChunking(tok, blank, sections, max, overlap, pieces)
    requires !blank(told.1)
    ensures Holds(pieces, told) <==> told in Titled(heading, lines)
  {
    var cuts: seq<seq<Block>>, js: seq<nat> :| CutEach(tok, sections, cuts, max, overlap)
      && Numbers(blank, Laid(sections, cuts), js, pieces);
    var cut := Laid(sections, cuts);
    NumberedArePieces(blank, cut, js, pieces);
    EveryLineOnce(tok, heading, lines, sections, cuts, max, overlap);
    if told in Titled(heading, lines) {
      OwnLineIsHeld(blank, cut, told);
    }
    if Holds(pieces, told) {
      var k :| 0 <= k < |pieces| && pieces[k].section == told.0 && told.1 in pieces[k].lines;
      var j := PieceIsABlock(blank, cut, k);
      LaidHoldsOnlyItsLines(tok, sections, cuts, max, overlap, j, told.1);
    }
  }

  lemma CutsAreUnique(tok: Tokens, sections: seq<Section>, a: seq<seq<Block>>, b: seq<seq<Block>>,
      max: int, overlap: int)
    requires CutEach(tok, sections, a, max, overlap) && CutEach(tok, sections, b, max, overlap)
    ensures a == b
  {
    forall k | 0 <= k < |a| ensures a[k] == b[k] {
      CutIsUnique(tok, a[k], b[k], max, overlap);
    }
  }

  /** The sections determine the pieces. */
  lemma ChunkingIsUnique(tok: Tokens, blank: Line -> bool, sections: seq<Section>,
      max: int, overlap: int, p: seq<Piece>, q: seq<Piece>)
    requires IsChunking(tok, blank, sections, max, overlap, p) && IsChunking(tok, blank, sections, max, overlap, q)
    ensures p == q
  {
    var a: seq<seq<Block>>, js: seq<nat> :| CutEach(tok, sections, a, max, overlap)
      && Numbers(blank, Laid(sections, a), js, p);
    var b: seq<seq<Block>>, ks: seq<nat> :| CutEach(tok, sections, b, max, overlap)
      && Numbers(blank, Laid(sections, b), ks, q);
    NumberedArePieces(blank, Laid(sections, a), js, p);
    NumberedArePieces(blank, Laid(sections, b), ks, q);
    CutsAreUnique(tok, sections, a, b, max, overlap);
  }
}
