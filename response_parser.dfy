/**
 * Extraction of fenced UI snippets from an assistant reply.
 *
 * The reply is scanned with the global, case-sensitive expression
 * "```(?:jsx|tsx)\n([\s\S]*?)```": a block opens with three backticks, the
 * tag `jsx` or `tsx` and a newline, and closes at the first three backticks
 * after the opener. Each block found in order becomes a snippet with
 * language `jsx` and the trimmed body; the text is the reply with every
 * block removed, trimmed.
 */
module ResponseParser {
  import opened Wrappers
  import opened Text

  const Fence: string := "```"

  /** Length of an opener: the fence, a three-letter tag and the newline. */
  const OpenerLength: nat := 7

  /** A fence tagged `jsx` or `tsx` and followed directly by a newline starts at `p`. */
  predicate OpensAt(s: string, p: int) {
    OccursAt(s, "```jsx\n", p) || OccursAt(s, "```tsx\n", p)
  }

  /** The expression matches at `p`: an opener, and a closing fence somewhere after it. */
  predicate MatchesAt(s: string, p: int) {
    OpensAt(s, p) && IndexOfFrom(s, Fence, p + OpenerLength).Some?
  }

  /** A recognised block: the opener at `start`, the body up to `close`, the closing fence at `close`. */
  datatype Block = Block(start: nat, close: nat)

  /** `b` is a block of `s` closed lazily, at the first fence after its opener. */
  predicate IsBlock(s: string, b: Block) {
    && OpensAt(s, b.start)
    && b.start + OpenerLength <= b.close
    && OccursAt(s, Fence, b.close)
    && forall q :: b.start + OpenerLength <= q < b.close ==> !OccursAt(s, Fence, q)
  }

  /** Index just past a block's closing fence, where the next search resumes. */
  function End(b: Block): nat {
    b.close + |Fence|
  }

  /**
   * One `exec` with `lastIndex == from`: the block at the leftmost position
   * at or after `from` where the expression matches.
   */
  function NextBlock(s: string, from: nat): (r: Option<Block>)
    decreases |s| - from
    ensures r.Some? ==> from <= r.value.start && IsBlock(s, r.value) && MatchesAt(s, r.value.start)
    ensures r.Some? ==> forall p :: from <= p < r.value.start ==> !MatchesAt(s, p)
    ensures r.None? <==> forall p :: from <= p ==> !MatchesAt(s, p)
  {
    if from + OpenerLength > |s| then None
    else if OpensAt(s, from) then
      match IndexOfFrom(s, Fence, from + OpenerLength)
      case Some(q) =>
        assert MatchesAt(s, from);
        Some(Block(from, q))
      case None =>
        // no fence after this opener, so none after any later one either
        assert forall p :: from <= p ==> !MatchesAt(s, p);
        None
    else NextBlock(s, from + 1)
  }

  /** The blocks successive `exec` calls find from `from` on, in order. */
  function Blocks(s: string, from: nat): seq<Block>
    decreases |s| - from
  {
    match NextBlock(s, from)
    case None => []
    case Some(b) => [b] + Blocks(s, End(b))
  }

  datatype Snippet = Snippet(language: string, code: string)

  /** The text between a block's opener and its closing fence. */
  function Body(s: string, b: Block): string
    requires IsBlock(s, b)
  {
    s[b.start + OpenerLength..b.close]
  }

  /** Every block gives a `jsx` snippet, whatever its tag, with the trimmed body as code. */
  function SnippetOf(s: string, b: Block): Snippet
    requires IsBlock(s, b)
  {
    Snippet("jsx", Trim(Body(s, b)))
  }

  /** The snippets of the blocks from `from` on. */
  function SnippetsFrom(s: string, from: nat): seq<Snippet>
    decreases |s| - from
  {
    match NextBlock(s, from)
    case None => []
    case Some(b) => [SnippetOf(s, b)] + SnippetsFrom(s, End(b))
  }

  /** The snippets of a reply, in order of appearance. */
  function Snippets(s: string): seq<Snippet> {
    SnippetsFrom(s, 0)
  }

  /** `s.replace(pattern, '')` from `from` on: the gaps between the blocks, concatenated. */
  function WithoutBlocks(s: string, from: nat): string
    requires from <= |s|
    decreases |s| - from
  {
    match NextBlock(s, from)
    case None => s[from..]
    case Some(b) => s[from..b.start] + WithoutBlocks(s, End(b))
  }

  /** The text of a reply: the reply without its blocks, trimmed. */
  function TextOf(s: string): string {
    Trim(WithoutBlocks(s, 0))
  }

  /**
   * `parseResponse`: the `exec` loop collects a snippet per block, resuming
   * each search at the end of the previous block; the text is the reply
   * with the blocks removed.
   */
  method ParseResponse(response: string) returns (text: string, snippets: seq<Snippet>)
    ensures snippets == Snippets(response) && text == TextOf(response)
  {
    snippets := [];
    var lastIndex := 0;
    while true
      invariant lastIndex <= |response|
      invariant snippets + SnippetsFrom(response, lastIndex) == Snippets(response)
      decreases |response| - lastIndex
    {
      var found := NextBlock(response, lastIndex);
      if found.None? {
        break;
      }
      var b := found.value;
      SnippetsStep(response, lastIndex, snippets);
      snippets := snippets + [SnippetOf(response, b)];
      lastIndex := End(b);
    }
    text := Trim(WithoutBlocks(response, 0));
  }

  /** One turn of the `exec` loop: the block found contributes the next snippet. */
  lemma SnippetsStep(s: string, from: nat, acc: seq<Snippet>)
    requires NextBlock(s, from).Some?
    ensures var b := NextBlock(s, from).value;
      acc + SnippetsFrom(s, from) == (acc + [SnippetOf(s, b)]) + SnippetsFrom(s, End(b))
  {
    var b := NextBlock(s, from).value;
    var first, rest := SnippetOf(s, b), SnippetsFrom(s, End(b));
    assert SnippetsFrom(s, from) == [first] + rest;
    AppendAssoc(acc, [first], rest);
  }

  lemma AppendAssoc<T>(a: seq<T>, b: seq<T>, c: seq<T>)
    ensures a + (b + c) == (a + b) + c
  {
  }

  // ---------------------------------------------------------------- properties

  /** Total length of the blocks' text, fences included. */
  function Covered(bs: seq<Block>): int {
    if bs == [] then 0 else End(bs[0]) - bs[0].start + Covered(bs[1..])
  }

  /** Removing the blocks shortens the reply by exactly their length. */
  lemma {:induction false} WithoutBlocksLength(s: string, from: nat)
    requires from <= |s|
    decreases |s| - from
    ensures |WithoutBlocks(s, from)| == |s| - from - Covered(Blocks(s, from))
  {
    match NextBlock(s, from)
    case None =>
    case Some(b) =>
      WithoutBlocksLength(s, End(b));
      assert Blocks(s, from) == [b] + Blocks(s, End(b));
      assert Blocks(s, from)[1..] == Blocks(s, End(b));
  }

  /** A reply in which the expression matches nowhere has no snippets and is only trimmed. */
  lemma NoBlockNoSnippets(s: string)
    requires forall p :: 0 <= p ==> !MatchesAt(s, p)
    ensures Snippets(s) == [] && TextOf(s) == Trim(s)
  {
    assert NextBlock(s, 0).None?;
    assert s[0..] == s;
  }

  /** Conversely, any match gives at least one snippet. */
  lemma MatchGivesSnippet(s: string, p: nat)
    requires MatchesAt(s, p)
    ensures |Snippets(s)| >= 1
  {
  }

  /** An opener needs the newline right after its tag. */
  lemma NewlineRequired(s: string, p: nat)
    requires p + OpenerLength <= |s| && s[p + OpenerLength - 1] != '\n'
    ensures !MatchesAt(s, p)
  {
  }

  /** Each block found from `from` on is a lazily closed block starting at or after `from`. */
  lemma {:induction false} BlocksAreBlocks(s: string, from: nat)
    decreases |s| - from
    ensures forall i :: 0 <= i < |Blocks(s, from)| ==>
      from <= Blocks(s, from)[i].start && IsBlock(s, Blocks(s, from)[i]) && End(Blocks(s, from)[i]) <= |s|
  {
    match NextBlock(s, from)
    case None =>
    case Some(b) =>
      var bs := Blocks(s, from);
      var rest := Blocks(s, End(b));
      assert bs == [b] + rest;
      forall i | 0 <= i < |bs|
        ensures from <= bs[i].start && IsBlock(s, bs[i]) && End(bs[i]) <= |s|
      {
        if i > 0 {
          BlocksAreBlocks(s, End(b));
          assert bs[i] == rest[i - 1];
        }
      }
  }

  /** The blocks lie in order of appearance, each after the previous one's closing fence. */
  lemma {:induction false} BlocksInOrder(s: string, from: nat)
    decreases |s| - from
    ensures forall i :: 0 <= i < |Blocks(s, from)| - 1 ==> End(Blocks(s, from)[i]) <= Blocks(s, from)[i + 1].start
  {
    match NextBlock(s, from)
    case None =>
    case Some(b) =>
      var bs := Blocks(s, from);
      var rest := Blocks(s, End(b));
      assert bs == [b] + rest;
      BlocksInOrder(s, End(b));
      if rest != [] {
        BlocksAreBlocks(s, End(b));
        assert End(bs[0]) <= bs[1].start by {
          assert bs[1] == rest[0];
        }
        forall i | 1 <= i < |bs| - 1
          ensures End(bs[i]) <= bs[i + 1].start
        {
          assert bs[i] == rest[i - 1] && bs[i + 1] == rest[i];
        }
      }
  }

  /** There are no blocks exactly when the expression matches nowhere from `from` on. */
  lemma NoBlocksIff(s: string, from: nat)
    ensures Blocks(s, from) == [] <==> forall p :: from <= p ==> !MatchesAt(s, p)
  {
  }

  /** No match is skipped: every position where the expression matches lies within some block. */
  lemma {:induction false} MatchesCovered(s: string, from: nat, p: nat)
    requires from <= p && MatchesAt(s, p)
    decreases |s| - from
    ensures exists i :: 0 <= i < |Blocks(s, from)| && Blocks(s, from)[i].start <= p < End(Blocks(s, from)[i])
  {
    var b := NextBlock(s, from).value;
    var bs := Blocks(s, from);
    assert bs[0] == b;
    if End(b) <= p {
      MatchesCovered(s, End(b), p);
      var i :| 0 <= i < |Blocks(s, End(b))| && Blocks(s, End(b))[i].start <= p < End(Blocks(s, End(b))[i]);
      assert bs[i + 1] == Blocks(s, End(b))[i];
    }
  }

  /** One snippet per block, in the same order. */
  lemma {:induction false} SnippetsOfBlocks(s: string, from: nat)
    decreases |s| - from
    ensures var bs := Blocks(s, from);
      && |SnippetsFrom(s, from)| == |bs|
      && forall i :: 0 <= i < |bs| ==> IsBlock(s, bs[i]) && SnippetsFrom(s, from)[i] == SnippetOf(s, bs[i])
  {
    match NextBlock(s, from)
    case None =>
    case Some(b) =>
      var bs := Blocks(s, from);
      var rest := Blocks(s, End(b));
      var ss := SnippetsFrom(s, from);
      var tail := SnippetsFrom(s, End(b));
      assert bs == [b] + rest;
      assert ss == [SnippetOf(s, b)] + tail;
      BlocksAreBlocks(s, from);
      SnippetsOfBlocks(s, End(b));
      forall i | 0 <= i < |bs|
        ensures ss[i] == SnippetOf(s, bs[i])
      {
        if i > 0 {
          assert bs[i] == rest[i - 1];
          assert ss[i] == tail[i - 1];
        }
      }
  }

  /**
   * The `i`-th snippet comes from the `i`-th block: language `jsx`, code the
   * block's body trimmed, the body free of fences.
   */
  lemma SnippetCode(s: string, i: nat)
    requires i < |Blocks(s, 0)|
    ensures var b := Blocks(s, 0)[i];
      && IsBlock(s, b)
      && i < |Snippets(s)|
      && Snippets(s)[i].language == "jsx"
      && Snippets(s)[i].code == Trim(s[b.start + OpenerLength..b.close])
      && forall q :: b.start + OpenerLength <= q < b.close ==> !OccursAt(s, Fence, q)
  {
    SnippetsOfBlocks(s, 0);
  }

  const Unfenced: string := "```jsx code```"

  /** Past its first character the text has no three backticks before index 11. */
  lemma UnfencedNoLaterOpener(p: nat)
    requires 1 <= p <= 7
    ensures !OpensAt(Unfenced, p)
  {
    assert Unfenced[3..10] == "jsx cod";
    assert Unfenced[p + 2] == Unfenced[3..10][p - 1];
    assert Unfenced[p..p + OpenerLength][2] == Unfenced[p + 2];
  }

  /** A fence with a space instead of a newline after its tag is left in the text. */
  lemma UnfencedIsText()
    ensures Snippets(Unfenced) == [] && TextOf(Unfenced) == Unfenced
  {
    UnfencedNoMatch();
    NoBlockNoSnippets(Unfenced);
    UnfencedTrimmed();
  }

  lemma UnfencedNoMatch()
    ensures forall p :: 0 <= p ==> !MatchesAt(Unfenced, p)
  {
    forall p | 0 <= p
      ensures !MatchesAt(Unfenced, p)
    {
      if p == 0 {
        NewlineRequired(Unfenced, 0);
      } else if p <= 7 {
        UnfencedNoLaterOpener(p);
      }
    }
  }

  lemma UnfencedTrimmed()
    ensures Trim(Unfenced) == Unfenced
  {
    assert TrimStart(Unfenced) == 0;
    assert Unfenced[0..] == Unfenced;
    assert TrimEnd(Unfenced) == |Unfenced|;
  }

  /** No fence starts at a character other than a backtick. */
  lemma NoFenceAt(s: string, q: nat)
    requires q < |s| && s[q] != '`'
    ensures !OccursAt(s, Fence, q)
  {
    if q + |Fence| <= |s| {
      assert s[q..q + |Fence|][0] == s[q];
    }
  }

  const TsxReply: string := "```tsx\n" + "<A/>" + "\n```"

  lemma TsxReplyBlock()
    ensures NextBlock(TsxReply, 0) == Some(Block(0, 12))
  {
    assert OpensAt(TsxReply, 0);
    assert TsxReply[7..12] == "<A/>\n";
    forall q | 7 <= q < 12
      ensures !OccursAt(TsxReply, Fence, q)
    {
      assert TsxReply[q] == TsxReply[7..12][q - 7];
      NoFenceAt(TsxReply, q);
    }
    assert OccursAt(TsxReply, Fence, 12);
    assert IndexOfFrom(TsxReply, Fence, OpenerLength) == Some(12);
  }

  lemma TsxBodyTrimmed()
    ensures Trim("<A/>\n") == "<A/>"
  {
    assert TrimStart("<A/>\n") == 0;
    assert TrimEnd("<A/>\n"[0..]) == 4;
  }

  /** A `tsx` block is reported as a `jsx` snippet with its body trimmed, and nothing else remains. */
  lemma TsxReplyParsed()
    ensures Snippets(TsxReply) == [Snippet("jsx", "<A/>")] && TextOf(TsxReply) == ""
  {
    var b := Block(0, 12);
    TsxReplyBlock();
    assert End(b) == |TsxReply|;
    assert NextBlock(TsxReply, End(b)).None?;
    assert SnippetsFrom(TsxReply, End(b)) == [];
    assert Body(TsxReply, b) == "<A/>\n";
    TsxBodyTrimmed();
    assert WithoutBlocks(TsxReply, 0) == TsxReply[0..0] + WithoutBlocks(TsxReply, End(b));
    assert WithoutBlocks(TsxReply, End(b)) == [];
  }
}
