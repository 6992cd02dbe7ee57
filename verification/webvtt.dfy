/**
 * The caption-track parser (`webvtt_to_json`): a loose subset of the cue
 * syntax of "WebVTT: The Web Video Text Tracks Format" (W3C), section 4.1.
 * The text is stripped, cut into blocks at every CRLF CRLF, the header block
 * is dropped, and each remaining block of at least three CRLF-separated lines
 * becomes one caption: line 0 is the index, line 1 the timing, split at
 * " --> " into exactly two parts, and the remaining lines, joined with single
 * spaces, the text.
 */
module WebVtt {
  import opened Wrappers
  import opened Text
  import Seqs

  const Header: string := "WEBVTT"
  const BlankLine: string := "\r\n\r\n"
  const LineBreak: string := "\r\n"
  const Arrow: string := " --> "

  datatype Caption = Caption(index: string, start: string, end: string, text: string)

  /** The block, stripped and upper-cased, is the header token. */
  predicate IsHeader(block: string)
  {
    Upper(Strip(block)) == Header
  }

  /** What one block contributes: a caption, or nothing. */
  function ParseBlock(block: string): Option<Caption>
  {
    if IsHeader(block) then None
    else
      var lines := Split(block, LineBreak);
      if |lines| < 3 then None
      else
        var parts := Split(lines[1], Arrow);
        if |parts| != 2 then None
        else Some(Caption(lines[0], parts[0], parts[1], Join(lines[2..], " ")))
  }

  function AsSeq(r: Option<Caption>): seq<Caption>
  {
    match r
    case Some(c) => [c]
    case None => []
  }

  /** The captions of a sequence of blocks, at most one per block, in block order. */
  function ParseBlocks(blocks: seq<string>): (captions: seq<Caption>)
    ensures |captions| <= |blocks|
  {
    if blocks == [] then [] else AsSeq(ParseBlock(blocks[0])) + ParseBlocks(blocks[1..])
  }

  /** The whole parser, as a function of the raw caption text. */
  function ParseCaptions(content: string): seq<Caption>
  {
    ParseBlocks(Split(Strip(content), BlankLine))
  }

  /** Parsing distributes over concatenation of block sequences: the order of blocks is kept. */
  lemma {:induction false} ParseBlocksAppend(xs: seq<string>, ys: seq<string>)
    ensures ParseBlocks(xs + ys) == ParseBlocks(xs) + ParseBlocks(ys)
  {
    if xs == [] {
      assert xs + ys == ys;
    } else {
      assert (xs + ys)[1..] == xs[1..] + ys;
      ParseBlocksAppend(xs[1..], ys);
    }
  }

  /** One more block adds what that block parses to. */
  lemma ParseBlocksStep(blocks: seq<string>, i: nat)
    requires i < |blocks|
    ensures ParseBlocks(blocks[..i + 1]) == ParseBlocks(blocks[..i]) + AsSeq(ParseBlock(blocks[i]))
  {
    assert blocks[..i + 1] == blocks[..i] + [blocks[i]];
    ParseBlocksAppend(blocks[..i], [blocks[i]]);
    assert [blocks[i]][1..] == [];
  }

  predicate Yields(r: Option<Caption>)
  {
    r.Some?
  }

  /**
   * The parser's output is a selection of the blocks in order: read off the
   * outcomes of the blocks, it is exactly the outcomes that yield a caption,
   * one per such block, in block order.
   */
  lemma ParseBlocksSelects(blocks: seq<string>)
    ensures exists chosen: seq<Option<Caption>> ::
      && Seqs.Selects(Seqs.Map(ParseBlock, blocks), Yields, chosen)
      && |chosen| == |ParseBlocks(blocks)|
      && forall k :: 0 <= k < |chosen| ==> chosen[k] == Some(ParseBlocks(blocks)[k])
  {
    Seqs.FilterSelects(Seqs.Map(ParseBlock, blocks), Yields);
    ChosenAreCaptions(blocks);
  }

  lemma {:induction false} ChosenAreCaptions(blocks: seq<string>)
    ensures var chosen := Seqs.Filter(Seqs.Map(ParseBlock, blocks), Yields);
      |chosen| == |ParseBlocks(blocks)| && forall k :: 0 <= k < |chosen| ==> chosen[k] == Some(ParseBlocks(blocks)[k])
  {
    if blocks != [] {
      ChosenAreCaptions(blocks[1..]);
      var outcomes := Seqs.Map(ParseBlock, blocks);
      assert outcomes[0] == ParseBlock(blocks[0]);
      assert outcomes[1..] == Seqs.Map(ParseBlock, blocks[1..]);
    }
  }

  /** The parser as the source runs it: one pass over the blocks, appending. */
  method WebVttToJson(content: string) returns (captions: seq<Caption>)
    ensures captions == ParseCaptions(content)
  {
    var blocks := Split(Strip(content), BlankLine);
    captions := [];
    for i := 0 to |blocks|
      invariant captions == ParseBlocks(blocks[..i])
    {
      var caption := blocks[i];
      ParseBlocksStep(blocks, i);
      if IsHeader(caption) {
        assert ParseBlock(caption) == None;
        continue;
      }
      var lines := Split(caption, LineBreak);
      if |lines| >= 3 {
        var index := lines[0];
        var timing := lines[1];
        var text := Join(lines[2..], " ");
        var parts := Split(timing, Arrow);
        if |parts| != 2 {
          assert ParseBlock(caption) == None;
          continue;
        }
        assert ParseBlock(caption) == Some(Caption(index, parts[0], parts[1], text));
        captions := captions + [Caption(index, parts[0], parts[1], text)];
      } else {
        assert ParseBlock(caption) == None;
      }
    }
    assert blocks[..|blocks|] == blocks;
  }

  // ----- Blocks that parse -----

  lemma HeaderHasNoArrowHead(x: string)
    requires Upper(x) == Header
    ensures '>' !in x
  {
    if '>' in x {
      var i :| 0 <= i < |x| && x[i] == '>';
      UpperAt(x, i);
      assert false;
    }
  }

  /** A block with a '>' in it is never taken for the header. */
  lemma NotHeader(block: string)
    requires '>' in block
    ensures !IsHeader(block)
  {
    StripKeeps(block, '>');
    if IsHeader(block) {
      HeaderHasNoArrowHead(Strip(block));
    }
  }

  /** Cutting after a line without CRLF. */
  lemma SplitAfterLine(x: string, t: string)
    requires !Contains(x, LineBreak)
    ensures Split(x + LineBreak + t, LineBreak) == [x] + Split(t, LineBreak)
  {
    var s := x + LineBreak + t;
    forall p | 0 <= p < |x| ensures !MatchAt(s, LineBreak, p) {
      if p + 2 <= |x| {
        assert s[p..p + 2] == x[p..p + 2];
        assert !MatchAt(x, LineBreak, p);
      } else {
        assert s[p + 1] == '\r';
        assert s[p..p + 2][1] != LineBreak[1];
      }
    }
    assert s[|x|..|x| + 2] == LineBreak;
    SplitAt(s, |x|, LineBreak);
    assert s[..|x|] == x;
    assert s[|x| + 2..] == t;
  }

  /** Lines without CRLF, joined with CRLF, split back into the same lines. */
  lemma {:induction false} SplitJoinedLines(lines: seq<string>)
    requires |lines| >= 1
    requires forall i :: 0 <= i < |lines| ==> !Contains(lines[i], LineBreak)
    ensures Split(Join(lines, LineBreak), LineBreak) == lines
  {
    if |lines| == 1 {
      SplitWithoutSeparator(lines[0], LineBreak);
    } else {
      SplitJoinedLines(lines[1..]);
      SplitAfterLine(lines[0], Join(lines[1..], LineBreak));
      assert [lines[0]] + lines[1..] == lines;
    }
  }

  /** The lines of a block put together with CRLF are the lines the parser sees. */
  lemma BlockLines(idx: string, timing: string, texts: seq<string>)
    requires !Contains(idx, LineBreak) && !Contains(timing, LineBreak)
    requires |texts| >= 1 && forall i :: 0 <= i < |texts| ==> !Contains(texts[i], LineBreak)
    ensures Split(idx + LineBreak + timing + LineBreak + Join(texts, LineBreak), LineBreak) == [idx, timing] + texts
  {
    var lines := [idx, timing] + texts;
    assert lines[2..] == texts;
    assert lines[1..] == [timing] + texts;
    assert Join(lines, LineBreak) == idx + LineBreak + timing + LineBreak + Join(texts, LineBreak);
    forall i | 0 <= i < |lines| ensures !Contains(lines[i], LineBreak) {
      if i >= 2 { assert lines[i] == texts[i - 2]; }
    }
    SplitJoinedLines(lines);
  }

  /**
   * A block `idx CRLF timing CRLF t1 CRLF ... CRLF tn` (n >= 1, no line holding
   * CRLF) whose timing line splits into exactly two parts yields exactly one
   * caption: its index is `idx`, its start and end put back around " --> " give
   * the timing line, cut at its first " --> ", neither contains " --> ", and its
   * text is t1 ... tn joined with single spaces.
   */
  lemma BlockYieldsOneCaption(idx: string, timing: string, texts: seq<string>)
    requires !Contains(idx, LineBreak) && !Contains(timing, LineBreak)
    requires |texts| >= 1 && forall i :: 0 <= i < |texts| ==> !Contains(texts[i], LineBreak)
    requires |Split(timing, Arrow)| == 2
    ensures var r := ParseBlock(idx + LineBreak + timing + LineBreak + Join(texts, LineBreak));
      && r.Some?
      && r.value.index == idx
      && r.value.start + Arrow + r.value.end == timing
      && ArrowFirst(r.value.start, r.value.end)
      && !Contains(r.value.start, Arrow) && !Contains(r.value.end, Arrow)
      && r.value.text == Join(texts, " ")
  {
    var block := idx + LineBreak + timing + LineBreak + Join(texts, LineBreak);
    BlockLines(idx, timing, texts);
    assert ([idx, timing] + texts)[2..] == texts;
    var parts := Split(timing, Arrow);
    TimingOfParts(timing);
    assert timing == parts[0] + Arrow + parts[1];
    assert timing[|parts[0]| + 3] == '>';
    assert block[|idx| + 2 + |parts[0]| + 3] == '>';
    NotHeader(block);
  }

  /**
   * `block` is the caption's index, CRLF, its start, " --> ", its end, CRLF,
   * and one or more text lines, none holding CRLF, joined with CRLF, which
   * joined with single spaces instead give the caption's text.
   */
  ghost predicate LaidOut(block: string, c: Caption)
  {
    exists texts: seq<string> ::
      && |texts| >= 1 && (forall i :: 0 <= i < |texts| ==> !Contains(texts[i], LineBreak))
      && block == c.index + LineBreak + c.start + Arrow + c.end + LineBreak + Join(texts, LineBreak)
      && c.text == Join(texts, " ")
  }

  /** In `start + " --> " + end`, no " --> " begins before the one after `start`. */
  predicate ArrowFirst(start: string, end: string)
  {
    forall p :: 0 <= p < |start| ==> !MatchAt(start + Arrow + end, Arrow, p)
  }

  /**
   * The converse: every caption the parser yields comes from a block laid
   * out from it, with an index and a timing line free of CRLF, the timing
   * line cut at its first " --> ", and no " --> " in start or end.
   */
  lemma ParsedBlockShape(block: string)
    requires ParseBlock(block).Some?
    ensures var c := ParseBlock(block).value;
      && !IsHeader(block)
      && !Contains(c.index, LineBreak) && !Contains(c.start + Arrow + c.end, LineBreak)
      && ArrowFirst(c.start, c.end)
      && !Contains(c.start, Arrow) && !Contains(c.end, Arrow)
      && LaidOut(block, c)
  {
    var c := ParseBlock(block).value;
    var lines := Split(block, LineBreak);
    var parts := Split(lines[1], Arrow);
    assert c == Caption(lines[0], parts[0], parts[1], Join(lines[2..], " "));
    BlockOfLines(block);
    TimingOfParts(lines[1]);
    LinesAreFree(block);
    LaidOutIntro(block, c, lines[2..]);
  }

  /** No line of a block holds CRLF. */
  lemma LinesAreFree(block: string)
    requires |Split(block, LineBreak)| >= 3
    ensures var lines := Split(block, LineBreak);
      && !Contains(lines[0], LineBreak) && !Contains(lines[1], LineBreak)
      && forall i :: 0 <= i < |lines[2..]| ==> !Contains(lines[2..][i], LineBreak)
  {
    var lines := Split(block, LineBreak);
    SplitPiecesAreFree(block, LineBreak);
    assert forall i :: 0 <= i < |lines[2..]| ==> lines[2..][i] == lines[i + 2];
  }

  lemma LaidOutIntro(block: string, c: Caption, texts: seq<string>)
    requires |texts| >= 1 && forall i :: 0 <= i < |texts| ==> !Contains(texts[i], LineBreak)
    requires block == c.index + LineBreak + c.start + Arrow + c.end + LineBreak + Join(texts, LineBreak)
    requires c.text == Join(texts, " ")
    ensures LaidOut(block, c)
  {
  }

  /** A block of at least three lines is its first two lines, each ended by CRLF, and the rest joined with CRLF. */
  lemma BlockOfLines(block: string)
    requires |Split(block, LineBreak)| >= 3
    ensures var lines := Split(block, LineBreak);
      block == lines[0] + LineBreak + lines[1] + LineBreak + Join(lines[2..], LineBreak)
  {
    SplitJoin(block, LineBreak);
    JoinThreeOrMore(Split(block, LineBreak), LineBreak);
  }

  /**
   * A timing line that splits into two parts is those parts around its first
   * " --> ", and neither holds " --> ".
   */
  lemma TimingOfParts(timing: string)
    requires |Split(timing, Arrow)| == 2
    ensures var parts := Split(timing, Arrow);
      && timing == parts[0] + Arrow + parts[1]
      && ArrowFirst(parts[0], parts[1])
      && !Contains(parts[0], Arrow) && !Contains(parts[1], Arrow)
  {
    SplitJoin(timing, Arrow);
    SplitPiecesAreFree(timing, Arrow);
    JoinTwo(Split(timing, Arrow), Arrow);
    SplitHeadEndsAtFirstMatch(timing, Arrow);
  }

  /** Conversely, a line cut at its first " --> ", with none after it, splits into exactly the two sides. */
  lemma TimingInTwo(start: string, end: string)
    requires ArrowFirst(start, end) && !Contains(end, Arrow)
    ensures Split(start + Arrow + end, Arrow) == [start, end]
  {
    var s := start + Arrow + end;
    assert s[|start|..|start| + 5] == Arrow;
    SplitAt(s, |start|, Arrow);
    assert s[..|start|] == start;
    assert s[|start| + 5..] == end;
    SplitWithoutSeparator(end, Arrow);
  }

  /**
   * Exactly the blocks laid out as `index CRLF start " --> " end CRLF` text
   * lines, with no CRLF inside a line, the timing line cut at its first
   * " --> " and none in `end`, parse to a caption, and to that one. Every
   * other block (the header, fewer than three lines, a timing line that does
   * not split into exactly two parts) contributes nothing.
   */
  ghost predicate Shaped(block: string, c: Caption)
  {
    && !Contains(c.index, LineBreak) && !Contains(c.start + Arrow + c.end, LineBreak)
    && ArrowFirst(c.start, c.end) && !Contains(c.end, Arrow)
    && LaidOut(block, c)
  }

  lemma ParseBlockExactly(block: string, c: Caption)
    ensures ParseBlock(block) == Some(c) <==> Shaped(block, c)
  {
    if ParseBlock(block) == Some(c) {
      ParsedBlockShape(block);
    }
    if Shaped(block, c) {
      var texts :| && |texts| >= 1 && (forall i :: 0 <= i < |texts| ==> !Contains(texts[i], LineBreak))
                   && block == c.index + LineBreak + c.start + Arrow + c.end + LineBreak + Join(texts, LineBreak)
                   && c.text == Join(texts, " ");
      ShapedBlockParses(block, c, texts);
    }
  }

  lemma ShapedBlockParses(block: string, c: Caption, texts: seq<string>)
    requires !Contains(c.index, LineBreak) && !Contains(c.start + Arrow + c.end, LineBreak)
    requires ArrowFirst(c.start, c.end) && !Contains(c.end, Arrow)
    requires |texts| >= 1 && forall i :: 0 <= i < |texts| ==> !Contains(texts[i], LineBreak)
    requires block == c.index + LineBreak + c.start + Arrow + c.end + LineBreak + Join(texts, LineBreak)
    requires c.text == Join(texts, " ")
    ensures ParseBlock(block) == Some(c)
  {
    TimingInTwo(c.start, c.end);
    PartsParse(c.index, c.start, c.end, texts);
  }

  /** A block whose timing line splits into `start` and `end` parses to the caption of its parts. */
  lemma PartsParse(idx: string, start: string, end: string, texts: seq<string>)
    requires !Contains(idx, LineBreak) && !Contains(start + Arrow + end, LineBreak)
    requires |texts| >= 1 && forall i :: 0 <= i < |texts| ==> !Contains(texts[i], LineBreak)
    requires Split(start + Arrow + end, Arrow) == [start, end]
    ensures ParseBlock(idx + LineBreak + start + Arrow + end + LineBreak + Join(texts, LineBreak))
      == Some(Caption(idx, start, end, Join(texts, " ")))
  {
    var timing := start + Arrow + end;
    var block := idx + LineBreak + timing + LineBreak + Join(texts, LineBreak);
    assert block == idx + LineBreak + start + Arrow + end + LineBreak + Join(texts, LineBreak);
    BlockLines(idx, timing, texts);
    assert ([idx, timing] + texts)[2..] == texts;
    assert block[|idx| + 2 + |start| + 3] == '>';
    NotHeader(block);
  }

  /** Two pieces joined: the first, the separator, the second. */
  lemma JoinTwo(pieces: seq<string>, sep: string)
    requires |pieces| == 2
    ensures Join(pieces, sep) == pieces[0] + sep + pieces[1]
  {
    assert pieces[1..][1..] == [];
  }

  /** At least three pieces joined: the first two, each followed by the separator, then the rest joined. */
  lemma JoinThreeOrMore(pieces: seq<string>, sep: string)
    requires |pieces| >= 3
    ensures Join(pieces, sep) == pieces[0] + sep + pieces[1] + sep + Join(pieces[2..], sep)
  {
    assert pieces[1..][1..] == pieces[2..];
  }

  // ----- Rendering captions back to text, and the round trip -----

  /**
   * A caption that renders to text the parser reads back unchanged: no field
   * holds a carriage return, the timestamps hold no '>', and the text ends with
   * a character that is not whitespace.
   */
  predicate Canonical(c: Caption)
  {
    && '\r' !in c.index && '\r' !in c.start && '\r' !in c.end && '\r' !in c.text
    && '>' !in c.start && '>' !in c.end
    && c.text != [] && !IsSpace(c.text[|c.text| - 1])
  }

  function Block(c: Caption): string
  {
    c.index + LineBreak + c.start + Arrow + c.end + LineBreak + c.text
  }

  function Blocks(cs: seq<Caption>): (bs: seq<string>)
    ensures |bs| == |cs|
  {
    if cs == [] then [] else [Block(cs[0])] + Blocks(cs[1..])
  }

  function Cues(cs: seq<Caption>): string
  {
    if cs == [] then [] else BlankLine + Block(cs[0]) + Cues(cs[1..])
  }

  /** A caption track: the header followed by one block per caption, blank-line separated. */
  function Serialize(cs: seq<Caption>): string
  {
    Header + Cues(cs)
  }

  lemma NoCarriageReturnNoBreak(x: string)
    requires '\r' !in x
    ensures !Contains(x, LineBreak)
  {
    forall p | 0 <= p <= |x| - 2 ensures !MatchAt(x, LineBreak, p) {
      assert x[p..p + 2][0] == x[p];
    }
  }

  /** The timing line of a canonical caption splits at its own arrow and nowhere else. */
  lemma TimingSplits(start: string, end: string)
    requires '>' !in start && '>' !in end
    ensures Split(start + Arrow + end, Arrow) == [start, end]
  {
    var s := start + Arrow + end;
    forall p | 0 <= p < |start| ensures !MatchAt(s, Arrow, p) {
      if p + 3 < |start| {
        assert s[p + 3] == start[p + 3];
      } else {
        assert s[p + 3] == Arrow[p + 3 - |start|];
      }
      if MatchAt(s, Arrow, p) {
        ArrowHead(s, p);
      }
    }
    assert s[|start|..|start| + 5] == Arrow;
    SplitAt(s, |start|, Arrow);
    assert s[..|start|] == start;
    assert s[|start| + 5..] == end;
    forall p | 0 <= p <= |end| - 5 ensures !MatchAt(end, Arrow, p) {
      if MatchAt(end, Arrow, p) {
        ArrowHead(end, p);
      }
    }
    SplitWithoutSeparator(end, Arrow);
  }

  /** Wherever " --> " occurs, its fourth character is '>'. */
  lemma ArrowHead(s: string, p: int)
    requires MatchAt(s, Arrow, p)
    ensures 0 <= p + 3 < |s| && s[p + 3] == '>'
  {
    assert s[p..p + 5][3] == s[p + 3];
  }

  /** A canonical caption's block parses back to that caption. */
  lemma BlockParses(c: Caption)
    requires Canonical(c)
    ensures ParseBlock(Block(c)) == Some(c)
  {
    var timing := c.start + Arrow + c.end;
    TimingSplits(c.start, c.end);
    NoCarriageReturnNoBreak(c.index);
    NoCarriageReturnNoBreak(c.text);
    assert '\r' !in timing;
    NoCarriageReturnNoBreak(timing);
    assert Join([c.text], LineBreak) == c.text;
    assert Block(c) == c.index + LineBreak + timing + LineBreak + Join([c.text], LineBreak);
    BlockLines(c.index, timing, [c.text]);
    assert Split(Block(c), LineBreak) == [c.index, timing, c.text];
    assert Block(c)[|c.index| + 2 + |c.start| + 3] == '>';
    NotHeader(Block(c));
    assert [c.index, timing, c.text][2..] == [c.text];
    assert Join([c.text], " ") == c.text;
  }

  lemma BlankLineStartsWithCarriageReturns(s: string, p: int)
    requires MatchAt(s, BlankLine, p)
    ensures s[p] == '\r' && s[p + 2] == '\r'
  {
    assert s[p..p + 4][0] == s[p] && s[p..p + 4][2] == s[p + 2];
  }

  /** No blank line starts inside a canonical caption's block, whatever follows it. */
  lemma NoBlankLineInBlock(c: Caption, t: string)
    requires Canonical(c)
    ensures forall p :: 0 <= p < |Block(c)| ==> !MatchAt(Block(c) + t, BlankLine, p)
  {
    var s := Block(c) + t;
    var a := |c.index|;
    var b := a + 2 + |c.start| + 5 + |c.end|;
    assert s == c.index + LineBreak + (c.start + Arrow + c.end) + LineBreak + c.text + t;
    forall p | 0 <= p < |Block(c)| ensures !MatchAt(s, BlankLine, p) {
      if p < a {
        assert s[p] == c.index[p];
      } else if p == a {
        if c.start != [] { assert s[p + 2] == c.start[0]; } else { assert s[p + 2] == ' '; }
      } else if p == a + 1 {
        assert s[p] == '\n';
      } else if p < a + 2 + |c.start| {
        assert s[p] == c.start[p - a - 2];
      } else if p < a + 2 + |c.start| + 5 {
        assert s[p] == Arrow[p - a - 2 - |c.start|];
      } else if p < b {
        assert s[p] == c.end[p - a - 7 - |c.start|];
      } else if p == b {
        assert s[p + 2] == c.text[0];
      } else if p == b + 1 {
        assert s[p] == '\n';
      } else {
        assert s[p] == c.text[p - b - 2];
      }
      if MatchAt(s, BlankLine, p) {
        BlankLineStartsWithCarriageReturns(s, p);
      }
    }
  }

  lemma {:induction false} CuesSplit(cs: seq<Caption>)
    requires forall i :: 0 <= i < |cs| ==> Canonical(cs[i])
    ensures Split(Cues(cs), BlankLine) == [[]] + Blocks(cs)
  {
    if cs == [] {
      assert Split([], BlankLine) == [[]];
    } else {
      var c := cs[0];
      var rest := Cues(cs[1..]);
      CuesSplit(cs[1..]);
      var s := BlankLine + (Block(c) + rest);
      assert Cues(cs) == s;
      assert MatchAt(s, BlankLine, 0);
      SplitAt(s, 0, BlankLine);
      assert s[4..] == Block(c) + rest;
      NoBlankLineInBlock(c, rest);
      SplitSkip(Block(c) + rest, |Block(c)|, BlankLine);
      assert (Block(c) + rest)[..|Block(c)|] == Block(c);
      assert (Block(c) + rest)[|Block(c)|..] == rest;
      assert Block(c) + [] == Block(c);
    }
  }

  /** The cue text of canonical captions does not end in whitespace. */
  lemma {:induction false} CuesEnd(cs: seq<Caption>)
    requires forall i :: 0 <= i < |cs| ==> Canonical(cs[i])
    ensures var s := Cues(cs); s == [] || !IsSpace(s[|s| - 1])
  {
    if cs != [] {
      CuesEnd(cs[1..]);
    }
  }

  lemma {:induction false} BlocksParse(cs: seq<Caption>)
    requires forall i :: 0 <= i < |cs| ==> Canonical(cs[i])
    ensures ParseBlocks(Blocks(cs)) == cs
  {
    if cs != [] {
      BlockParses(cs[0]);
      BlocksParse(cs[1..]);
      assert Blocks(cs)[1..] == Blocks(cs[1..]);
    }
  }

  lemma HeaderIsStripped()
    ensures Strip(Header) == Header
  {
    assert Header[0] == 'W' && Header[5] == 'T';
    StripTrimmed(Header);
  }

  lemma HeaderIsUpper()
    ensures Upper(Header) == Header
  {
    var u := Upper(Header);
    assert u[0] == 'W' && u[1] == 'E' && u[2] == 'B' && u[3] == 'V' && u[4] == 'T' && u[5] == 'T';
  }

  lemma HeaderIsHeader()
    ensures IsHeader(Header)
  {
    HeaderIsStripped();
    HeaderIsUpper();
  }

  /** No blank line starts inside a text without carriage returns, whatever follows it. */
  lemma NoBlankLineWithoutCarriageReturn(x: string, t: string)
    requires '\r' !in x
    ensures forall p :: 0 <= p < |x| ==> !MatchAt(x + t, BlankLine, p)
  {
    forall p | 0 <= p < |x| ensures !MatchAt(x + t, BlankLine, p) {
      assert (x + t)[p] == x[p];
      if MatchAt(x + t, BlankLine, p) {
        BlankLineStartsWithCarriageReturns(x + t, p);
      }
    }
  }

  lemma HeaderHasNoCarriageReturn()
    ensures '\r' !in Header
  {
    assert Header == ['W', 'E', 'B', 'V', 'T', 'T'];
  }

  /**
   * A head line a track may start with: the header token in any letter case,
   * with no carriage return and no whitespace at either end.
   */
  predicate GoodHead(h: string)
  {
    && IsHeader(h) && '\r' !in h
    && h != [] && !IsSpace(h[0]) && !IsSpace(h[|h| - 1])
  }

  lemma HeaderIsGoodHead()
    ensures GoodHead(Header)
  {
    HeaderIsHeader();
    HeaderHasNoCarriageReturn();
    assert Header[0] == 'W' && Header[5] == 'T';
  }

  /** A head free of carriage returns in front of text that splits as [[]] + bs becomes the first piece. */
  lemma SplitAfterHead(h: string, rest: string, bs: seq<string>)
    requires '\r' !in h
    requires Split(rest, BlankLine) == [[]] + bs
    ensures Split(h + rest, BlankLine) == [h] + bs
  {
    var s := h + rest;
    var tail := Split(rest, BlankLine);
    NoBlankLineWithoutCarriageReturn(h, rest);
    SplitSkip(s, |h|, BlankLine);
    assert s[..|h|] == h && s[|h|..] == rest;
    assert tail[0] == [] && tail[1..] == bs;
    assert h + [] == h;
  }

  /** A track has no whitespace to strip at either end. */
  lemma TrackIsTrimmed(h: string, rest: string)
    requires h != [] && !IsSpace(h[0]) && !IsSpace(h[|h| - 1])
    requires rest == [] || !IsSpace(rest[|rest| - 1])
    ensures Strip(h + rest) == h + rest
  {
    var s := h + rest;
    if rest != [] {
      assert s[|s| - 1] == rest[|rest| - 1];
    } else {
      assert s == h;
    }
    assert s[0] == h[0];
    StripTrimmed(s);
  }

  lemma TrackParses(s: string, h: string, bs: seq<string>, cs: seq<Caption>)
    requires IsHeader(h)
    requires Strip(s) == s
    requires Split(s, BlankLine) == [h] + bs
    requires ParseBlocks(bs) == cs
    ensures ParseCaptions(s) == cs
  {
    var blocks := [h] + bs;
    assert blocks[0] == h && blocks[1..] == bs;
    assert ParseBlock(h) == None;
  }

  /**
   * Text that may follow the head line of a track: nothing to strip at its
   * end, and cut at blank lines into an empty piece and then blocks that
   * parse to `cs`.
   */
  ghost predicate CueText(rest: string, cs: seq<Caption>)
  {
    && (rest == [] || !IsSpace(rest[|rest| - 1]))
    && CutsInto(rest, cs)
  }

  /** Cut at blank lines, the text is an empty piece and then blocks that parse to `cs`. */
  ghost predicate CutsInto(rest: string, cs: seq<Caption>)
  {
    exists bs :: Split(rest, BlankLine) == [[]] + bs && ParseBlocks(bs) == cs
  }

  /** A good head line followed by cue text parses to the captions of that text. */
  lemma HeadAndRestParse(h: string, rest: string, cs: seq<Caption>)
    requires GoodHead(h)
    requires CueText(rest, cs)
    ensures ParseCaptions(h + rest) == cs
  {
    var bs :| Split(rest, BlankLine) == [[]] + bs && ParseBlocks(bs) == cs;
    HeadAndBlocksParse(h, rest, bs, cs);
  }

  lemma HeadAndBlocksParse(h: string, rest: string, bs: seq<string>, cs: seq<Caption>)
    requires GoodHead(h)
    requires rest == [] || !IsSpace(rest[|rest| - 1])
    requires Split(rest, BlankLine) == [[]] + bs
    requires ParseBlocks(bs) == cs
    ensures ParseCaptions(h + rest) == cs
  {
    TrackShape(h, rest, bs);
    TrackParses(h + rest, h, bs, cs);
  }

  /** A good head line in front of cue text: nothing to strip, and cut into the head and the blocks. */
  lemma TrackShape(h: string, rest: string, bs: seq<string>)
    requires GoodHead(h)
    requires rest == [] || !IsSpace(rest[|rest| - 1])
    requires Split(rest, BlankLine) == [[]] + bs
    ensures Strip(h + rest) == h + rest
    ensures Split(h + rest, BlankLine) == [h] + bs
  {
    TrackIsTrimmed(h, rest);
    SplitAfterHead(h, rest, bs);
  }

  /** A track built from a good head line and canonical captions parses back to those captions. */
  lemma TrackRoundTrip(h: string, cs: seq<Caption>)
    requires GoodHead(h)
    requires forall i :: 0 <= i < |cs| ==> Canonical(cs[i])
    ensures ParseCaptions(h + Cues(cs)) == cs
  {
    CuesFacts(cs);
    HeadAndRestParse(h, Cues(cs), cs);
  }

  /** The cue text of canonical captions is trimmed at its end and cut into blocks that parse back to them. */
  lemma CuesFacts(cs: seq<Caption>)
    requires forall i :: 0 <= i < |cs| ==> Canonical(cs[i])
    ensures CueText(Cues(cs), cs)
  {
    CuesEnd(cs);
    CuesCut(cs);
  }

  /** The cue text of canonical captions is cut into blocks that parse back to them. */
  lemma CuesCut(cs: seq<Caption>)
    requires forall i :: 0 <= i < |cs| ==> Canonical(cs[i])
    ensures CutsInto(Cues(cs), cs)
  {
    CuesSplit(cs);
    BlocksParse(cs);
  }

  /**
   * Parsing is the inverse of rendering: a caption track written out from
   * canonical captions parses back to exactly those captions, one per block,
   * in order, each timing line cut at its own " --> ".
   */
  lemma SerializeRoundTrip(cs: seq<Caption>)
    requires forall i :: 0 <= i < |cs| ==> Canonical(cs[i])
    ensures ParseCaptions(Serialize(cs)) == cs
  {
    HeaderIsGoodHead();
    TrackRoundTrip(Header, cs);
  }
}
