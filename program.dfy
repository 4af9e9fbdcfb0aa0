/**
 * `Program::recast`: the fold that lays out the body items one after another, and what
 * the printed program looks like as a whole: its trimming and final newline, the
 * shebang in front, and how items are separated when no trivia intervenes.
 */
module Programs {
  import opened Text
  import opened Ast
  import opened Format
  import opened Recast
  import opened Trivia

  /** The printed body items, without their start and end strings. */
  function ItemTexts(p: Program, o: FormatOptions, level: nat): seq<string>
    requires WFProgram(p)
  {
    seq(|p.body|, i requires 0 <= i < |p.body| => BodyItemText(p.body[i], o, level))
  }

  /** A program with neither leading trivia nor trivia between or after its items. */
  predicate NoTrivia(p: Program)
  {
    p.meta.nonCodeNodes == [] && p.meta.startNodes == []
  }

  /** `Program::recast`: the fold over the body items, then the trim and the final newline. */
  method RecastProgramFold(p: Program, o: FormatOptions, level: nat) returns (r: string)
    requires WFProgram(p)
    ensures r == RecastProgram(p, o, level)
  {
    var output := AssembleProgram(p, o, level);
    var result := Trim(output);
    if o.insertFinalNewline && result != [] {
      r := result + "\n";
    } else {
      r := result;
    }
  }

  /** The fold of `Program::recast`, one step per body item, starting from the shebang. */
  method AssembleProgram(p: Program, o: FormatOptions, level: nat) returns (output: string)
    requires WFProgram(p)
    ensures output == AssembledProgram(p, o, level)
  {
    output := ShebangText(p);
    var index := 0;
    while index < |p.body|
      invariant index <= |p.body|
      invariant output == ShebangText(p) + BodyChunks(p, o, level, index)
    {
      ChunkAppended(p, o, level, index);
      output := AppendChunk(p, o, level, index, output);
      index := index + 1;
    }
  }

  /** One step of the fold: the start string, the item and the end string of item `index`. */
  method AppendChunk(p: Program, o: FormatOptions, level: nat, index: nat, output: string) returns (r: string)
    requires WFProgram(p) && index < |p.body|
    ensures r == output + ProgramChunk(p, o, level, index)
  {
    var startString := StartString(p, o, level, index);
    var itemText := BodyItemText(p.body[index], o, level);
    // the item's trivia, or else its line break
    var endString := EndString(p, o, level, index);
    r := output + (startString + itemText + endString);
  }

  /** One step of the fold: the chunk of item `n` follows what the first `n` items printed. */
  lemma ChunkAppended(p: Program, o: FormatOptions, level: nat, n: nat)
    requires WFProgram(p) && n < |p.body|
    ensures ShebangText(p) + BodyChunks(p, o, level, n + 1) ==
      ShebangText(p) + BodyChunks(p, o, level, n) + ProgramChunk(p, o, level, n)
  {
    var chunk := ProgramChunk(p, o, level, n);
    assert BodyChunks(p, o, level, n + 1) == BodyChunks(p, o, level, n) + chunk;
    AppendAssoc(ShebangText(p), BodyChunks(p, o, level, n), chunk);
  }

  /**
   * The printed program is empty exactly when everything assembled is whitespace; it has
   * no whitespace at either end, except for the one final newline that is added when the
   * options ask for it and the result is not empty.
   */
  lemma FinalNewline(p: Program, o: FormatOptions, level: nat)
    requires WFProgram(p)
    ensures var r := RecastProgram(p, o, level);
      (r == [] <==> AllWhitespace(AssembledProgram(p, o, level))) &&
      (EndsWith(r, "\n") <==> o.insertFinalNewline && r != []) &&
      (o.insertFinalNewline && r != [] ==> r[..|r| - 1] != [] && NoEdgeWhitespace(r[..|r| - 1])) &&
      (!o.insertFinalNewline ==> NoEdgeWhitespace(r))
  {
    FinishProperties(AssembledProgram(p, o, level), o);
  }

  lemma FinishProperties(s: string, o: FormatOptions)
    ensures var r := FinishProgram(s, o);
      (r == [] <==> AllWhitespace(s)) &&
      (EndsWith(r, "\n") <==> o.insertFinalNewline && r != []) &&
      (o.insertFinalNewline && r != [] ==> r[..|r| - 1] != [] && NoEdgeWhitespace(r[..|r| - 1])) &&
      (!o.insertFinalNewline ==> NoEdgeWhitespace(r))
  {
    var t := Trim(s);
    TrimProperties(s);
    var r := FinishProgram(s, o);
    if o.insertFinalNewline && t != [] {
      assert r == t + "\n";
      assert r[..|r| - 1] == t;
      assert r[|r| - 1..] == "\n";
    } else {
      assert r == t;
    }
  }

  /** A program without body items prints as its trimmed shebang line alone, or as nothing. */
  lemma EmptyBody(p: Program, o: FormatOptions, level: nat)
    requires WFProgram(p) && p.body == []
    ensures RecastProgram(p, o, level) ==
      match p.shebang
      case None => ""
      case Some(c) => if o.insertFinalNewline && Trim(c) != [] then Trim(c) + "\n" else Trim(c)
  {
    assert AssembledProgram(p, o, level) == ShebangText(p);
    match p.shebang
    case None =>
    case Some(c) =>
      assert AllWhitespace("\n\n");
      TrimAppendWhitespace(c, "\n\n");
  }

  /**
   * A shebang line that does not begin or end with whitespace opens the printed program,
   * and is followed by a blank line whenever the body prints anything.
   */
  lemma ShebangFirst(p: Program, o: FormatOptions, level: nat)
    requires WFProgram(p) && p.shebang.Some? && p.shebang.value != [] && NoEdgeWhitespace(p.shebang.value)
    ensures StartsWith(RecastProgram(p, o, level), p.shebang.value)
    ensures !AllWhitespace(BodyChunks(p, o, level, |p.body|)) ==>
      StartsWith(RecastProgram(p, o, level), p.shebang.value + "\n\n")
  {
    ShebangPrefix(p.shebang.value, BodyChunks(p, o, level, |p.body|), o);
  }

  /** `ShebangFirst` on the assembled text alone. */
  lemma ShebangPrefix(c: string, rest: string, o: FormatOptions)
    requires c != [] && NoEdgeWhitespace(c)
    ensures StartsWith(FinishProgram(c + "\n\n" + rest, o), c)
    ensures !AllWhitespace(rest) ==> StartsWith(FinishProgram(c + "\n\n" + rest, o), c + "\n\n")
  {
    var assembled := c + "\n\n" + rest;
    assert assembled == c + ("\n\n" + rest);
    assert assembled[0] == c[0];
    TrimStartOfNonWhitespace(assembled);
    TrimEndKeepsPrefix(c, "\n\n" + rest);
    var t := Trim(assembled);
    assert StartsWith(t, c);
    if !AllWhitespace(rest) {
      TrimEndKeepsPrefix(c + "\n\n", rest);
      assert StartsWith(t, c + "\n\n");
      assert (t + "\n")[..|c + "\n\n"|] == t[..|c + "\n\n"|];
    }
    assert (t + "\n")[..|c|] == t[..|c|];
  }

  /** Without trivia, only the first item has a start string: the indentation. */
  lemma StartWithoutTrivia(p: Program, o: FormatOptions, level: nat, i: nat)
    requires WFProgram(p) && NoTrivia(p)
    ensures StartString(p, o, level, i) == if i == 0 then Indentation(o, level) else ""
  {
  }

  /** Without trivia, every item but the last of a top-level program ends with a newline. */
  lemma EndWithoutTrivia(p: Program, o: FormatOptions, level: nat, i: nat)
    requires WFProgram(p) && NoTrivia(p) && i < |p.body|
    ensures EndString(p, o, level, i) == LineBreak(p, level, i)
  {
    assert SlotOf(p.meta.nonCodeNodes, i) == None;
  }

  /** Without trivia, each chunk is its start string, its item text and its line break. */
  lemma ChunkStep(p: Program, o: FormatOptions, level: nat, m: nat)
    requires WFProgram(p) && NoTrivia(p) && m < |p.body|
    ensures BodyChunks(p, o, level, m + 1) ==
      BodyChunks(p, o, level, m) + (StartString(p, o, level, m) + ItemTexts(p, o, level)[m] + LineBreak(p, level, m))
  {
    ChunkWithoutTrivia(p, o, level, m);
  }

  /** Without trivia, the chunk of item `m` ends with its line break. */
  lemma ChunkWithoutTrivia(p: Program, o: FormatOptions, level: nat, m: nat)
    requires WFProgram(p) && NoTrivia(p) && m < |p.body|
    ensures ProgramChunk(p, o, level, m) == StartString(p, o, level, m) + ItemTexts(p, o, level)[m] + LineBreak(p, level, m)
  {
    EndWithoutTrivia(p, o, level, m);
    assert ItemTexts(p, o, level)[m] == BodyItemText(p.body[m], o, level);
  }

  /** The base case of `ChunksWithoutTrivia`. */
  lemma ChunksFirst(p: Program, o: FormatOptions, level: nat)
    requires WFProgram(p) && NoTrivia(p) && 0 < |p.body|
    ensures BodyChunks(p, o, level, 1) ==
      Indentation(o, level) + Join(ItemTexts(p, o, level)[..1], "\n") + LineBreak(p, level, 0)
  {
    ChunkStep(p, o, level, 0);
    StartWithoutTrivia(p, o, level, 0);
    JoinPrefixSnoc(ItemTexts(p, o, level), 1, "\n");
    var chunk := Indentation(o, level) + ItemTexts(p, o, level)[0] + LineBreak(p, level, 0);
    assert "" + chunk == chunk;
  }

  /** The step case of `ChunksWithoutTrivia`: the line break of item `n - 2` becomes the separator. */
  lemma ChunksNext(p: Program, o: FormatOptions, level: nat, n: nat)
    requires WFProgram(p) && NoTrivia(p) && 1 < n <= |p.body|
    requires BodyChunks(p, o, level, n - 1) ==
      Indentation(o, level) + Join(ItemTexts(p, o, level)[..n - 1], "\n") + LineBreak(p, level, n - 2)
    ensures BodyChunks(p, o, level, n) ==
      Indentation(o, level) + Join(ItemTexts(p, o, level)[..n], "\n") + LineBreak(p, level, n - 1)
  {
    var texts := ItemTexts(p, o, level);
    ChunkStep(p, o, level, n - 1);
    StartWithoutTrivia(p, o, level, n - 1);
    assert "" + texts[n - 1] == texts[n - 1];
    JoinPrefixSnoc(texts, n, "\n");
    assert LineBreak(p, level, n - 2) == "\n";
    Regroup(Indentation(o, level), Join(texts[..n - 1], "\n"), "\n", texts[n - 1], LineBreak(p, level, n - 1));
  }

  lemma {:induction false} ChunksWithoutTrivia(p: Program, o: FormatOptions, level: nat, n: nat)
    requires WFProgram(p) && NoTrivia(p) && 0 < n <= |p.body|
    ensures BodyChunks(p, o, level, n) ==
      Indentation(o, level) + Join(ItemTexts(p, o, level)[..n], "\n") + LineBreak(p, level, n - 1)
  {
    if n == 1 {
      ChunksFirst(p, o, level);
    } else {
      ChunksWithoutTrivia(p, o, level, n - 1);
      ChunksNext(p, o, level, n);
    }
  }

  /**
   * Without trivia, the body items are separated by single newlines; the last item of a
   * top-level program has no line break after it, while inside a block (level above 0)
   * every item ends its line.
   */
  lemma LayoutWithoutTrivia(p: Program, o: FormatOptions, level: nat)
    requires WFProgram(p) && NoTrivia(p)
    ensures AssembledProgram(p, o, level) ==
      ShebangText(p) +
      (if p.body == [] then ""
       else Indentation(o, level) + Join(ItemTexts(p, o, level), "\n") + (if level == 0 then "" else "\n"))
  {
    var n := |p.body|;
    if n > 0 {
      ChunksWithoutTrivia(p, o, level, n);
      assert ItemTexts(p, o, level)[..n] == ItemTexts(p, o, level);
    }
  }

  /**
   * Trivia recorded after an item takes the place of that item's line break; a single
   * blank-line node there separates the item from the next by exactly one empty line.
   */
  lemma TriviaReplacesLineBreak(p: Program, o: FormatOptions, level: nat, k: nat)
    requires WFProgram(p) && k < |p.meta.nonCodeNodes| && p.meta.nonCodeNodes[k].index < |p.body|
    requires p.meta.nonCodeNodes[k].nodes != []
    ensures var i := p.meta.nonCodeNodes[k].index;
      EndString(p, o, level, i) == ProgramTrivia(p, o, level, i) != []
    ensures var slot := p.meta.nonCodeNodes[k];
      |slot.nodes| == 1 && slot.nodes[0].value == NewLine ==> EndString(p, o, level, slot.index) == "\n\n"
  {
    var nodes := p.meta.nonCodeNodes[k].nodes;
    var texts := SlotNodeTexts(p.meta, o, level, k);
    SlotTrivia(p, o, level, k);
    SlotTextsShape(p, o, level, k);
    PiecesNonEmpty(nodes, texts);
    if |nodes| == 1 && nodes[0].value == NewLine {
      SingleNewLinePiece(nodes, texts);
    }
  }

  /** The trivia at the position of slot `k` is that slot's pieces, concatenated. */
  lemma SlotTrivia(p: Program, o: FormatOptions, level: nat, k: nat)
    requires WFProgram(p) && k < |p.meta.nonCodeNodes|
    ensures |SlotNodeTexts(p.meta, o, level, k)| == |p.meta.nonCodeNodes[k].nodes|
    ensures ProgramTrivia(p, o, level, p.meta.nonCodeNodes[k].index) ==
      Concat(ProgramTriviaPieces(p.meta.nonCodeNodes[k].nodes, SlotNodeTexts(p.meta, o, level, k)))
  {
    assert WFMeta(p.meta);
    SlotOfFinds(p.meta.nonCodeNodes, k);
  }

  /** The last node of a non-empty slot prints something; a lone blank line prints as one. */
  lemma SlotTextsShape(p: Program, o: FormatOptions, level: nat, k: nat)
    requires WFProgram(p) && k < |p.meta.nonCodeNodes| && p.meta.nonCodeNodes[k].nodes != []
    ensures var texts := SlotNodeTexts(p.meta, o, level, k);
      var nodes := p.meta.nonCodeNodes[k].nodes;
      texts[|texts| - 1] != [] && (nodes[0].value == NewLine ==> texts[0] == "\n\n")
  {
    assert WFMeta(p.meta);
    var nodes := p.meta.nonCodeNodes[k].nodes;
    var texts := SlotNodeTexts(p.meta, o, level, k);
    RecastNonCodeNonEmpty(nodes[|nodes| - 1], o, level);
    if nodes[0].value == NewLine {
      NewLineText(nodes[0], o, level);
    }
  }

  /** The pieces of a slot whose last node prints something concatenate to something. */
  lemma PiecesNonEmpty(nodes: seq<NonCodeNode>, texts: seq<string>)
    requires |texts| == |nodes| && nodes != [] && texts[|texts| - 1] != []
    ensures Concat(ProgramTriviaPieces(nodes, texts)) != []
  {
    var pieces := ProgramTriviaPieces(nodes, texts);
    assert pieces == pieces[..|pieces| - 1] + [pieces[|pieces| - 1]];
    ConcatSnoc(pieces[..|pieces| - 1], pieces[|pieces| - 1]);
  }

  /** A slot holding one blank line prints as the blank line alone. */
  lemma SingleNewLinePiece(nodes: seq<NonCodeNode>, texts: seq<string>)
    requires |texts| == |nodes| == 1 && nodes[0].value == NewLine && texts[0] == "\n\n"
    ensures Concat(ProgramTriviaPieces(nodes, texts)) == "\n\n"
  {
    var pieces := ProgramTriviaPieces(nodes, texts);
    assert pieces == [] + ["\n\n"];
  }
}
