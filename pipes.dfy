/**
 * `Node<PipeExpression>::recast`: the stages one level deeper than the pipe, each
 * followed by its trivia and, unless it is the last, by a new line and `|> `.
 */
module Pipes {
  import opened Text
  import opened Ast
  import opened Format
  import opened Recast
  import opened Positions
  import opened Trivia

  /** The stages of a pipe, each printed one level deeper in pipe context. */
  function StageTexts(p: PipeExpression, o: FormatOptions, level: nat): (r: seq<string>)
    requires WFPipe(p)
    ensures |r| == |p.body|
  {
    seq(|p.body|, i requires 0 <= i < |p.body| => RecastExpr(p.body[i], o, level + 1, Pipe))
  }

  /** What separates two stages: a new line, the stage indentation and the pipe operator. */
  function StageSeparator(o: FormatOptions, level: nat): string
  {
    "\n" + Indentation(o, level + 1) + PIPE_OPERATOR + " "
  }

  /** `Node<PipeExpression>::recast`: the stages collected into one string after the pipe's indentation. */
  method RecastPipeExpression(p: PipeExpression, o: FormatOptions, level: nat) returns (r: string)
    requires WFPipe(p)
    ensures r == RecastPipe(p, o, level)
  {
    ghost var stages := seq(|p.body|, i requires 0 <= i < |p.body| => PipeStage(p, o, level, i));
    var pipe := "";
    var index := 0;
    while index < |p.body|
      invariant index <= |p.body|
      invariant pipe == Concat(stages[..index])
    {
      var s := RecastPipeStage(p, o, level, index);
      assert stages[..index + 1] == stages[..index] + [s];
      ConcatSnoc(stages[..index], s);
      pipe := pipe + s;
      index := index + 1;
    }
    assert stages[..|p.body|] == stages;
    r := Indentation(o, level) + pipe;
  }

  /** One stage: the expression, then its trivia, then, unless it is the last, the separator, pushed piece by piece. */
  method RecastPipeStage(p: PipeExpression, o: FormatOptions, level: nat, index: nat) returns (s: string)
    requires WFPipe(p) && index < |p.body|
    ensures s == PipeStage(p, o, level, index)
  {
    var indentation := Indentation(o, level + 1);
    s := RecastExpr(p.body[index], o, level + 1, Pipe);
    s := AppendStageTrivia(p, o, level, index, s);
    if index != |p.body| - 1 {
      ghost var before := s;
      s := s + "\n";
      s := s + indentation;
      s := s + PIPE_OPERATOR;
      s := s + " ";
      SeparatorPushed(before, indentation);
    }
  }

  /** Pushing the separator's parts one at a time appends the separator. */
  lemma SeparatorPushed(s: string, indentation: string)
    ensures s + "\n" + indentation + PIPE_OPERATOR + " " == s + ("\n" + indentation + PIPE_OPERATOR + " ")
  {
  }

  /** The trivia recorded after stage `index`, if any. */
  method AppendStageTrivia(p: PipeExpression, o: FormatOptions, level: nat, index: nat, start: string) returns (s: string)
    requires WFPipe(p)
    ensures s == start + StageTrivia(p, o, level, index)
  {
    match SlotOf(p.meta.nonCodeNodes, index) {
      case None =>
        s := start;
        assert start + "" == start;
      case Some(k) =>
        s := AppendSlotTrivia(p, o, level, k, start);
    }
  }

  /** The loop over the nodes of trivia slot `k`: each node, with a new line first for a block comment. */
  method AppendSlotTrivia(p: PipeExpression, o: FormatOptions, level: nat, k: nat, start: string) returns (s: string)
    requires WFPipe(p) && k < |p.meta.nonCodeNodes|
    ensures s == start + Concat(StagePieces(p, o, level, k))
  {
    s := start;
    var n := |p.meta.nonCodeNodes[k].nodes|;
    ghost var pieces := StagePieces(p, o, level, k);
    var j := 0;
    while j < n
      invariant j <= n == |pieces|
      invariant s == start + Concat(pieces[..j])
    {
      s := AppendSlotNode(p, o, level, k, j, start, s, pieces);
      j := j + 1;
    }
    assert pieces[..n] == pieces;
  }

  /** Node `j` of slot `k`, printed at its level and appended after the pieces before it. */
  method AppendSlotNode(p: PipeExpression, o: FormatOptions, level: nat, k: nat, j: nat, start: string, before: string,
                        ghost pieces: seq<string>)
    returns (s: string)
    requires WFPipe(p) && k < |p.meta.nonCodeNodes| && j < |p.meta.nonCodeNodes[k].nodes|
    requires pieces == StagePieces(p, o, level, k) && before == start + Concat(pieces[..j])
    ensures s == start + Concat(pieces[..j + 1])
  {
    StagePieceAt(p, o, level, k, j);
    var node := p.meta.nonCodeNodes[k].nodes[j];
    var nodeLevel := if node.end == p.end then level else level + 1;
    s := AppendPiece(node, o, nodeLevel, before);
    PieceAppended(start, pieces, j);
  }

  /** One node of a slot: trailing newlines dropped, a new line first for a block comment. */
  method AppendPiece(n: NonCodeNode, o: FormatOptions, level: nat, before: string) returns (s: string)
    requires WFNonCode(n)
    ensures s == before + PipeTriviaPiece(n, RecastNonCode(n, o, level))
  {
    var formatted := TrimEndNewlines(RecastNonCode(n, o, level));
    if n.value.BlockComment? {
      s := before + "\n";
      s := s + formatted;
      AppendAssoc(before, "\n", formatted);
    } else {
      s := before + formatted;
    }
  }

  /** Piece `j` of slot `k` is node `j` printed at its level. */
  lemma StagePieceAt(p: PipeExpression, o: FormatOptions, level: nat, k: nat, j: nat)
    requires WFPipe(p) && k < |p.meta.nonCodeNodes| && j < |p.meta.nonCodeNodes[k].nodes|
    ensures WFNonCode(p.meta.nonCodeNodes[k].nodes[j])
    ensures var n := p.meta.nonCodeNodes[k].nodes[j];
      StagePieces(p, o, level, k)[j] == PipeTriviaPiece(n, RecastNonCode(n, o, if n.end == p.end then level else level + 1))
  {
    assert WFMeta(p.meta);
  }

  /** Appending piece `j` extends the concatenation of the pieces before it. */
  lemma PieceAppended(start: string, pieces: seq<string>, j: nat)
    requires j < |pieces|
    ensures start + Concat(pieces[..j + 1]) == start + Concat(pieces[..j]) + pieces[j]
  {
    assert pieces[..j + 1] == pieces[..j] + [pieces[j]];
    ConcatSnoc(pieces[..j], pieces[j]);
    AppendAssoc(start, Concat(pieces[..j]), pieces[j]);
  }

  // ---------------------------------------------------------------------------
  // Properties

  /**
   * Without trivia, a pipe is its indentation and then its stages, separated by a new
   * line, the indentation one level deeper and `|> `.
   */
  lemma PipeWithoutTrivia(p: PipeExpression, o: FormatOptions, level: nat)
    requires WFPipe(p) && p.meta.nonCodeNodes == [] && p.body != []
    ensures RecastPipe(p, o, level) == Indentation(o, level) + Join(StageTexts(p, o, level), StageSeparator(o, level))
  {
    var texts := StageTexts(p, o, level);
    var sep := StageSeparator(o, level);
    var stages := seq(|p.body|, i requires 0 <= i < |p.body| => PipeStage(p, o, level, i));
    SepItemsShape(texts, sep, "");
    forall i | 0 <= i < |p.body|
      ensures stages[i] == SepItemsFrom(texts, sep, "", 0)[i]
    {
      StageWithoutTrivia(p, o, level, i);
    }
    assert stages == SepItemsFrom(texts, sep, "", 0);
    ConcatSepItems(texts, sep, "");
    assert Join(texts, sep) + "" == Join(texts, sep);
  }

  /** Without trivia, stage `i` is its expression, followed by the separator unless it is the last. */
  lemma StageWithoutTrivia(p: PipeExpression, o: FormatOptions, level: nat, i: nat)
    requires WFPipe(p) && p.meta.nonCodeNodes == [] && i < |p.body|
    ensures PipeStage(p, o, level, i) ==
      StageTexts(p, o, level)[i] + (if i == |p.body| - 1 then "" else StageSeparator(o, level))
  {
    assert StageTrivia(p, o, level, i) == "";
    var e := RecastExpr(p.body[i], o, level + 1, Pipe);
    assert e + "" == e;
    if i != |p.body| - 1 {
      SeparatorPushed(e, Indentation(o, level + 1));
    }
  }

  /** A blank line recorded between stages leaves no trace: the next `|> ` follows directly. */
  lemma BlankLineDropped(n: NonCodeNode, o: FormatOptions, level: nat)
    requires n.value == NewLine
    ensures WFNonCode(n) && PipeTriviaPiece(n, RecastNonCode(n, o, level)) == ""
  {
    NewLineText(n, o, level);
    assert TrimEndNewlines("\n\n"[..1]) == [];
  }

  /** A block comment recorded after a stage starts on a line of its own; no piece ends with a new line unless it is one. */
  lemma PipeTriviaPieceShape(n: NonCodeNode, formatted: string)
    ensures n.value.BlockComment? ==> StartsWith(PipeTriviaPiece(n, formatted), "\n")
    ensures var t := PipeTriviaPiece(n, formatted);
      EndsWith(t, "\n") ==> t == "\n" && n.value.BlockComment? && TrimEndNewlines(formatted) == []
  {
    var trimmed := TrimEndNewlines(formatted);
    if n.value.BlockComment? {
      assert ("\n" + trimmed)[..1] == "\n";
    }
  }
}
