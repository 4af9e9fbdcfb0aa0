/**
 * `IfExpression::recast`: the list of indented lines (the condition line, the branch
 * bodies one level deeper, the `} else if` and `} else {` lines, the closing brace),
 * each trimmed, indented by its offset and joined by new lines.
 */
module Ifs {
  import opened Text
  import opened Ast
  import opened Format
  import opened Recast
  import opened Programs

  /** `IfExpression::recast`, pushing the lines onto a list in the source's order. */
  method RecastIfExpression(ie: IfExpression, o: FormatOptions, level: nat, ctxt: ExprContext) returns (r: string)
    requires WFIf(ie)
    ensures r == RecastIf(ie, o, level, ctxt)
  {
    ghost var conds := ElseIfConds(ie, o, level, ctxt);
    ghost var bodies := ElseIfBodies(ie, o, level);
    var cond := RecastExpr(ie.cond, o, level, ctxt);
    var lines := [IndentedLine(0, "if " + cond + " {")];
    var thenText := RecastProgramFold(ie.thenVal, o, level + 1);
    lines := lines + [IndentedLine(1, thenText)];
    ghost var head := lines;
    lines := PushElseIfs(ie, o, level, ctxt, lines, conds, bodies);
    lines := lines + [IndentedLine(0, "} else {")];
    var elseText := RecastProgramFold(ie.finalElse, o, level + 1);
    lines := lines + [IndentedLine(1, elseText)];
    lines := lines + [IndentedLine(0, "}")];
    LayoutAssembled(cond, thenText, conds, bodies, elseText, head, lines);
    r := Join(IfLineTexts(lines, o, level), "\n");
    IfTextOfLayout(ie, o, level, ctxt, cond, thenText, conds, bodies, elseText);
  }

  /** The loop over the else-if branches, pushing two lines for each. */
  method PushElseIfs(ie: IfExpression, o: FormatOptions, level: nat, ctxt: ExprContext, start: seq<IndentedLine>,
                     ghost conds: seq<string>, ghost bodies: seq<string>)
    returns (lines: seq<IndentedLine>)
    requires WFIf(ie)
    requires conds == ElseIfConds(ie, o, level, ctxt) && bodies == ElseIfBodies(ie, o, level)
    ensures lines == start + ElseIfLayout(conds, bodies, 0)
  {
    lines := start;
    var k := 0;
    ghost var n := |conds|;
    assert n == |bodies| == |ie.elseIfs|;
    while k < |ie.elseIfs|
      invariant k <= n
      invariant start + ElseIfLayout(conds, bodies, 0) == lines + ElseIfLayout(conds, bodies, k)
    {
      var elseIfLines := RecastElseIf(ie, o, level, ctxt, k, conds, bodies);
      SeqAppendAssoc(lines, elseIfLines, ElseIfLayout(conds, bodies, k + 1));
      lines := lines + elseIfLines;
      k := k + 1;
    }
    assert k == n;
    assert lines + [] == lines;
  }

  /** The two lines of else-if branch `k`: its condition line and its body. */
  method RecastElseIf(ie: IfExpression, o: FormatOptions, level: nat, ctxt: ExprContext, k: nat,
                      ghost conds: seq<string>, ghost bodies: seq<string>)
    returns (lines: seq<IndentedLine>)
    requires WFIf(ie) && k < |ie.elseIfs|
    requires conds == ElseIfConds(ie, o, level, ctxt) && bodies == ElseIfBodies(ie, o, level)
    ensures ElseIfLayout(conds, bodies, k) == lines + ElseIfLayout(conds, bodies, k + 1)
    ensures lines == [IndentedLine(0, "} else if " + conds[k] + " {"), IndentedLine(1, bodies[k])]
  {
    var elseIf := ie.elseIfs[k];
    var cond := RecastExpr(elseIf.cond, o, level, ctxt);
    var body := RecastProgramFold(elseIf.thenVal, o, level + 1);
    lines := [IndentedLine(0, "} else if " + cond + " {"), IndentedLine(1, body)];
  }

  /** `RecastIf` is the text of the layout of its printed parts. */
  lemma IfTextOfLayout(ie: IfExpression, o: FormatOptions, level: nat, ctxt: ExprContext,
                       cond: string, thenText: string, conds: seq<string>, bodies: seq<string>, elseText: string)
    requires WFIf(ie)
    requires cond == RecastExpr(ie.cond, o, level, ctxt) && thenText == RecastProgram(ie.thenVal, o, level + 1)
    requires conds == ElseIfConds(ie, o, level, ctxt) && bodies == ElseIfBodies(ie, o, level)
    requires elseText == RecastProgram(ie.finalElse, o, level + 1)
    ensures RecastIf(ie, o, level, ctxt) == IfText(IfLayout(cond, thenText, conds, bodies, elseText), o, level)
  {
  }

  /** The lines pushed one at a time are the layout of the printed parts. */
  lemma LayoutAssembled(cond: string, thenText: string, conds: seq<string>, bodies: seq<string>, elseText: string,
                        head: seq<IndentedLine>, lines: seq<IndentedLine>)
    requires |conds| == |bodies|
    requires head == [IndentedLine(0, "if " + cond + " {")] + [IndentedLine(1, thenText)]
    requires lines == head + ElseIfLayout(conds, bodies, 0) + [IndentedLine(0, "} else {")] +
      [IndentedLine(1, elseText)] + [IndentedLine(0, "}")]
    ensures lines == IfLayout(cond, thenText, conds, bodies, elseText)
  {
  }

  // ---------------------------------------------------------------------------
  // Properties, on the layout of the printed parts

  /** Two lines per else-if branch: its condition line, then its body one level deeper. */
  lemma {:induction false} ElseIfLayoutAt(conds: seq<string>, bodies: seq<string>, k: nat, j: nat)
    requires |conds| == |bodies| && k <= j < |conds|
    ensures |ElseIfLayout(conds, bodies, k)| == 2 * (|conds| - k)
    ensures ElseIfLayout(conds, bodies, k)[2 * (j - k)] == IndentedLine(0, "} else if " + conds[j] + " {")
    ensures ElseIfLayout(conds, bodies, k)[2 * (j - k) + 1] == IndentedLine(1, bodies[j])
    decreases |conds| - k
  {
    ElseIfLayoutLength(conds, bodies, k);
    if k < j {
      ElseIfLayoutAt(conds, bodies, k + 1, j);
    }
  }

  lemma {:induction false} ElseIfLayoutLength(conds: seq<string>, bodies: seq<string>, k: nat)
    requires |conds| == |bodies|
    ensures |ElseIfLayout(conds, bodies, k)| == if k >= |conds| then 0 else 2 * (|conds| - k)
    decreases |conds| - k
  {
    if k < |conds| {
      ElseIfLayoutLength(conds, bodies, k + 1);
    }
  }

  /**
   * The list has `2 + 2 * else_ifs + 3` lines, as the source reserves: the condition
   * line and the then branch, two per else-if branch, then `} else {`, the else branch
   * and the closing brace.
   */
  lemma IfLineCount(ie: IfExpression, o: FormatOptions, level: nat, ctxt: ExprContext)
    requires WFIf(ie)
    ensures |IfLines(ie, o, level, ctxt)| == 2 + 2 * |ie.elseIfs| + 3
  {
    ElseIfLayoutLength(ElseIfConds(ie, o, level, ctxt), ElseIfBodies(ie, o, level), 0);
  }

  /**
   * An if expression opens with its indented `if <cond> {` line and closes with a line
   * holding only its indented closing brace.
   */
  lemma IfShape(ie: IfExpression, o: FormatOptions, level: nat, ctxt: ExprContext)
    requires WFIf(ie)
    ensures StartsWith(RecastIf(ie, o, level, ctxt), Indentation(o, level) + ("if " + RecastExpr(ie.cond, o, level, ctxt) + " {"))
    ensures EndsWith(RecastIf(ie, o, level, ctxt), "\n" + (Indentation(o, level) + "}"))
  {
    LayoutShape(RecastExpr(ie.cond, o, level, ctxt), RecastProgram(ie.thenVal, o, level + 1),
                ElseIfConds(ie, o, level, ctxt), ElseIfBodies(ie, o, level), RecastProgram(ie.finalElse, o, level + 1), o, level);
  }

  /** `IfShape` on the layout of the printed parts. */
  lemma LayoutShape(cond: string, thenText: string, conds: seq<string>, bodies: seq<string>, elseText: string,
                    o: FormatOptions, level: nat)
    requires |conds| == |bodies|
    ensures var r := IfText(IfLayout(cond, thenText, conds, bodies, elseText), o, level);
      StartsWith(r, Indentation(o, level) + ("if " + cond + " {")) && EndsWith(r, "\n" + (Indentation(o, level) + "}"))
  {
    var lines := IfLayout(cond, thenText, conds, bodies, elseText);
    var texts := IfLineTexts(lines, o, level);
    LayoutEnds(cond, thenText, conds, bodies, elseText);
    OpeningEdges(cond);
    assert NoEdgeWhitespace("}");
    UntrimmedLine(lines, o, level, 0);
    UntrimmedLine(lines, o, level, |lines| - 1);
    JoinedEdges(texts, Indentation(o, level) + ("if " + cond + " {"), Indentation(o, level) + "}");
  }

  /** Lines joined by new lines start with the first line and end with a new line and the last one. */
  lemma JoinedEdges(texts: seq<string>, first: string, last: string)
    requires |texts| >= 2 && texts[0] == first && texts[|texts| - 1] == last
    ensures StartsWith(Join(texts, "\n"), first) && EndsWith(Join(texts, "\n"), "\n" + last)
  {
    JoinStartsWithFirst(texts, "\n");
    JoinEndsWithLast(texts, "\n");
  }

  /** The layout opens with the condition line and closes with the closing brace, both at offset 0. */
  lemma LayoutEnds(cond: string, thenText: string, conds: seq<string>, bodies: seq<string>, elseText: string)
    requires |conds| == |bodies|
    ensures var lines := IfLayout(cond, thenText, conds, bodies, elseText);
      |lines| >= 2 &&
      lines[0].offset == 0 && lines[0].text == "if " + cond + " {" &&
      lines[|lines| - 1].offset == 0 && lines[|lines| - 1].text == "}"
  {
  }

  /** A line at offset 0 with no whitespace at its edges prints as itself at the expression's own level. */
  lemma UntrimmedLine(lines: seq<IndentedLine>, o: FormatOptions, level: nat, i: nat)
    requires i < |lines| && lines[i].offset == 0 && NoEdgeWhitespace(lines[i].text)
    ensures IfLineTexts(lines, o, level)[i] == Indentation(o, level) + lines[i].text
  {
    TrimOfTrimmed(lines[i].text);
  }

  /** The condition line starts with `i` and ends with `{`. */
  lemma OpeningEdges(cond: string)
    ensures NoEdgeWhitespace("if " + cond + " {")
  {
    var s := "if " + cond + " {";
    assert s[0] == 'i' && s[|s| - 1] == '{';
  }

  /**
   * Every branch body sits on the line after its opening line, one level deeper and
   * trimmed: the then branch at line 1, else-if branch `j` at line `2 * j + 3`, the else
   * branch just before the closing brace, after the `} else {` line.
   */
  lemma BranchLines(ie: IfExpression, o: FormatOptions, level: nat, ctxt: ExprContext)
    requires WFIf(ie)
    ensures var lines := IfLines(ie, o, level, ctxt);
      |lines| == 5 + 2 * |ie.elseIfs| &&
      lines[1] == IndentedLine(1, RecastProgram(ie.thenVal, o, level + 1)) &&
      lines[|lines| - 3] == IndentedLine(0, "} else {") &&
      lines[|lines| - 2] == IndentedLine(1, RecastProgram(ie.finalElse, o, level + 1)) &&
      forall j :: 0 <= j < |ie.elseIfs| ==>
        lines[2 * j + 2] == IndentedLine(0, "} else if " + RecastExpr(ie.elseIfs[j].cond, o, level, ctxt) + " {") &&
        lines[2 * j + 3] == IndentedLine(1, RecastProgram(ie.elseIfs[j].thenVal, o, level + 1))
  {
    var lines := IfLines(ie, o, level, ctxt);
    var cond := RecastExpr(ie.cond, o, level, ctxt);
    var thenText := RecastProgram(ie.thenVal, o, level + 1);
    var conds := ElseIfConds(ie, o, level, ctxt);
    var bodies := ElseIfBodies(ie, o, level);
    var elseText := RecastProgram(ie.finalElse, o, level + 1);
    assert lines == IfLayout(cond, thenText, conds, bodies, elseText);
    LayoutBranches(cond, thenText, conds, bodies, elseText);
    forall j | 0 <= j < |ie.elseIfs|
      ensures lines[2 * j + 2] == IndentedLine(0, "} else if " + RecastExpr(ie.elseIfs[j].cond, o, level, ctxt) + " {")
      ensures lines[2 * j + 3] == IndentedLine(1, RecastProgram(ie.elseIfs[j].thenVal, o, level + 1))
    {
      assert conds[j] == RecastExpr(ie.elseIfs[j].cond, o, level, ctxt);
      assert bodies[j] == RecastProgram(ie.elseIfs[j].thenVal, o, level + 1);
    }
  }

  /** `BranchLines` on the layout of the printed parts. */
  lemma LayoutBranches(cond: string, thenText: string, conds: seq<string>, bodies: seq<string>, elseText: string)
    requires |conds| == |bodies|
    ensures var lines := IfLayout(cond, thenText, conds, bodies, elseText);
      |lines| == 5 + 2 * |conds| &&
      lines[1] == IndentedLine(1, thenText) &&
      lines[|lines| - 3] == IndentedLine(0, "} else {") &&
      lines[|lines| - 2] == IndentedLine(1, elseText) &&
      forall j :: 0 <= j < |conds| ==>
        lines[2 * j + 2] == IndentedLine(0, "} else if " + conds[j] + " {") && lines[2 * j + 3] == IndentedLine(1, bodies[j])
  {
    var lines := IfLayout(cond, thenText, conds, bodies, elseText);
    var mid := ElseIfLayout(conds, bodies, 0);
    ElseIfLayoutLength(conds, bodies, 0);
    forall j | 0 <= j < |conds|
      ensures lines[2 * j + 2] == IndentedLine(0, "} else if " + conds[j] + " {") && lines[2 * j + 3] == IndentedLine(1, bodies[j])
    {
      ElseIfLayoutAt(conds, bodies, 0, j);
      assert lines[2 * j + 2] == mid[2 * j];
      assert lines[2 * j + 3] == mid[2 * j + 1];
    }
  }
}
