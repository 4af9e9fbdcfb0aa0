/**
 * Printing trivia (comments, blank lines, annotations): what survives of a comment,
 * which trivia ends its line, and which trivia keeps a container on one line.
 */
module Trivia {
  import opened Text
  import opened Ast
  import opened Format
  import opened Recast

  /** The `Annotation` arm of `Node<NonCodeNode>::recast`, pushing onto the result in the source's order. */
  method RecastAnnotation(n: NonCodeNode, o: FormatOptions, level: nat) returns (r: string)
    requires WFNonCode(n) && n.value.Annotation?
    ensures r == RecastNonCode(n, o, level)
  {
    r := "@";
    r := r + n.value.name;
    if n.value.properties.Properties? {
      r := r + "(";
      r := r + Join(AnnotationPropertyTexts(n, o, level), ", ");
      r := r + ")";
      r := r + "\n";
    }
  }

  predicate IsComment(v: NonCodeValue)
  {
    v.InlineComment? || v.BlockComment? || v.NewLineBlockComment?
  }

  /** Unfolds `RecastNonCode` into `NonCodeText` at the level's indentation, for every node but an annotation with properties. */
  lemma NodeText(n: NonCodeNode, o: FormatOptions, level: nat)
    requires WFNonCode(n)
    ensures !n.value.Annotation? ==> RecastNonCode(n, o, level) == NonCodeText(n, Indentation(o, level), "")
    ensures n.value.Annotation? && n.value.properties.NoProperties? ==> RecastNonCode(n, o, level) == "@" + n.value.name
  {
  }

  /** A blank line prints as a blank line: two newlines. */
  lemma NewLineText(n: NonCodeNode, o: FormatOptions, level: nat)
    requires n.value == NewLine
    ensures WFNonCode(n) && RecastNonCode(n, o, level) == "\n\n"
  {
    NodeText(n, o, level);
  }

  /** Every trivia node prints as some text. */
  lemma RecastNonCodeNonEmpty(n: NonCodeNode, o: FormatOptions, level: nat)
    requires WFNonCode(n)
    ensures RecastNonCode(n, o, level) != []
  {
    var props := if n.value.Annotation? && n.value.properties.Properties? then Join(AnnotationPropertyTexts(n, o, level), ", ") else "";
    assert RecastNonCode(n, o, level) == NonCodeText(n, Indentation(o, level), props);
    NonCodeTextNonEmpty(n, Indentation(o, level), props);
  }

  lemma NonCodeTextNonEmpty(n: NonCodeNode, ind: string, props: string)
    requires WFNonCode(n)
    ensures NonCodeText(n, ind, props) != []
  {
    var t := NonCodeText(n, ind, props);
    assert |t| > 0;
  }

  /** A block-style comment reappears verbatim between its delimiters. */
  lemma BlockCommentTextKept(n: NonCodeNode, o: FormatOptions, level: nat)
    requires WFNonCode(n) && IsComment(n.value) && n.value.style == Block
    ensures Infix("/* " + n.value.value + " */", RecastNonCode(n, o, level))
  {
    NodeText(n, o, level);
    BlockCommentBody(n, Indentation(o, level));
  }

  lemma BlockCommentBody(n: NonCodeNode, ind: string)
    requires IsComment(n.value) && n.value.style == Block
    ensures Infix("/* " + n.value.value + " */", NonCodeText(n, ind, ""))
  {
    var body := CommentBody(n.value.value, Block);
    var pre := if n.start == 0 then "" else "\n\n";
    if n.value.InlineComment? {
      InfixOf(" ", body, "");
    } else if n.value.BlockComment? {
      InfixOf(ind, body, "");
    } else {
      InfixOf(pre + ind, body, "\n");
    }
  }

  /** An inline line comment reappears verbatim after the comment marker and a space. */
  lemma InlineLineCommentKept(n: NonCodeNode, o: FormatOptions, level: nat)
    requires WFNonCode(n) && n.value.InlineComment? && n.value.style == Line
    ensures Infix("// " + n.value.value, RecastNonCode(n, o, level))
  {
    NodeText(n, o, level);
    var body := "// " + n.value.value;
    assert NonCodeText(n, Indentation(o, level), "") == " " + body + "\n";
    InfixOf(" ", body, "\n");
  }

  /**
   * A line comment on its own line reappears trimmed after the comment marker and a
   * space; one that is only whitespace becomes a bare marker.
   */
  lemma OwnLineCommentKept(n: NonCodeNode, o: FormatOptions, level: nat)
    requires WFNonCode(n) && (n.value.BlockComment? || n.value.NewLineBlockComment?) && n.value.style == Line
    ensures var t := Trim(n.value.value);
      Infix(if t == [] then "//" else "// " + t, RecastNonCode(n, o, level))
  {
    NodeText(n, o, level);
    OwnLineBody(n, Indentation(o, level));
  }

  lemma OwnLineBody(n: NonCodeNode, ind: string)
    requires (n.value.BlockComment? || n.value.NewLineBlockComment?) && n.value.style == Line
    ensures Infix(LineCommentText(n.value.value), NonCodeText(n, ind, ""))
  {
    var body := CommentBody(n.value.value, Line);
    if n.value.BlockComment? {
      InfixOf(ind, body, "\n");
    } else {
      var pre := if n.start == 0 then "" else "\n\n";
      InfixOf(pre + ind, body, "\n");
    }
  }

  /** Line-style comments, own-line comments, blank lines and annotations with properties end their line. */
  lemma TriviaEndsLine(n: NonCodeNode, o: FormatOptions, level: nat)
    requires WFNonCode(n)
    requires (IsComment(n.value) && n.value.style == Line) || n.value.NewLineBlockComment? || n.value.NewLine? ||
             (n.value.Annotation? && n.value.properties.Properties?)
    ensures EndsWith(RecastNonCode(n, o, level), "\n")
  {
    var props := if n.value.Annotation? then Join(AnnotationPropertyTexts(n, o, level), ", ") else "";
    assert RecastNonCode(n, o, level) == NonCodeText(n, Indentation(o, level), props);
    NonCodeTextEndsLine(n, Indentation(o, level), props);
  }

  lemma NonCodeTextEndsLine(n: NonCodeNode, ind: string, props: string)
    requires (IsComment(n.value) && n.value.style == Line) || n.value.NewLineBlockComment? || n.value.NewLine? ||
             (n.value.Annotation? && n.value.properties.Properties?)
    ensures EndsWith(NonCodeText(n, ind, props), "\n")
  {
    var out := NonCodeText(n, ind, props);
    assert out == out[..|out| - 1] + "\n";
    EndsWithAppended(out[..|out| - 1], "\n");
  }

  /** Inline and standalone block comments end with their closing delimiter, so code may follow on the line. */
  lemma BlockCommentClosed(n: NonCodeNode, o: FormatOptions, level: nat)
    requires WFNonCode(n) && (n.value.InlineComment? || n.value.BlockComment?) && n.value.style == Block
    ensures EndsWith(RecastNonCode(n, o, level), "*/")
  {
    NodeText(n, o, level);
    var out := NonCodeText(n, Indentation(o, level), "");
    assert out == out[..|out| - 2] + "*/";
    EndsWithAppended(out[..|out| - 2], "*/");
  }

  /**
   * A comment on its own line starts at the given indentation, unless it is a new-line
   * comment that does not open the file: then a blank line comes first.
   */
  lemma OwnLineCommentIndented(n: NonCodeNode, o: FormatOptions, level: nat)
    requires WFNonCode(n) && (n.value.BlockComment? || n.value.NewLineBlockComment?)
    ensures n.value.BlockComment? || n.start == 0 ==> StartsWith(RecastNonCode(n, o, level), Indentation(o, level))
    ensures n.value.NewLineBlockComment? && n.start != 0 ==> StartsWith(RecastNonCode(n, o, level), "\n\n" + Indentation(o, level))
  {
    NodeText(n, o, level);
    OwnLineTextIndented(n, Indentation(o, level));
  }

  lemma OwnLineTextIndented(n: NonCodeNode, ind: string)
    requires n.value.BlockComment? || n.value.NewLineBlockComment?
    ensures n.value.BlockComment? || n.start == 0 ==> StartsWith(NonCodeText(n, ind, ""), ind)
    ensures n.value.NewLineBlockComment? && n.start != 0 ==> StartsWith(NonCodeText(n, ind, ""), "\n\n" + ind)
  {
    var body := CommentBody(n.value.value, n.value.style);
    if n.value.BlockComment? {
      StartsWithAppended(ind, body, CommentEnd(n.value.style));
    } else if n.start == 0 {
      assert "" + ind == ind;
      StartsWithAppended(ind, body, "\n");
    } else {
      StartsWithAppended("\n\n" + ind, body, "\n");
    }
  }

  /** Trivia made only of inline comments never forces an array or object onto several lines. */
  lemma InlineCommentsDoNotForce(slots: seq<Slot>, bound: nat)
    requires forall k, j :: 0 <= k < |slots| && 0 <= j < |slots[k].nodes| ==> slots[k].nodes[j].value.InlineComment?
    ensures !ForcingBelow(slots, bound)
    ensures forall k :: 0 <= k < |slots| ==> !SlotForces(slots[k])
  {
  }

  /** Any other trivia node forces the layout of the array or object that holds it. */
  lemma OtherTriviaForces(slots: seq<Slot>, k: nat, j: nat)
    requires k < |slots| && j < |slots[k].nodes| && !slots[k].nodes[j].value.InlineComment?
    ensures SlotForces(slots[k])
    ensures ForcingBelow(slots, slots[k].index + 1)
  {
    assert ShouldCauseArrayNewline(slots[k].nodes[j].value);
  }
}
