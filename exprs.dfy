/**
 * Expression printers: where parentheses appear around operands, how ranges are spaced,
 * how literals are quoted, how keyword calls relate to positional calls, and what a
 * declaration context changes.
 */
module Exprs {
  import opened Text
  import opened Ast
  import opened Format
  import opened Recast

  /**
   * Printed as the value of a declaration, a function loses its `fn` keyword (the
   * declaration has already written it); every other expression prints as it does elsewhere.
   */
  lemma DeclarationContext(e: Expr, o: FormatOptions, level: nat)
    requires WFExpr(e)
    ensures RecastExpr(e, o, level, Decl) ==
      if e.FunctionExpr? then RecastFunction(e.func, o, level) else RecastExpr(e, o, level, Other)
  {
    if e.FunctionExpr? {
      assert RecastExpr(e, o, level, Decl) == "" + RecastFunction(e.func, o, level);
    }
  }

  /**
   * A call printed as a pipe stage starts directly with its callee (the pipe supplies the
   * indentation); printed anywhere else, and also as a declaration's value, it starts
   * with the indentation of its level.
   */
  lemma CallIndentationByContext(c: CallExpression, o: FormatOptions, level: nat, ctxt: ExprContext)
    requires WFCall(c)
    ensures var r := RecastExpr(CallExpr(c), o, level, ctxt);
      StartsWith(r, (if ctxt == Pipe then "" else Indentation(o, level)) + c.callee + "(") &&
      EndsWith(r, ")")
  {
    var c' := if ctxt == Decl then Other else ctxt;
    var args := c.arguments;
    var joined := Join(seq(|args|, i requires 0 <= i < |args| => RecastExpr(args[i], o, level, c')), ", ");
    var head := CallIndentation(o, level, c') + c.callee + "(";
    assert RecastExpr(CallExpr(c), o, level, ctxt) == head + joined + ")";
    StartsWithAppended(head, joined, ")");
    EndsWithAppended(head + joined, ")");
  }

  /**
   * A function declaration prints its visibility, its indentation, `fn <name>` and the
   * function's trimmed text: the `fn` keyword is written once.
   */
  lemma FunctionDeclarationText(d: VariableDeclaration, o: FormatOptions, level: nat)
    requires d.kind == FnKind && d.init.FunctionExpr? && WFProgram(d.init.func.body)
    ensures WFExpr(d.init)
    ensures RecastVariableDeclaration(d, o, level) ==
      (if d.visibility == Export then "export " else "") + Indentation(o, level) + "fn " + d.id +
      Trim(RecastFunction(d.init.func, o, level))
  {
    var head := (if d.visibility == Export then "export " else "") + Indentation(o, level);
    DeclarationContext(d.init, o, level);
    var value := Trim(RecastExpr(d.init, o, level, Decl));
    assert value == Trim(RecastFunction(d.init.func, o, level));
    assert RecastVariableDeclaration(d, o, level) == head + "fn " + d.id + "" + value;
    assert head + "fn " + d.id + "" == head + "fn " + d.id;
  }

  /** A constant declaration prints its visibility, its indentation, `<name> = ` and the trimmed value. */
  lemma ConstDeclarationText(d: VariableDeclaration, o: FormatOptions, level: nat)
    requires d.kind == Const && !d.init.FunctionExpr? && WFExpr(d.init)
    ensures RecastVariableDeclaration(d, o, level) ==
      (if d.visibility == Export then "export " else "") + Indentation(o, level) + d.id + " = " +
      Trim(RecastExpr(d.init, o, level, Other))
  {
    var head := (if d.visibility == Export then "export " else "") + Indentation(o, level);
    DeclarationContext(d.init, o, level);
    var value := Trim(RecastExpr(d.init, o, level, Decl));
    assert value == Trim(RecastExpr(d.init, o, level, Other));
    assert RecastVariableDeclaration(d, o, level) == head + "" + d.id + " = " + value;
    assert head + "" == head;
  }

  /**
   * A labelled expression prints its inner expression in the same context (a declaration
   * context becomes `Other`, a pipe context stays), then ` as ` and the label.
   */
  lemma LabelledText(inner: Expr, name: string, o: FormatOptions, level: nat, ctxt: ExprContext)
    requires WFExpr(inner)
    ensures var c := if ctxt == Decl then Other else ctxt;
      var r := RecastExpr(LabelledExpr(inner, name), o, level, ctxt);
      StartsWith(r, RecastExpr(inner, o, level, c)) && EndsWith(r, " as " + name)
  {
    var c := if ctxt == Decl then Other else ctxt;
    var t := RecastExpr(inner, o, level, c);
    assert RecastExpr(LabelledExpr(inner, name), o, level, ctxt) == t + " as " + name;
    StartsWithAppended(t, " as ", name);
    AppendAssoc(t, " as ", name);
    EndsWithAppended(t, " as " + name);
  }

  /** Anywhere but in a declaration, a function expression starts with the `fn` keyword. */
  lemma FunctionKeyword(e: Expr, o: FormatOptions, level: nat, ctxt: ExprContext)
    requires WFExpr(e) && e.FunctionExpr? && ctxt != Decl
    ensures RecastExpr(e, o, level, ctxt) == "fn" + RecastFunction(e.func, o, level)
  {
  }

  /**
   * The right operand of a binary expression is parenthesised exactly when it is itself
   * a binary expression that binds more loosely than the parent, or the parent is a
   * subtraction or a division; otherwise it prints bare.
   */
  lemma RightOperandParentheses(b: BinaryExpression, o: FormatOptions)
    requires WFPart(b.left) && WFPart(b.right)
    ensures var head := MaybeWrap(RecastPart(b.left, o, 0), WrapsLeft(b)) + " " + BinaryOperatorText(b.operator) + " ";
      var right := RecastPart(b.right, o, 0);
      var wrap := b.right.PartBinary? &&
        (Precedence(b.operator) > Precedence(b.right.bin.operator) || b.operator == Sub || b.operator == Div);
      (RecastBinary(b, o) == head + "(" + right + ")" <==> wrap) &&
      (!wrap ==> RecastBinary(b, o) == head + right)
  {
    var head := MaybeWrap(RecastPart(b.left, o, 0), WrapsLeft(b)) + " " + BinaryOperatorText(b.operator) + " ";
    var right := RecastPart(b.right, o, 0);
    assert RecastBinary(b, o) == head + MaybeWrap(right, WrapsRight(b));
    WrapAfter(head, right, WrapsRight(b));
  }

  /**
   * The left operand is parenthesised exactly when it is a binary expression that binds
   * more loosely than the parent: an equally binding left operand prints bare, since the
   * printed text groups from the left.
   */
  lemma LeftOperandParentheses(b: BinaryExpression, o: FormatOptions)
    requires WFPart(b.left) && WFPart(b.right)
    ensures var tail := " " + BinaryOperatorText(b.operator) + " " + MaybeWrap(RecastPart(b.right, o, 0), WrapsRight(b));
      var left := RecastPart(b.left, o, 0);
      var wrap := b.left.PartBinary? && Precedence(b.operator) > Precedence(b.left.bin.operator);
      (RecastBinary(b, o) == "(" + left + ")" + tail <==> wrap) &&
      (!wrap ==> RecastBinary(b, o) == left + tail)
  {
    var tail := " " + BinaryOperatorText(b.operator) + " " + MaybeWrap(RecastPart(b.right, o, 0), WrapsRight(b));
    var left := RecastPart(b.left, o, 0);
    assert RecastBinary(b, o) == MaybeWrap(left, WrapsLeft(b)) + tail;
    WrapBefore(left, tail, WrapsLeft(b));
  }

  /** A negation or a logical not parenthesises its operand exactly when that is a binary or unary expression. */
  lemma UnaryParentheses(u: UnaryExpression, o: FormatOptions)
    requires WFPart(u.argument)
    ensures var op := UnaryOperatorText(u.operator);
      var arg := RecastPart(u.argument, o, 0);
      var wrap := u.argument.PartBinary? || u.argument.PartUnary?;
      (RecastUnary(u, o) == op + "(" + arg + ")" <==> wrap) &&
      (!wrap ==> RecastUnary(u, o) == op + arg)
  {
    var op := UnaryOperatorText(u.operator);
    var arg := RecastPart(u.argument, o, 0);
    if !(u.argument.PartBinary? || u.argument.PartUnary?) {
      assert RecastUnary(u, o) == op + arg;
      ParenthesesShowAfter(op, arg);
    }
  }

  /** A range is written tight, `[a..b]`, exactly when both ends are trivial, and as `[a .. b]` otherwise. */
  lemma RangeSpacing(r: ArrayRangeExpression, o: FormatOptions)
    requires WFExpr(r.startElement) && WFExpr(r.endElement)
    ensures var s1 := RecastExpr(r.startElement, o, 0, Other);
      var s2 := RecastExpr(r.endElement, o, 0, Other);
      var tight := ExprIsTrivial(r.startElement) && ExprIsTrivial(r.endElement);
      (RecastRange(r, o) == "[" + s1 + ".." + s2 + "]" <==> tight) &&
      (!tight ==> RecastRange(r, o) == "[" + s1 + " .. " + s2 + "]")
  {
    var s1 := RecastExpr(r.startElement, o, 0, Other);
    var s2 := RecastExpr(r.endElement, o, 0, Other);
    if !(ExprIsTrivial(r.startElement) && ExprIsTrivial(r.endElement)) {
      assert RecastRange(r, o) == "[" + s1 + " .. " + s2 + "]";
      assert |"[" + s1 + " .. " + s2 + "]"| != |"[" + s1 + ".." + s2 + "]"|;
    }
  }

  /**
   * A string literal prints its value between two equal quotes: double quotes when its
   * source text (ignoring surrounding whitespace) starts with one, single quotes otherwise.
   */
  lemma StringLiteralQuotes(l: Literal)
    requires l.value.Str?
    ensures var r := RecastLiteral(l);
      2 <= |r| && r[0] == r[|r| - 1] && r[1..|r| - 1] == l.value.s &&
      (r[0] == '"' <==> StartsWith(Trim(l.raw), "\"")) &&
      (r[0] != '"' ==> r[0] == '\'')
  {
    var r := RecastLiteral(l);
    var q := if StartsWith(Trim(l.raw), "\"") then '"' else '\'';
    assert r == [q] + l.value.s + [q];
    assert r[1..|r| - 1] == l.value.s;
  }

  /**
   * A number literal keeps its source text, except that one written with a decimal point
   * whose value is integral prints in the value's canonical form.
   */
  lemma NumberLiteralText(l: Literal)
    requires l.value.Number?
    ensures RecastLiteral(l) != l.raw ==> '.' in l.raw && l.value.integral
    ensures !('.' in l.raw) ==> RecastLiteral(l) == l.raw
    ensures '.' in l.raw && l.value.integral ==> RecastLiteral(l) == l.value.canonical
  {
  }

  /**
   * A keyword call whose only argument is the unlabelled one prints exactly as the
   * positional call with that one argument.
   */
  lemma KwCallWithOnlyUnlabeled(c: CallExpressionKw, o: FormatOptions, level: nat, ctxt: ExprContext)
    requires WFCallKw(c) && c.unlabeled.Some? && c.arguments == []
    ensures RecastCallKw(c, o, level, ctxt) == RecastCall(CallExpression(c.callee, [c.unlabeled.value]), o, level, ctxt)
  {
    var u := RecastExpr(c.unlabeled.value, o, level, ctxt);
    var positional := [c.unlabeled.value];
    assert seq(1, i requires 0 <= i < |positional| => RecastExpr(positional[i], o, level, ctxt)) == [u];
  }

  /** Text after a fixed head shows whether it was wrapped. */
  lemma WrapAfter(head: string, s: string, wrap: bool)
    ensures head + MaybeWrap(s, wrap) == head + "(" + s + ")" <==> wrap
    ensures !wrap ==> head + MaybeWrap(s, wrap) == head + s
  {
    ParenthesesShowAfter(head, s);
  }

  /** Text before a fixed tail shows whether it was wrapped. */
  lemma WrapBefore(s: string, tail: string, wrap: bool)
    ensures MaybeWrap(s, wrap) + tail == "(" + s + ")" + tail <==> wrap
    ensures !wrap ==> MaybeWrap(s, wrap) + tail == s + tail
  {
    assert |"(" + s + ")" + tail| != |s + tail|;
  }

  lemma ParenthesesShowAfter(head: string, s: string)
    ensures head + "(" + s + ")" != head + s
  {
    assert |head + "(" + s + ")"| != |head + s|;
  }

  /** The identifier a chain of member accesses starts from. */
  function RootName(m: MemberExpression): string
  {
    match m.target
    case ObjMember(inner) => RootName(inner)
    case ObjIdent(name) => name
  }

  /** A member access chain prints its root identifier first and its own key last. */
  lemma {:induction false} MemberChain(m: MemberExpression)
    ensures StartsWith(RecastMember(m), RootName(m))
    ensures EndsWith(RecastMember(m), MemberKey(m))
  {
    var key := MemberKey(m);
    match m.target
    case ObjMember(inner) =>
      MemberChain(inner);
      var s := RecastMember(inner);
      assert RecastMember(m) == s + key;
      assert (s + key)[..|RootName(m)|] == s[..|RootName(m)|];
      EndsWithAppended(s, key);
    case ObjIdent(name) =>
      assert (name + key)[..|name|] == name;
      EndsWithAppended(name, key);
  }

  // ---------------------------------------------------------------------------
  // Expressions from the printer's own tests, over any identifiers

  /** An operator between two identifiers prints with one space on each side. */
  lemma IdentOperands(op: BinaryOperator, a: string, b: string, o: FormatOptions)
    ensures WFPart(PartBinary(BinaryExpression(op, PartIdent(a), PartIdent(b))))
    ensures RecastPart(PartBinary(BinaryExpression(op, PartIdent(a), PartIdent(b))), o, 0) ==
      a + " " + BinaryOperatorText(op) + " " + b
  {
    var e := BinaryExpression(op, PartIdent(a), PartIdent(b));
    assert WFPart(e.left) && WFPart(e.right);
    assert RecastPart(e.left, o, 0) == a && RecastPart(e.right, o, 0) == b;
    assert !WrapsLeft(e) && !WrapsRight(e);
    assert RecastPart(PartBinary(e), o, 0) == RecastBinary(e, o);
  }

  /** `6 / (sigmaAllow * width)`: a product under a division keeps its parentheses. */
  lemma DivisionKeepsProduct(x: string, a: string, b: string, o: FormatOptions)
    ensures WFPart(PartBinary(BinaryExpression(Mul, PartIdent(a), PartIdent(b))))
    ensures RecastBinary(BinaryExpression(Div, PartIdent(x), PartBinary(BinaryExpression(Mul, PartIdent(a), PartIdent(b)))), o) ==
      x + " / (" + a + " * " + b + ")"
  {
    IdentOperands(Mul, a, b, o);
    var e := BinaryExpression(Div, PartIdent(x), PartBinary(BinaryExpression(Mul, PartIdent(a), PartIdent(b))));
    assert RecastPart(e.left, o, 0) == x;
    assert WrapsRight(e) && !WrapsLeft(e);
  }

  /** `a - b - c` groups from the left and needs no parentheses. */
  lemma SubtractionFromLeft(a: string, b: string, c: string, o: FormatOptions)
    ensures WFPart(PartBinary(BinaryExpression(Sub, PartIdent(a), PartIdent(b))))
    ensures RecastBinary(BinaryExpression(Sub, PartBinary(BinaryExpression(Sub, PartIdent(a), PartIdent(b))), PartIdent(c)), o) ==
      a + " - " + b + " - " + c
  {
    IdentOperands(Sub, a, b, o);
    var e := BinaryExpression(Sub, PartBinary(BinaryExpression(Sub, PartIdent(a), PartIdent(b))), PartIdent(c));
    assert RecastPart(e.right, o, 0) == c;
    assert !WrapsRight(e) && !WrapsLeft(e);
  }

  /** `a - (b - c)` keeps its parentheses. */
  lemma SubtractionOnRight(a: string, b: string, c: string, o: FormatOptions)
    ensures WFPart(PartBinary(BinaryExpression(Sub, PartIdent(b), PartIdent(c))))
    ensures RecastBinary(BinaryExpression(Sub, PartIdent(a), PartBinary(BinaryExpression(Sub, PartIdent(b), PartIdent(c)))), o) ==
      a + " - (" + b + " - " + c + ")"
  {
    IdentOperands(Sub, b, c, o);
    var e := BinaryExpression(Sub, PartIdent(a), PartBinary(BinaryExpression(Sub, PartIdent(b), PartIdent(c))));
    assert RecastPart(e.left, o, 0) == a;
    assert WrapsRight(e) && !WrapsLeft(e);
  }

  /** `-(wallMountL - thickness)`: a negated difference keeps its parentheses. */
  lemma NegatedDifference(w: string, t: string, o: FormatOptions)
    ensures WFPart(PartBinary(BinaryExpression(Sub, PartIdent(w), PartIdent(t))))
    ensures RecastUnary(UnaryExpression(Neg, PartBinary(BinaryExpression(Sub, PartIdent(w), PartIdent(t)))), o) ==
      "-(" + w + " - " + t + ")"
  {
    IdentOperands(Sub, w, t, o);
  }

  // ---------------------------------------------------------------------------
  // Grouping of operators that bind equally

  /**
   * The printer wraps an equally binding right operand only under a subtraction or a
   * division, so under any other operator the two groupings of three operands print as
   * the same text: `a op1 (b op2 c)` and `(a op1 b) op2 c` both read `a op1 b op2 c`.
   */
  lemma EqualPrecedenceGroupingsCollide(op1: BinaryOperator, op2: BinaryOperator, x: BinaryPart, y: BinaryPart, z: BinaryPart, o: FormatOptions)
    requires WFPart(x) && WFPart(y) && WFPart(z)
    requires !x.PartBinary? && !y.PartBinary? && !z.PartBinary?
    requires Precedence(op1) == Precedence(op2) && op1 != Sub && op1 != Div
    ensures var rightGrouped := BinaryExpression(op1, x, PartBinary(BinaryExpression(op2, y, z)));
      var leftGrouped := BinaryExpression(op2, PartBinary(BinaryExpression(op1, x, y)), z);
      RecastBinary(rightGrouped, o) == RecastBinary(leftGrouped, o) ==
        RecastPart(x, o, 0) + " " + BinaryOperatorText(op1) + " " + RecastPart(y, o, 0) + " " +
        BinaryOperatorText(op2) + " " + RecastPart(z, o, 0)
  {
    RightGroupedText(op1, op2, x, y, z, o);
    LeftGroupedText(op1, op2, x, y, z, o);
  }

  /** `x op1 (y op2 z)` with equally binding operators and `op1` neither `-` nor `/` prints bare. */
  lemma RightGroupedText(op1: BinaryOperator, op2: BinaryOperator, x: BinaryPart, y: BinaryPart, z: BinaryPart, o: FormatOptions)
    requires WFPart(x) && WFPart(y) && WFPart(z)
    requires !x.PartBinary? && !y.PartBinary? && !z.PartBinary?
    requires Precedence(op1) == Precedence(op2) && op1 != Sub && op1 != Div
    ensures RecastBinary(BinaryExpression(op1, x, PartBinary(BinaryExpression(op2, y, z))), o) ==
      RecastPart(x, o, 0) + " " + BinaryOperatorText(op1) + " " + RecastPart(y, o, 0) + " " +
      BinaryOperatorText(op2) + " " + RecastPart(z, o, 0)
  {
    var X, Y, Z := RecastPart(x, o, 0), RecastPart(y, o, 0), RecastPart(z, o, 0);
    var t1, t2 := BinaryOperatorText(op1), BinaryOperatorText(op2);
    var inner := BinaryExpression(op2, y, z);
    BareOperands(op2, y, z, o);
    var rightGrouped := BinaryExpression(op1, x, PartBinary(inner));
    assert !WrapsRight(rightGrouped) by {
      assert !(Precedence(op1) > Precedence(inner.operator));
    }
    UnwrappedText(rightGrouped, o);
    Regroup(X, t1, Y, t2, Z);
  }

  lemma Regroup(x: string, t1: string, y: string, t2: string, z: string)
    ensures x + " " + t1 + " " + (y + " " + t2 + " " + z) == x + " " + t1 + " " + y + " " + t2 + " " + z
  {
  }

  /** `(x op1 y) op2 z` with equally binding operators prints bare. */
  lemma LeftGroupedText(op1: BinaryOperator, op2: BinaryOperator, x: BinaryPart, y: BinaryPart, z: BinaryPart, o: FormatOptions)
    requires WFPart(x) && WFPart(y) && WFPart(z)
    requires !x.PartBinary? && !y.PartBinary? && !z.PartBinary?
    requires Precedence(op1) == Precedence(op2)
    ensures RecastBinary(BinaryExpression(op2, PartBinary(BinaryExpression(op1, x, y)), z), o) ==
      RecastPart(x, o, 0) + " " + BinaryOperatorText(op1) + " " + RecastPart(y, o, 0) + " " +
      BinaryOperatorText(op2) + " " + RecastPart(z, o, 0)
  {
    BareOperands(op1, x, y, o);
    var leftGrouped := BinaryExpression(op2, PartBinary(BinaryExpression(op1, x, y)), z);
    assert !WrapsLeft(leftGrouped) && !WrapsRight(leftGrouped);
    UnwrappedText(leftGrouped, o);
  }

  /** A binary expression whose operands need no parentheses prints them one space either side of the operator. */
  lemma UnwrappedText(e: BinaryExpression, o: FormatOptions)
    requires WFPart(e.left) && WFPart(e.right) && !WrapsLeft(e) && !WrapsRight(e)
    ensures RecastBinary(e, o) == RecastPart(e.left, o, 0) + " " + BinaryOperatorText(e.operator) + " " + RecastPart(e.right, o, 0)
  {
  }

  /** Two operands that are not operator expressions print bare, one space either side of the operator. */
  lemma BareOperands(op: BinaryOperator, x: BinaryPart, y: BinaryPart, o: FormatOptions)
    requires WFPart(x) && WFPart(y) && !x.PartBinary? && !y.PartBinary?
    ensures RecastPart(PartBinary(BinaryExpression(op, x, y)), o, 0) ==
      RecastPart(x, o, 0) + " " + BinaryOperatorText(op) + " " + RecastPart(y, o, 0)
  {
    var e := BinaryExpression(op, x, y);
    assert !WrapsLeft(e) && !WrapsRight(e);
    assert RecastPart(PartBinary(e), o, 0) == RecastBinary(e, o);
  }

  /** `(a ^ b) ^ c` and `a ^ (b ^ c)` both print as `a ^ b ^ c`. */
  lemma PowGroupingsCollide(a: string, b: string, c: string, o: FormatOptions)
    ensures WFPart(PartBinary(BinaryExpression(Pow, PartIdent(a), PartIdent(b))))
    ensures WFPart(PartBinary(BinaryExpression(Pow, PartIdent(b), PartIdent(c))))
    ensures RecastBinary(BinaryExpression(Pow, PartBinary(BinaryExpression(Pow, PartIdent(a), PartIdent(b))), PartIdent(c)), o) ==
      a + " ^ " + b + " ^ " + c
    ensures RecastBinary(BinaryExpression(Pow, PartIdent(a), PartBinary(BinaryExpression(Pow, PartIdent(b), PartIdent(c)))), o) ==
      a + " ^ " + b + " ^ " + c
  {
    EqualPrecedenceGroupingsCollide(Pow, Pow, PartIdent(a), PartIdent(b), PartIdent(c), o);
  }

  /** `a * (b % c)` and `(a * b) % c`, whose values differ, both print as `a * b % c`. */
  lemma MulModGroupingsCollide(a: string, b: string, c: string, o: FormatOptions)
    ensures WFPart(PartBinary(BinaryExpression(Mod, PartIdent(b), PartIdent(c))))
    ensures WFPart(PartBinary(BinaryExpression(Mul, PartIdent(a), PartIdent(b))))
    ensures RecastBinary(BinaryExpression(Mul, PartIdent(a), PartBinary(BinaryExpression(Mod, PartIdent(b), PartIdent(c)))), o) ==
      a + " * " + b + " % " + c
    ensures RecastBinary(BinaryExpression(Mod, PartBinary(BinaryExpression(Mul, PartIdent(a), PartIdent(b))), PartIdent(c)), o) ==
      a + " * " + b + " % " + c
  {
    EqualPrecedenceGroupingsCollide(Mul, Mod, PartIdent(a), PartIdent(b), PartIdent(c), o);
  }

  /** Operators for which both groupings of `a op b op c` mean the same. */
  predicate Associative(op: BinaryOperator)
  {
    op == Add || op == Mul || op == And || op == Or
  }

  /**
   * The corrected rule for the right operand: everything the printer wraps, and also an
   * equally binding right operand unless it repeats the parent's own associative operator.
   */
  predicate WrapsRightIntended(b: BinaryExpression)
  {
    WrapsRight(b) ||
    (b.right.PartBinary? && Precedence(b.operator) == Precedence(b.right.bin.operator) &&
     !(b.operator == b.right.bin.operator && Associative(b.operator)))
  }

  /** Operator expressions printed under the corrected rule; every other operand prints as the printer does. */
  function RecastPartIntended(p: BinaryPart, o: FormatOptions): string
    requires WFPart(p)
  {
    match p
    case PartBinary(b) => RecastBinaryIntended(b, o)
    case PartUnary(u) =>
      UnaryOperatorText(u.operator) +
      MaybeWrap(RecastPartIntended(u.argument, o), u.argument.PartBinary? || u.argument.PartUnary?)
    case _ => RecastPart(p, o, 0)
  }

  /** `BinaryExpression::recast` with the corrected right-operand rule. */
  function RecastBinaryIntended(b: BinaryExpression, o: FormatOptions): string
    requires WFPart(b.left) && WFPart(b.right)
  {
    MaybeWrap(RecastPartIntended(b.left, o), WrapsLeft(b)) + " " + BinaryOperatorText(b.operator) + " " +
    MaybeWrap(RecastPartIntended(b.right, o), WrapsRightIntended(b))
  }

  /**
   * Under the corrected rule the right operand is parenthesised exactly when the printer
   * already wraps it, or it binds as strongly as the parent without repeating an
   * associative parent operator.
   */
  lemma IntendedRightOperandParentheses(b: BinaryExpression, o: FormatOptions)
    requires WFPart(b.left) && WFPart(b.right)
    ensures var head := MaybeWrap(RecastPartIntended(b.left, o), WrapsLeft(b)) + " " + BinaryOperatorText(b.operator) + " ";
      var right := RecastPartIntended(b.right, o);
      var wrap := WrapsRight(b) ||
        (b.right.PartBinary? && Precedence(b.operator) == Precedence(b.right.bin.operator) &&
         !(b.operator == b.right.bin.operator && Associative(b.operator)));
      (RecastBinaryIntended(b, o) == head + "(" + right + ")" <==> wrap) &&
      (!wrap ==> RecastBinaryIntended(b, o) == head + right)
  {
    var head := MaybeWrap(RecastPartIntended(b.left, o), WrapsLeft(b)) + " " + BinaryOperatorText(b.operator) + " ";
    var right := RecastPartIntended(b.right, o);
    WrapAfter(head, right, WrapsRightIntended(b));
  }

  /**
   * Under the corrected rule the two groupings of three operands joined by equally binding
   * operators print differently, unless both operators are the same associative one, where
   * the two groupings mean the same.
   */
  lemma IntendedGroupingsDiffer(op1: BinaryOperator, op2: BinaryOperator, x: BinaryPart, y: BinaryPart, z: BinaryPart, o: FormatOptions)
    requires WFPart(x) && WFPart(y) && WFPart(z)
    requires !x.PartBinary? && !y.PartBinary? && !z.PartBinary?
    requires Precedence(op1) == Precedence(op2) && !(op1 == op2 && Associative(op1))
    ensures var rightGrouped := BinaryExpression(op1, x, PartBinary(BinaryExpression(op2, y, z)));
      var leftGrouped := BinaryExpression(op2, PartBinary(BinaryExpression(op1, x, y)), z);
      RecastBinaryIntended(rightGrouped, o) != RecastBinaryIntended(leftGrouped, o)
  {
    var rightGrouped := BinaryExpression(op1, x, PartBinary(BinaryExpression(op2, y, z)));
    var leftGrouped := BinaryExpression(op2, PartBinary(BinaryExpression(op1, x, y)), z);
    var X, Y, Z := RecastPartIntended(x, o), RecastPartIntended(y, o), RecastPartIntended(z, o);
    var t1, t2 := BinaryOperatorText(op1), BinaryOperatorText(op2);
    assert WrapsRightIntended(rightGrouped) && !WrapsLeft(rightGrouped);
    assert !WrapsLeft(leftGrouped) && !WrapsRightIntended(leftGrouped);
    assert RecastBinaryIntended(BinaryExpression(op2, y, z), o) == Y + " " + t2 + " " + Z;
    assert RecastBinaryIntended(BinaryExpression(op1, x, y), o) == X + " " + t1 + " " + Y;
    assert RecastBinaryIntended(rightGrouped, o) == X + " " + t1 + " " + "(" + (Y + " " + t2 + " " + Z) + ")";
    assert RecastBinaryIntended(leftGrouped, o) == (X + " " + t1 + " " + Y) + " " + t2 + " " + Z;
    assert |RecastBinaryIntended(rightGrouped, o)| == |RecastBinaryIntended(leftGrouped, o)| + 2;
  }

  /** Under the corrected rule `a * (b % c)` keeps its parentheses and `(a * b) % c` prints bare. */
  lemma IntendedMulMod(a: string, b: string, c: string, o: FormatOptions)
    ensures WFPart(PartBinary(BinaryExpression(Mod, PartIdent(b), PartIdent(c))))
    ensures WFPart(PartBinary(BinaryExpression(Mul, PartIdent(a), PartIdent(b))))
    ensures RecastBinaryIntended(BinaryExpression(Mul, PartIdent(a), PartBinary(BinaryExpression(Mod, PartIdent(b), PartIdent(c)))), o) ==
      a + " * (" + b + " % " + c + ")"
    ensures RecastBinaryIntended(BinaryExpression(Mod, PartBinary(BinaryExpression(Mul, PartIdent(a), PartIdent(b))), PartIdent(c)), o) ==
      a + " * " + b + " % " + c
  {
    var inner := BinaryExpression(Mod, PartIdent(b), PartIdent(c));
    var product := BinaryExpression(Mul, PartIdent(a), PartIdent(b));
    assert RecastPartIntended(PartIdent(a), o) == a;
    assert RecastPartIntended(PartIdent(b), o) == b;
    assert RecastPartIntended(PartIdent(c), o) == c;
    assert !WrapsLeft(inner) && !WrapsRightIntended(inner);
    assert RecastBinaryIntended(inner, o) == b + " % " + c;
    assert !WrapsLeft(product) && !WrapsRightIntended(product);
    assert RecastBinaryIntended(product, o) == a + " * " + b;
    var rightGrouped := BinaryExpression(Mul, PartIdent(a), PartBinary(inner));
    assert !WrapsLeft(rightGrouped) && WrapsRightIntended(rightGrouped);
    assert RecastPartIntended(PartBinary(inner), o) == b + " % " + c;
    var leftGrouped := BinaryExpression(Mod, PartBinary(product), PartIdent(c));
    assert !WrapsLeft(leftGrouped) && !WrapsRightIntended(leftGrouped);
    assert RecastPartIntended(PartBinary(product), o) == a + " * " + b;
  }
}
