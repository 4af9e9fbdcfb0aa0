/**
 * `FunctionExpression::recast`, `Parameter::recast` and `FnArgType::recast`: the
 * parameter list of a function, the object type built by pushing `" <param>,"` per
 * property and popping the last comma, and the body printed without a final newline.
 */
module Functions {
  import opened Text
  import opened Ast
  import opened Format
  import opened Recast
  import opened Programs

  /** `FnArgType::recast`. */
  method RecastArgType(t: FnArgType, o: FormatOptions, level: nat) returns (r: string)
    ensures r == RecastFnArgType(t, o, level)
  {
    match t
    case Primitive(name) =>
      r := name;
    case ArrayOf(name) =>
      r := name + "[]";
    case ObjectType(ps) =>
      r := RecastObjectType(ps, o, level);
  }

  /**
   * The object case: `{`, then ` <param>,` for every property; a trailing comma is
   * popped and replaced by a space before the closing brace.
   */
  method RecastObjectType(ps: seq<Parameter>, o: FormatOptions, level: nat) returns (r: string)
    ensures r == RecastFnArgType(ObjectType(ps), o, level)
  {
    ghost var texts := ParameterTexts(ps, o, level, ObjectType(ps));
    r := "{";
    var i := 0;
    while i < |ps|
      invariant 0 <= i <= |ps|
      invariant r == if i == 0 then "{" else "{ " + Join(texts[..i], ", ") + ","
    {
      JoinPrefixSnoc(texts, i + 1, ", ");
      var param := RecastParameter(ps[i], o, level);
      assert param == texts[i];
      if i > 0 {
        PropertyPushed(Join(texts[..i], ", "), param);
      }
      r := r + " ";
      r := r + param;
      r := r + ",";
      i := i + 1;
    }
    assert texts[..|ps|] == texts;
    if |r| > 0 && r[|r| - 1] == ',' {
      r := r[..|r| - 1];
      r := r + " ";
    }
    r := r + "}";
  }

  /** One more property pushed after the earlier ones. */
  lemma PropertyPushed(earlier: string, param: string)
    ensures "{ " + earlier + "," + " " + param + "," == "{ " + (earlier + ", " + param) + ","
  {
  }

  // ---------------------------------------------------------------------------
  // Properties

  /**
   * A parameter's text depends on neither the options nor the indentation level: no
   * part of it is indented, so nested object types print the same at any depth.
   */
  lemma {:induction false} ParameterIgnoresLayout(p: Parameter, o: FormatOptions, level: nat, o2: FormatOptions, level2: nat)
    ensures RecastParameter(p, o, level) == RecastParameter(p, o2, level2)
    decreases p
  {
    match p.type_
    case Some(t) => ArgTypeIgnoresLayout(t, o, level, o2, level2);
    case None =>
  }

  /** The same for argument types. */
  lemma {:induction false} ArgTypeIgnoresLayout(t: FnArgType, o: FormatOptions, level: nat, o2: FormatOptions, level2: nat)
    ensures RecastFnArgType(t, o, level) == RecastFnArgType(t, o2, level2)
    decreases t
  {
    match t
    case ObjectType(ps) =>
      forall i | 0 <= i < |ps|
        ensures RecastParameter(ps[i], o, level) == RecastParameter(ps[i], o2, level2)
      {
        ParameterIgnoresLayout(ps[i], o, level, o2, level2);
      }
      assert ParameterTexts(ps, o, level, t) == ParameterTexts(ps, o2, level2, t);
    case _ =>
  }

  /** The `@`, name and `?` that open a parameter's text. */
  function ParameterHead(p: Parameter): string
  {
    (if p.labeled then "" else "@") + p.identifier + (if p.defaultValue.Some? then "?" else "")
  }

  /** `RecastParameter` as its head, its optional type and its optional literal default. */
  lemma ParameterParts(p: Parameter, o: FormatOptions, level: nat)
    ensures var typed := match p.type_ case Some(t) => ": " + RecastFnArgType(t, o, level) case None => "";
      var defaultText := match p.defaultValue case Some(LiteralDefault(lit)) => " = " + RecastLiteral(lit) case _ => "";
      RecastParameter(p, o, level) == ParameterHead(p) + typed + defaultText
  {
  }

  /**
   * A parameter prints as `@` when it is unlabeled, its name, and `?` when it has a
   * default; a type follows after `: `, and only a literal default is printed, after ` = `.
   */
  lemma ParameterShape(p: Parameter, o: FormatOptions, level: nat)
    ensures var head := (if p.labeled then "" else "@") + p.identifier + (if p.defaultValue.Some? then "?" else "");
      var r := RecastParameter(p, o, level);
      StartsWith(r, head) &&
      (p.type_.None? && !(p.defaultValue.Some? && p.defaultValue.value.LiteralDefault?) ==> r == head) &&
      (p.defaultValue.Some? && p.defaultValue.value.LiteralDefault? ==> EndsWith(r, " = " + RecastLiteral(p.defaultValue.value.lit))) &&
      (p.type_.Some? && !(p.defaultValue.Some? && p.defaultValue.value.LiteralDefault?) ==>
        r == head + ": " + RecastFnArgType(p.type_.value, o, level)) &&
      (p.type_.None? && p.defaultValue.Some? && p.defaultValue.value.LiteralDefault? ==>
        r == head + " = " + RecastLiteral(p.defaultValue.value.lit)) &&
      (p.type_.Some? && p.defaultValue.Some? && p.defaultValue.value.LiteralDefault? ==>
        r == head + ": " + RecastFnArgType(p.type_.value, o, level) + " = " + RecastLiteral(p.defaultValue.value.lit))
  {
    var head := ParameterHead(p);
    var typed := match p.type_ case Some(t) => ": " + RecastFnArgType(t, o, level) case None => "";
    var defaultText := match p.defaultValue case Some(LiteralDefault(lit)) => " = " + RecastLiteral(lit) case _ => "";
    var r := RecastParameter(p, o, level);
    ParameterParts(p, o, level);
    StartsWithAppended(head, typed, defaultText);
    EndsWithAppended(head + typed, defaultText);
    var literal := p.defaultValue.Some? && p.defaultValue.value.LiteralDefault?;
    if !literal {
      assert defaultText == "";
      assert r == head + typed;
    } else if p.type_.None? {
      assert typed == "";
      assert r == head + defaultText;
    } else {
      assert typed == ": " + RecastFnArgType(p.type_.value, o, level);
      assert defaultText == " = " + RecastLiteral(p.defaultValue.value.lit);
    }
  }


  /** An object type with properties ends with its last property and ` }`: the trailing comma is gone. */
  lemma ObjectTypeClosed(ps: seq<Parameter>, o: FormatOptions, level: nat)
    ensures var r := RecastFnArgType(ObjectType(ps), o, level);
      (ps == [] <==> r == "{}") &&
      (ps != [] ==> StartsWith(r, "{ ") && EndsWith(r, RecastParameter(ps[|ps| - 1], o, level) + " }"))
  {
    var r := RecastFnArgType(ObjectType(ps), o, level);
    if ps != [] {
      var texts := ParameterTexts(ps, o, level, ObjectType(ps));
      var j := Join(texts, ", ");
      assert r == "{ " + j + " }";
      StartsWithAppended("{ ", j, " }");
      JoinEndsWithOwnLast(texts, ", ");
      var last := texts[|texts| - 1];
      var before := j[..|j| - |last|];
      assert j == before + last;
      assert r == ("{ " + before) + (last + " }");
      EndsWithAppended("{ " + before, last + " }");
    }
  }

  /** A join ends with its last part. */
  lemma JoinEndsWithOwnLast(xs: seq<string>, sep: string)
    requires xs != []
    ensures EndsWith(Join(xs, sep), xs[|xs| - 1])
  {
    var last := xs[|xs| - 1];
    if |xs| >= 2 {
      var init := Join(xs[..|xs| - 1], sep) + sep;
      assert Join(xs, sep) == init + last;
      EndsWithAppended(init, last);
    } else {
      EndsWithAppended([], last);
    }
  }

  /** `{ width: number, tag? }`: a typed property and a property with an empty default. */
  lemma ObjectTypeExample(a: string, ty: string, b: string, o: FormatOptions, level: nat)
    ensures RecastFnArgType(ObjectType([Parameter(a, Some(Primitive(ty)), None, true), Parameter(b, None, Some(KclNone), true)]), o, level) ==
      "{ " + a + ": " + ty + ", " + b + "? }"
  {
    var ps := [Parameter(a, Some(Primitive(ty)), None, true), Parameter(b, None, Some(KclNone), true)];
    var texts := ParameterTexts(ps, o, level, ObjectType(ps));
    assert RecastFnArgType(Primitive(ty), o, level) == ty;
    assert texts[0] == RecastParameter(ps[0], o, level) == "" + a + "" + ": " + ty + "";
    assert texts[1] == RecastParameter(ps[1], o, level) == "" + b + "?" + "" + "";
    assert |texts| == 2;
    assert texts[..1] == [texts[0]];
    assert Join(texts, ", ") == a + ": " + ty + ", " + (b + "?");
  }

  /**
   * A function prints the same whatever the caller asks for a final newline: nested
   * bodies never end with one.
   */
  lemma FunctionIgnoresFinalNewline(f: FunctionExpression, o: FormatOptions, level: nat, b: bool)
    requires WFProgram(f.body)
    ensures RecastFunction(f, o, level) == RecastFunction(f, o.(insertFinalNewline := b), level)
  {
    var o2 := o.(insertFinalNewline := b);
    var ps := f.params;
    forall i | 0 <= i < |ps|
      ensures RecastParameter(ps[i], o, level) == RecastParameter(ps[i], o2, level)
    {
      ParameterIgnoresLayout(ps[i], o, level, o2, level);
    }
    assert seq(|ps|, i requires 0 <= i < |ps| => RecastParameter(ps[i], o, level)) ==
      seq(|ps|, i requires 0 <= i < |ps| => RecastParameter(ps[i], o2, level));
    assert Indentation(o, level) == Indentation(o2, level);
    assert Indentation(o, level + 1) == Indentation(o2, level + 1);
  }

  /**
   * The body sits between the opening line and the closing brace with no whitespace at
   * either edge, so no blank line precedes the closing brace, which is indented at the
   * function's own level.
   */
  lemma FunctionBodyTrimmed(f: FunctionExpression, o: FormatOptions, level: nat)
    requires WFProgram(f.body)
    ensures var body := RecastProgram(f.body, o.(insertFinalNewline := false), level + 1);
      NoEdgeWhitespace(body) &&
      EndsWith(RecastFunction(f, o, level), Indentation(o, level + 1) + body + "\n" + Indentation(o, level) + "}")
  {
    var o2 := o.(insertFinalNewline := false);
    FinalNewline(f.body, o2, level + 1);
    FunctionEnds(f, o, level);
  }

  /** The function's text ends with the indented body and the closing brace at the function's level. */
  lemma FunctionEnds(f: FunctionExpression, o: FormatOptions, level: nat)
    requires WFProgram(f.body)
    ensures var body := RecastProgram(f.body, o.(insertFinalNewline := false), level + 1);
      EndsWith(RecastFunction(f, o, level), Indentation(o, level + 1) + body + "\n" + Indentation(o, level) + "}")
  {
    var o2 := o.(insertFinalNewline := false);
    var ps := f.params;
    var paramList := Join(seq(|ps|, i requires 0 <= i < |ps| => RecastParameter(ps[i], o, level)), ", ");
    var returnType := match f.returnType case Some(rt) => ": " + RecastFnArgType(rt, o2, level) case None => "";
    var body := RecastProgram(f.body, o2, level + 1);
    FunctionTextEnds(paramList, returnType, body, Indentation(o, level), Indentation(o, level + 1));
  }

  lemma FunctionTextEnds(paramList: string, returnType: string, body: string, tab0: string, tab1: string)
    ensures EndsWith(FunctionText(paramList, returnType, body, tab0, tab1), tab1 + body + "\n" + tab0 + "}")
  {
    var head := "(" + paramList + ")" + returnType + " {\n";
    var tail := tab1 + body + "\n" + tab0 + "}";
    assert FunctionText(paramList, returnType, body, tab0, tab1) == head + tail;
    EndsWithAppended(head, tail);
  }
}
