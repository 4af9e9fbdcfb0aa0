/**
 * The KCL printer ("recast"): a program tree, the format options and an indentation
 * level in, formatted source text out.  Every printer of `unparser.rs` is one function
 * here, in the same mutually recursive arrangement.  The printers whose Rust bodies
 * build their text step by step are stated here as values (joins, concatenations and
 * index-by-index recursions); the methods beside them in the other modules carry out
 * those steps and are proved to produce these values.
 */
module Recast {
  import opened Text
  import opened Ast
  import opened Format

  /** Where an expression is being printed. */
  datatype ExprContext = Pipe | Decl | Other

  /** The widest flat rendering, in bytes, that an array or object keeps on one line. */
  const MaxArrayLength: nat := 40

  // ---------------------------------------------------------------------------
  // Printers that do not reach back into expressions

  function RecastLiteral(l: Literal): string
  {
    match l.value
    case Number(integral, canonical) => if '.' in l.raw && integral then canonical else l.raw
    case Str(s) =>
      var quote := if StartsWith(Trim(l.raw), "\"") then '"' else '\'';
      [quote] + s + [quote]
    case Bool(_) => l.raw
  }

  function RecastTag(t: TagDeclarator): string
  {
    "$" + t.name
  }

  function MemberKey(m: MemberExpression): string
  {
    match m.property
    case PropIdent(name) => if m.computed then "[" + name + "]" else "." + name
    case PropLiteral(lit) => "[" + lit.raw + "]"
  }

  function RecastMember(m: MemberExpression): string
  {
    match m.target
    case ObjMember(inner) => RecastMember(inner) + MemberKey(m)
    case ObjIdent(name) => name + MemberKey(m)
  }

  /** `expr_is_trivial`: a literal, identifier, tag, `%` or the absent value. */
  predicate ExprIsTrivial(e: Expr)
  {
    match e
    case LiteralExpr(_) | IdentExpr(_) | TagExpr(_) | PipeSubstitution | NoneExpr => true
    case BinaryExpr(_) | FunctionExpr(_) | CallExpr(_) | CallKwExpr(_) | PipeExpr(_)
       | ArrayExpr(_) | RangeExpr(_) | ObjectExpr(_) | MemberExpr(_) | UnaryExpr(_)
       | IfExpr(_) | LabelledExpr(_, _) => false
  }

  function ImportItemText(item: ImportItem): string
  {
    match item.alias
    case Some(alias) => if item.name != alias then item.name + " as " + alias else item.name
    case None => item.name
  }

  function ImportItemTexts(items: seq<ImportItem>): seq<string>
  {
    seq(|items|, i requires 0 <= i < |items| => ImportItemText(items[i]))
  }

  function ImportHead(s: ImportStatement, o: FormatOptions, level: nat): string
  {
    (if s.visibility == Export then "export " else "") + Indentation(o, level) + "import "
  }

  function RecastImport(s: ImportStatement, o: FormatOptions, level: nat): string
  {
    var selector :=
      match s.selector
      case List(items) => Join(ImportItemTexts(items), ", ") + " from "
      case Glob => "* from "
      case NoSelector(_) => "";
    var alias :=
      match s.selector
      case NoSelector(Some(a)) => " as " + a
      case _ => "";
    ImportHead(s, o, level) + selector + "\"" + s.path + "\"" + alias
  }

  function RecastParameter(p: Parameter, o: FormatOptions, level: nat): string
    decreases p
  {
    var atSign := if p.labeled then "" else "@";
    var questionMark := if p.defaultValue.Some? then "?" else "";
    var typed :=
      match p.type_
      case Some(t) => ": " + RecastFnArgType(t, o, level)
      case None => "";
    var defaultText :=
      match p.defaultValue
      case Some(LiteralDefault(lit)) => " = " + RecastLiteral(lit)
      case _ => "";
    atSign + p.identifier + questionMark + typed + defaultText
  }

  function ParameterTexts(ps: seq<Parameter>, o: FormatOptions, level: nat, ghost parent: FnArgType): seq<string>
    requires parent.ObjectType? && ps == parent.properties
    decreases parent, 0
  {
    seq(|ps|, i requires 0 <= i < |ps| => RecastParameter(ps[i], o, level))
  }

  function RecastFnArgType(t: FnArgType, o: FormatOptions, level: nat): string
    decreases t, 1
  {
    match t
    case Primitive(name) => name
    case ArrayOf(name) => name + "[]"
    case ObjectType(ps) =>
      if ps == [] then "{}" else "{ " + Join(ParameterTexts(ps, o, level, t), ", ") + " }"
  }

  /** Some trivia node of the slot forces a multi-line layout. */
  predicate SlotForces(slot: Slot)
  {
    exists j :: 0 <= j < |slot.nodes| && ShouldCauseArrayNewline(slot.nodes[j].value)
  }

  /** Some slot at a position below `bound` forces a multi-line layout. */
  predicate ForcingBelow(slots: seq<Slot>, bound: nat)
  {
    exists k :: 0 <= k < |slots| && slots[k].index < bound && SlotForces(slots[k])
  }

  /** The trivia an array visits (positions below its item count) forces a multi-line layout. */
  predicate ArrayHasForcingTrivia(a: ArrayExpression)
  {
    ForcingBelow(a.meta.nonCodeNodes, ArrayItemCount(a))
  }

  /** Any trivia node of an object, at whatever position, forces a multi-line layout. */
  predicate ObjectHasForcingTrivia(obj: ObjectExpression)
  {
    exists k :: 0 <= k < |obj.meta.nonCodeNodes| && SlotForces(obj.meta.nonCodeNodes[k])
  }

  function ArrayItemCount(a: ArrayExpression): nat
  {
    |a.elements| + NonCodeNodesLen(a.meta.nonCodeNodes)
  }

  function ObjectItemCount(obj: ObjectExpression): nat
  {
    |obj.properties| + NonCodeNodesLen(obj.meta.nonCodeNodes)
  }

  /** `format_items.last_mut()`: the last item loses one trailing `", "`. */
  function StripLastComma(items: seq<string>): seq<string>
  {
    if items == [] then [] else items[..|items| - 1] + [StripSuffixOr(items[|items| - 1], ", ")]
  }

  /** Positions of a container: one per element and one per trivia node, as `num_items` counts them. */
  function PositionCount(slots: seq<Slot>, texts: seq<string>): nat
  {
    |texts| + NonCodeNodesLen(slots)
  }

  /** The element iterator after position `i`: advanced exactly when no trivia is recorded there. */
  function NextElement(slots: seq<Slot>, i: nat, e: nat): nat
  {
    if SlotOf(slots, i).None? then e + 1 else e
  }

  /**
   * The body of the `flat_map` over positions, for a container whose trivia slots print
   * as `slotTexts` and whose elements print as `texts`: at position `i`, with `e`
   * elements used, the printed trivia recorded there, or else the next element followed
   * by `sep`, or by `lastSep` at the last position.
   */
  function PositionPart(slots: seq<Slot>, slotTexts: seq<seq<string>>, texts: seq<string>, sep: string, lastSep: string, i: nat, e: nat): seq<string>
    requires |slotTexts| == |slots| && i < PositionCount(slots, texts)
    requires e + FreeSlots(slots, i, PositionCount(slots, texts)) <= |texts|
  {
    match SlotOf(slots, i)
    case Some(k) => slotTexts[k]
    case None => [texts[e] + (if i == PositionCount(slots, texts) - 1 then lastSep else sep)]
  }

  /** The items of the positions from `i` on, `e` elements having been used. */
  function PositionItems(slots: seq<Slot>, slotTexts: seq<seq<string>>, texts: seq<string>, sep: string, lastSep: string, i: nat, e: nat): seq<string>
    requires |slotTexts| == |slots|
    requires e + FreeSlots(slots, i, PositionCount(slots, texts)) <= |texts|
    decreases PositionCount(slots, texts) - i
  {
    if i >= PositionCount(slots, texts) then []
    else
      PositionPart(slots, slotTexts, texts, sep, lastSep, i, e) +
      PositionItems(slots, slotTexts, texts, sep, lastSep, i + 1, NextElement(slots, i, e))
  }

  /** One line of a multi-line array. */
  function ArrayLine(inner: string, item: string): string
  {
    inner + StripSuffixOr(item, " ") + (if EndsWith(item, "\n") then "" else "\n")
  }

  function ContainerIndentation(o: FormatOptions, level: nat, ctxt: ExprContext): string
  {
    if ctxt == Pipe then IndentationOffsetPipe(o, level) else Indentation(o, level)
  }

  /** The one-line form of an array with the given items. */
  function ArrayFlatText(items: seq<string>): string
  {
    "[" + Concat(items) + "]"
  }

  /** The multi-line form of an array with the given items: one line per item. */
  function ArrayMultiLineText(items: seq<string>, o: FormatOptions, level: nat, ctxt: ExprContext): string
  {
    "[\n" + ArrayLines(ContainerIndentation(o, level + 1, ctxt), items) + ContainerIndentation(o, level, ctxt) + "]"
  }

  /** The lines of a multi-line array, one after another. */
  function ArrayLines(inner: string, items: seq<string>): string
  {
    if items == [] then "" else ArrayLines(inner, items[..|items| - 1]) + ArrayLine(inner, items[|items| - 1])
  }

  function MaybeWrap(s: string, wrap: bool): string
  {
    if wrap then "(" + s + ")" else s
  }

  predicate WrapsLeft(b: BinaryExpression)
  {
    b.left.PartBinary? && Precedence(b.operator) > Precedence(b.left.bin.operator)
  }

  predicate WrapsRight(b: BinaryExpression)
  {
    b.right.PartBinary? &&
    (Precedence(b.operator) > Precedence(b.right.bin.operator) || b.operator == Sub || b.operator == Div)
  }

  /** A line comment on its own line: the trimmed text after the marker, or a bare marker when there is none. */
  function LineCommentText(value: string): string
  {
    if Trim(value) == [] then "//" else "// " + Trim(value)
  }

  /** The text of a comment between its markers: `/* value */`, or a line comment's trimmed text. */
  function CommentBody(value: string, style: CommentStyle): string
  {
    match style
    case Block => "/* " + value + " */"
    case Line => LineCommentText(value)
  }

  /** A line comment ends its line; a block comment does not. */
  function CommentEnd(style: CommentStyle): string
  {
    if style == Line then "\n" else ""
  }

  /**
   * `Node<NonCodeNode>::recast` once the indentation and, for an annotation with
   * properties, the joined `key = value` texts are known.
   */
  function NonCodeText(n: NonCodeNode, indentation: string, props: string): string
  {
    match n.value
    case InlineComment(value, Line) => " // " + value + "\n"
    case InlineComment(value, Block) => " " + CommentBody(value, Block) + ""
    case BlockComment(value, style) => indentation + CommentBody(value, style) + CommentEnd(style)
    case NewLineBlockComment(value, style) =>
      var addStartNewLine := if n.start == 0 then "" else "\n\n";
      addStartNewLine + indentation + CommentBody(value, style) + "\n"
    case NewLine => "\n\n"
    case Annotation(name, NoProperties) => "@" + name
    case Annotation(name, Properties(_)) => "@" + name + "(" + props + ")" + "\n"
  }

  /** A trivia piece between program items: a block comment that opens the slot starts on a fresh line. */
  function ProgramTriviaPiece(n: NonCodeNode, formatted: string, i: nat): string
  {
    if i == 0 && Trim(formatted) != [] && n.value.BlockComment? then "\n" + formatted else formatted
  }

  /** The pieces of a slot of program trivia, given the printed nodes. */
  function ProgramTriviaPieces(nodes: seq<NonCodeNode>, texts: seq<string>): (r: seq<string>)
    requires |texts| == |nodes|
    ensures |r| == |nodes|
  {
    seq(|nodes|, j requires 0 <= j < |nodes| => ProgramTriviaPiece(nodes[j], texts[j], j))
  }

  /** A trivia piece after a pipe stage. */
  function PipeTriviaPiece(n: NonCodeNode, formatted: string): string
  {
    var trimmed := TrimEndNewlines(formatted);
    if n.value.BlockComment? then "\n" + trimmed else trimmed
  }

  /** Trivia that ends where the pipe ends aligns with the pipe, other trivia with its stages. */
  function PipeTriviaLevel(n: NonCodeNode, p: PipeExpression, level: nat): nat
  {
    if n.end == p.end then level else level + 1
  }

  /** The trimmed program text, with a final newline when the options ask for one and there is text. */
  function FinishProgram(assembled: string, o: FormatOptions): string
  {
    var result := Trim(assembled);
    if o.insertFinalNewline && result != [] then result + "\n" else result
  }

  /** `maybe_line_break`: none after the last item of a top-level program, a newline after any other. */
  function LineBreak(p: Program, level: nat, index: nat): string
  {
    if index == |p.body| - 1 && level == 0 then "" else "\n"
  }

  function ShebangText(p: Program): string
  {
    match p.shebang
    case Some(content) => content + "\n\n"
    case None => ""
  }

  /** One entry of the `lines` list of an if expression: an indentation offset and a text. */
  datatype IndentedLine = IndentedLine(offset: nat, text: string)

  function IfLineText(o: FormatOptions, level: nat, line: IndentedLine): string
  {
    Indentation(o, level + line.offset) + Trim(line.text)
  }

  /** The lines pushed by `IfExpression::recast`, in order. */
  function IfLayout(cond: string, thenText: string, conds: seq<string>, bodies: seq<string>, elseText: string): seq<IndentedLine>
    requires |conds| == |bodies|
  {
    [IndentedLine(0, "if " + cond + " {"), IndentedLine(1, thenText)] +
    ElseIfLayout(conds, bodies, 0) +
    [IndentedLine(0, "} else {"), IndentedLine(1, elseText), IndentedLine(0, "}")]
  }

  /** The two lines of each else-if branch from branch `k` on. */
  function ElseIfLayout(conds: seq<string>, bodies: seq<string>, k: nat): seq<IndentedLine>
    requires |conds| == |bodies|
    decreases |conds| - k
  {
    if k >= |conds| then []
    else
      [IndentedLine(0, "} else if " + conds[k] + " {"), IndentedLine(1, bodies[k])] +
      ElseIfLayout(conds, bodies, k + 1)
  }

  /** The lines, each trimmed and indented by its offset, joined by new lines. */
  function IfText(lines: seq<IndentedLine>, o: FormatOptions, level: nat): string
  {
    Join(IfLineTexts(lines, o, level), "\n")
  }

  /** Each line trimmed and indented by its offset. */
  function IfLineTexts(lines: seq<IndentedLine>, o: FormatOptions, level: nat): (r: seq<string>)
    ensures |r| == |lines|
  {
    seq(|lines|, i requires 0 <= i < |lines| => IfLineText(o, level, lines[i]))
  }

  // ---------------------------------------------------------------------------
  // Programs

  /** `Program::recast`. */
  function RecastProgram(p: Program, o: FormatOptions, level: nat): string
    requires WFProgram(p)
    decreases p, 2, 0
  {
    FinishProgram(AssembledProgram(p, o, level), o)
  }

  /** The text of a program before it is trimmed: the shebang, then the chunks of all body items. */
  function AssembledProgram(p: Program, o: FormatOptions, level: nat): string
    requires WFProgram(p)
    decreases p, 1, 0
  {
    ShebangText(p) + BodyChunks(p, o, level, |p.body|)
  }

  /** The chunks of the first `n` body items, one after another. */
  function BodyChunks(p: Program, o: FormatOptions, level: nat, n: nat): string
    requires WFProgram(p) && n <= |p.body|
    decreases p, 0, n + 3
  {
    if n == 0 then "" else BodyChunks(p, o, level, n - 1) + ProgramChunk(p, o, level, n - 1)
  }

  /** Start string, item text and end string of body item `index`. */
  function ProgramChunk(p: Program, o: FormatOptions, level: nat, index: nat): string
    requires WFProgram(p) && index < |p.body|
    decreases p, 0, 2
  {
    StartString(p, o, level, index) + BodyItemText(p.body[index], o, level) + EndString(p, o, level, index)
  }

  function StartString(p: Program, o: FormatOptions, level: nat, index: nat): string
    requires WFProgram(p)
    decreases p, 0, 0
  {
    var starts := p.meta.startNodes;
    assert WFMeta(p.meta);
    if index != 0 then ""
    else if starts == [] then Indentation(o, level)
    else Concat(seq(|starts|, j requires 0 <= j < |starts| => RecastNonCode(starts[j], o, level)))
  }

  function EndString(p: Program, o: FormatOptions, level: nat, index: nat): string
    requires WFProgram(p) && index < |p.body|
    decreases p, 0, 1
  {
    var trivia := ProgramTrivia(p, o, level, index);
    if trivia != [] then trivia else LineBreak(p, level, index)
  }

  /** The trivia the index attaches at position `index` of the body. */
  function ProgramTrivia(p: Program, o: FormatOptions, level: nat, index: nat): string
    requires WFProgram(p)
    decreases p, 0, 0
  {
    assert WFMeta(p.meta);
    match SlotOf(p.meta.nonCodeNodes, index)
    case None => ""
    case Some(k) =>
      Concat(ProgramTriviaPieces(p.meta.nonCodeNodes[k].nodes, SlotNodeTexts(p.meta, o, level, k)))
  }

  function BodyItemText(item: BodyItem, o: FormatOptions, level: nat): string
    requires WFBodyItem(item)
    decreases item, 1, 0
  {
    match item
    case ImportStmt(stmt) => RecastImport(stmt, o, level)
    case ExpressionStmt(e) => RecastExpr(e, o, level, Other)
    case VariableDecl(d) => RecastVariableDeclaration(d, o, level)
    case ReturnStmt(e) => Indentation(o, level) + "return " + TrimStart(RecastExpr(e, o, level, Other))
  }

  /** `VariableDeclaration::recast`. */
  function RecastVariableDeclaration(d: VariableDeclaration, o: FormatOptions, level: nat): string
    requires WFExpr(d.init)
    decreases d, 1, 0
  {
    var vis := if d.visibility == Export then "export " else "";
    var keyword := if d.kind == FnKind then "fn " else "";
    var eq := if d.kind == FnKind then "" else " = ";
    vis + Indentation(o, level) + keyword + d.id + eq + Trim(RecastExpr(d.init, o, level, Decl))
  }

  // ---------------------------------------------------------------------------
  // Trivia

  /** `Node<NonCodeNode>::recast`. */
  function RecastNonCode(n: NonCodeNode, o: FormatOptions, level: nat): string
    requires WFNonCode(n)
    decreases n, 1, 0
  {
    var props :=
      if n.value.Annotation? && n.value.properties.Properties? then Join(AnnotationPropertyTexts(n, o, level), ", ")
      else "";
    NonCodeText(n, Indentation(o, level), props)
  }

  /** The `key = value` texts of an annotation's properties, values printed one level deeper. */
  function AnnotationPropertyTexts(n: NonCodeNode, o: FormatOptions, level: nat): seq<string>
    requires WFNonCode(n) && n.value.Annotation? && n.value.properties.Properties?
    decreases n, 0, 0
  {
    var props := n.value.properties.props;
    seq(|props|, i requires 0 <= i < |props| =>
      props[i].key + " = " + Trim(RecastExpr(props[i].value, o, level + 1, Other)))
  }

  // ---------------------------------------------------------------------------
  // Expressions

  /** `Expr::recast`.  A declaration context is passed on as `Other`; `Pipe` is passed on. */
  function RecastExpr(e: Expr, o: FormatOptions, level: nat, ctxt: ExprContext): string
    requires WFExpr(e)
    decreases e, 1, 0
  {
    var isDecl := ctxt == Decl;
    var c := if isDecl then Other else ctxt;
    match e
    case BinaryExpr(b) => RecastBinary(b, o)
    case ArrayExpr(a) => RecastArray(a, o, level, c)
    case RangeExpr(r) => RecastRange(r, o)
    case ObjectExpr(obj) => RecastObject(obj, o, level, c)
    case MemberExpr(m) => RecastMember(m)
    case LiteralExpr(l) => RecastLiteral(l)
    case FunctionExpr(f) => (if isDecl then "" else "fn") + RecastFunction(f, o, level)
    case CallExpr(call) => RecastCall(call, o, level, c)
    case CallKwExpr(call) => RecastCallKw(call, o, level, c)
    case IdentExpr(name) => name
    case TagExpr(t) => RecastTag(t)
    case PipeExpr(pe) => RecastPipe(pe, o, level)
    case UnaryExpr(u) => RecastUnary(u, o)
    case IfExpr(ie) => RecastIf(ie, o, level, c)
    case PipeSubstitution => PIPE_SUBSTITUTION_OPERATOR
    case LabelledExpr(inner, name) => RecastExpr(inner, o, level, c) + " as " + name
  }

  /** `BinaryPart::recast`. */
  function RecastPart(p: BinaryPart, o: FormatOptions, level: nat): string
    requires WFPart(p)
    decreases p, 1, 0
  {
    match p
    case PartLiteral(l) => RecastLiteral(l)
    case PartIdent(name) => name
    case PartBinary(b) => RecastBinary(b, o)
    case PartCall(c) => RecastCall(c, o, level, Other)
    case PartCallKw(c) => RecastCallKw(c, o, level, Other)
    case PartUnary(u) => RecastUnary(u, o)
    case PartMember(m) => RecastMember(m)
    case PartIf(ie) => RecastIf(ie, o, level, Other)
  }

  function CallIndentation(o: FormatOptions, level: nat, ctxt: ExprContext): string
  {
    if ctxt == Pipe then "" else Indentation(o, level)
  }

  /** `CallExpression::recast`. */
  function RecastCall(c: CallExpression, o: FormatOptions, level: nat, ctxt: ExprContext): string
    requires WFCall(c)
    decreases c, 1, 0
  {
    var args := c.arguments;
    CallIndentation(o, level, ctxt) + c.callee + "(" +
    Join(seq(|args|, i requires 0 <= i < |args| => RecastExpr(args[i], o, level, ctxt)), ", ") + ")"
  }

  /** `CallExpressionKw::recast`: the unlabelled argument, then the labelled ones. */
  function RecastCallKw(c: CallExpressionKw, o: FormatOptions, level: nat, ctxt: ExprContext): string
    requires WFCallKw(c)
    decreases c, 1, 0
  {
    var first := match c.unlabeled
      case Some(u) => [RecastExpr(u, o, level, ctxt)]
      case None => [];
    var args := c.arguments;
    var labeled := seq(|args|, i requires 0 <= i < |args| => RecastLabeledArg(args[i], o, level, ctxt));
    CallIndentation(o, level, ctxt) + c.callee + "(" + Join(first + labeled, ", ") + ")"
  }

  function RecastLabeledArg(a: LabeledArg, o: FormatOptions, level: nat, ctxt: ExprContext): string
    requires WFExpr(a.arg)
    decreases a, 1, 0
  {
    a.labelName + " = " + RecastExpr(a.arg, o, level, ctxt)
  }

  /** `ArrayExpression::recast`. */
  function RecastArray(a: ArrayExpression, o: FormatOptions, level: nat, ctxt: ExprContext): string
    requires WFArray(a)
    decreases a, 2, 0
  {
    var items := ArrayFormatItems(a, o);
    var flat := ArrayFlatText(items);
    if !(Utf8Len(flat) > MaxArrayLength || ArrayHasForcingTrivia(a)) then flat
    else ArrayMultiLineText(items, o, level, ctxt)
  }

  /** The items of an array, the last one without its trailing `", "`. */
  function ArrayFormatItems(a: ArrayExpression, o: FormatOptions): seq<string>
    requires WFArray(a)
    decreases a, 1, 0
  {
    StripLastComma(ArrayItems(a, o))
  }

  /** The items of an array: its trivia where the index places it, each element followed by `", "`. */
  function ArrayItems(a: ArrayExpression, o: FormatOptions): seq<string>
    requires WFArray(a)
    decreases a, 0, 1
  {
    PositionItems(a.meta.nonCodeNodes, SlotTexts(a.meta, o), ElementTexts(a, o), ", ", ", ", 0, 0)
  }

  /** The elements of an array, printed at level 0. */
  function ElementTexts(a: ArrayExpression, o: FormatOptions): (r: seq<string>)
    requires WFArray(a)
    ensures |r| == |a.elements|
    decreases a, 0, 0
  {
    seq(|a.elements|, i requires 0 <= i < |a.elements| => RecastExpr(a.elements[i], o, 0, Other))
  }

  /** The printed nodes of every trivia slot, at level 0. */
  function SlotTexts(m: NonCodeMeta, o: FormatOptions): (r: seq<seq<string>>)
    requires WFMeta(m)
    ensures |r| == |m.nonCodeNodes|
    decreases m, 0, 1
  {
    seq(|m.nonCodeNodes|, k requires 0 <= k < |m.nonCodeNodes| => SlotNodeTexts(m, o, 0, k))
  }

  /** The printed nodes of trivia slot `k`. */
  function SlotNodeTexts(m: NonCodeMeta, o: FormatOptions, level: nat, k: nat): (r: seq<string>)
    requires WFMeta(m) && k < |m.nonCodeNodes|
    ensures |r| == |m.nonCodeNodes[k].nodes|
    decreases m, 0, 0
  {
    var nodes := m.nonCodeNodes[k].nodes;
    seq(|nodes|, j requires 0 <= j < |nodes| => RecastNonCode(nodes[j], o, level))
  }

  /** `ArrayRangeExpression::recast`. */
  function RecastRange(r: ArrayRangeExpression, o: FormatOptions): string
    requires WFExpr(r.startElement) && WFExpr(r.endElement)
    decreases r, 1, 0
  {
    var s1 := RecastExpr(r.startElement, o, 0, Other);
    var s2 := RecastExpr(r.endElement, o, 0, Other);
    if ExprIsTrivial(r.startElement) && ExprIsTrivial(r.endElement) then "[" + s1 + ".." + s2 + "]"
    else "[" + s1 + " .. " + s2 + "]"
  }

  /** `ObjectExpression::recast`. */
  function RecastObject(obj: ObjectExpression, o: FormatOptions, level: nat, ctxt: ExprContext): string
    requires WFObject(obj)
    decreases obj, 2, 0
  {
    if ObjectHasForcingTrivia(obj) then RecastObjectMultiLine(obj, o, level, ctxt)
    else
      var flat := ObjectFlat(obj, o, level, ctxt);
      if Utf8Len(flat) > MaxArrayLength then RecastObjectMultiLine(obj, o, level, ctxt) else flat
  }

  /** The one-line form `{ k = v, ... }` of an object. */
  function ObjectFlat(obj: ObjectExpression, o: FormatOptions, level: nat, ctxt: ExprContext): string
    requires WFObject(obj)
    decreases obj, 1, 0
  {
    "{ " + Join(PropertyTexts(obj, o, level, ctxt), ", ") + " }"
  }

  /** The `key = value` texts of an object's properties, values printed one level deeper and trimmed. */
  function PropertyTexts(obj: ObjectExpression, o: FormatOptions, level: nat, ctxt: ExprContext): (r: seq<string>)
    requires WFObject(obj)
    ensures |r| == |obj.properties|
    decreases obj, 0, 1
  {
    var ps := obj.properties;
    seq(|ps|, i requires 0 <= i < |ps| => PropertyText(ps[i], o, level, ctxt, obj))
  }

  function PropertyText(prop: ObjectProperty, o: FormatOptions, level: nat, ctxt: ExprContext, ghost parent: ObjectExpression): string
    requires WFExpr(prop.value)
    requires prop in parent.properties
    decreases parent, 0, 0
  {
    prop.key + " = " + Trim(RecastExpr(prop.value, o, level + 1, ctxt))
  }

  /** `ObjectExpression::recast_multi_line`. */
  function RecastObjectMultiLine(obj: ObjectExpression, o: FormatOptions, level: nat, ctxt: ExprContext): string
    requires WFObject(obj)
    decreases obj, 1, 0
  {
    var inner := ContainerIndentation(o, level + 1, ctxt);
    "{\n" + inner + Join(ObjectItems(obj, o, level, ctxt), inner) + "\n" + ContainerIndentation(o, level, ctxt) + "}"
  }

  /** The items of a multi-line object: its trivia, and each property followed by `",\n"` unless it is at the last position. */
  function ObjectItems(obj: ObjectExpression, o: FormatOptions, level: nat, ctxt: ExprContext): seq<string>
    requires WFObject(obj)
    decreases obj, 0, 2
  {
    PositionItems(obj.meta.nonCodeNodes, SlotTexts(obj.meta, o), PropertyTexts(obj, o, level, ctxt), ",\n", "", 0, 0)
  }

  /** `BinaryExpression::recast`: operands are printed at level 0. */
  function RecastBinary(b: BinaryExpression, o: FormatOptions): string
    requires WFPart(b.left) && WFPart(b.right)
    decreases b, 1, 0
  {
    MaybeWrap(RecastPart(b.left, o, 0), WrapsLeft(b)) + " " + BinaryOperatorText(b.operator) + " " +
    MaybeWrap(RecastPart(b.right, o, 0), WrapsRight(b))
  }

  /** `UnaryExpression::recast`. */
  function RecastUnary(u: UnaryExpression, o: FormatOptions): string
    requires WFPart(u.argument)
    decreases u, 1, 0
  {
    match u.argument
    case PartLiteral(_) | PartIdent(_) | PartMember(_) | PartIf(_) | PartCallKw(_) | PartCall(_) =>
      UnaryOperatorText(u.operator) + RecastPart(u.argument, o, 0)
    case PartBinary(_) | PartUnary(_) =>
      UnaryOperatorText(u.operator) + "(" + RecastPart(u.argument, o, 0) + ")"
  }

  /** `IfExpression::recast`: each line indented by its offset, joined by newlines. */
  function RecastIf(ie: IfExpression, o: FormatOptions, level: nat, ctxt: ExprContext): string
    requires WFIf(ie)
    decreases ie, 2, 0
  {
    IfText(IfLines(ie, o, level, ctxt), o, level)
  }

  /** The lines of an if expression, from the printed conditions and branch bodies. */
  function IfLines(ie: IfExpression, o: FormatOptions, level: nat, ctxt: ExprContext): seq<IndentedLine>
    requires WFIf(ie)
    decreases ie, 1, 0
  {
    IfLayout(RecastExpr(ie.cond, o, level, ctxt), RecastProgram(ie.thenVal, o, level + 1),
             ElseIfConds(ie, o, level, ctxt), ElseIfBodies(ie, o, level), RecastProgram(ie.finalElse, o, level + 1))
  }

  /** The printed conditions of the else-if branches. */
  function ElseIfConds(ie: IfExpression, o: FormatOptions, level: nat, ctxt: ExprContext): (r: seq<string>)
    requires WFIf(ie)
    ensures |r| == |ie.elseIfs|
    decreases ie, 0, 0
  {
    seq(|ie.elseIfs|, k requires 0 <= k < |ie.elseIfs| => RecastExpr(ie.elseIfs[k].cond, o, level, ctxt))
  }

  /** The printed bodies of the else-if branches, one level deeper. */
  function ElseIfBodies(ie: IfExpression, o: FormatOptions, level: nat): (r: seq<string>)
    requires WFIf(ie)
    ensures |r| == |ie.elseIfs|
    decreases ie, 0, 0
  {
    seq(|ie.elseIfs|, k requires 0 <= k < |ie.elseIfs| => RecastProgram(ie.elseIfs[k].thenVal, o, level + 1))
  }

  /** `Node<PipeExpression>::recast`. */
  function RecastPipe(p: PipeExpression, o: FormatOptions, level: nat): string
    requires WFPipe(p)
    decreases p, 2, 0
  {
    Indentation(o, level) + Concat(seq(|p.body|, i requires 0 <= i < |p.body| => PipeStage(p, o, level, i)))
  }

  /** Stage `i`: printed in pipe context one level deeper, its trivia, then `|> ` unless last. */
  function PipeStage(p: PipeExpression, o: FormatOptions, level: nat, i: nat): string
    requires WFPipe(p) && i < |p.body|
    decreases p, 1, 0
  {
    RecastExpr(p.body[i], o, level + 1, Pipe) + StageTrivia(p, o, level, i) +
    (if i != |p.body| - 1 then "\n" + Indentation(o, level + 1) + PIPE_OPERATOR + " " else "")
  }

  /** The trivia recorded after stage `i`, its pieces one after another. */
  function StageTrivia(p: PipeExpression, o: FormatOptions, level: nat, i: nat): string
    requires WFPipe(p)
    decreases p, 0, 1
  {
    match SlotOf(p.meta.nonCodeNodes, i)
    case None => ""
    case Some(k) => Concat(StagePieces(p, o, level, k))
  }

  /** The pieces of trivia slot `k` of a pipe: each node printed at its level, trailing newlines dropped. */
  function StagePieces(p: PipeExpression, o: FormatOptions, level: nat, k: nat): (r: seq<string>)
    requires WFPipe(p) && k < |p.meta.nonCodeNodes|
    ensures |r| == |p.meta.nonCodeNodes[k].nodes|
    decreases p, 0, 0
  {
    assert WFMeta(p.meta);
    var nodes := p.meta.nonCodeNodes[k].nodes;
    seq(|nodes|, j requires 0 <= j < |nodes| =>
      PipeTriviaPiece(nodes[j], RecastNonCode(nodes[j], o, PipeTriviaLevel(nodes[j], p, level))))
  }

  /** `FunctionExpression::recast`: the body never gets a final newline of its own. */
  function RecastFunction(f: FunctionExpression, o: FormatOptions, level: nat): string
    requires WFProgram(f.body)
    decreases f, 1, 0
  {
    var newOptions := o.(insertFinalNewline := false);
    var ps := f.params;
    var paramList := Join(seq(|ps|, i requires 0 <= i < |ps| => RecastParameter(ps[i], o, level)), ", ");
    var returnType :=
      match f.returnType
      case Some(rt) => ": " + RecastFnArgType(rt, newOptions, level)
      case None => "";
    var body := RecastProgram(f.body, newOptions, level + 1);
    FunctionText(paramList, returnType, body, Indentation(o, level), Indentation(o, level + 1))
  }

  /** The parameter list in parentheses, the return type, and the body between braces on lines of its own. */
  function FunctionText(paramList: string, returnType: string, body: string, tab0: string, tab1: string): string
  {
    "(" + paramList + ")" + returnType + " {\n" + tab1 + body + "\n" + tab0 + "}"
  }
}
