/**
 * The program tree that the KCL printer consumes, as the parser produces it.
 * Source positions are kept only where the printer looks at them: the start and
 * end offsets of a trivia node and the end offset of a pipe expression.
 */
module Ast {

  datatype Option<+T> = None | Some(value: T)

  // ---------------------------------------------------------------------------
  // Trivia ("non-code" nodes)

  datatype CommentStyle = Line | Block

  datatype NonCodeValue =
    | InlineComment(value: string, style: CommentStyle)
    | BlockComment(value: string, style: CommentStyle)
    | NewLineBlockComment(value: string, style: CommentStyle)
    | NewLine
    | Annotation(name: string, properties: AnnotationProperties)

  /** `Option<Vec<ObjectProperty>>` of an annotation: `@name` alone, or `@name(k = v, ...)`. */
  datatype AnnotationProperties = NoProperties | Properties(props: seq<ObjectProperty>)

  datatype NonCodeNode = NonCodeNode(value: NonCodeValue, start: nat, end: nat)

  /** One entry of the trivia index: the nodes that render at sibling position `index`. */
  datatype Slot = Slot(index: nat, nodes: seq<NonCodeNode>)

  /**
   * `NonCodeMeta`: the trivia index (a map from sibling position to the trivia at that
   * position, kept as an association list whose positions are distinct) and the trivia
   * that comes before the first item.
   */
  datatype NonCodeMeta = NonCodeMeta(nonCodeNodes: seq<Slot>, startNodes: seq<NonCodeNode>)

  // ---------------------------------------------------------------------------
  // Statements

  datatype ItemVisibility = Default | Export

  datatype ImportItem = ImportItem(name: string, alias: Option<string>)

  datatype ImportSelector =
    | List(items: seq<ImportItem>)
    | Glob
    | NoSelector(alias: Option<string>)

  datatype ImportStatement = ImportStatement(selector: ImportSelector, path: string, visibility: ItemVisibility)

  datatype VariableKind = FnKind | Const

  datatype VariableDeclaration = VariableDeclaration(id: string, init: Expr, visibility: ItemVisibility, kind: VariableKind)

  datatype BodyItem =
    | ImportStmt(stmt: ImportStatement)
    | ExpressionStmt(expression: Expr)
    | VariableDecl(decl: VariableDeclaration)
    | ReturnStmt(argument: Expr)

  datatype Program = Program(body: seq<BodyItem>, meta: NonCodeMeta, shebang: Option<string>)

  // ---------------------------------------------------------------------------
  // Expressions

  /**
   * A number literal keeps the two facts about its `f64` value that the printer asks:
   * whether it has no fractional part, and its canonical `{:?}` text.
   */
  datatype LiteralValue =
    | Number(integral: bool, canonical: string)
    | Str(s: string)
    | Bool(b: bool)

  datatype Literal = Literal(value: LiteralValue, raw: string)

  datatype BinaryOperator = Add | Sub | Mul | Div | Mod | Pow | Eq | Neq | Gt | Gte | Lt | Lte | And | Or

  datatype UnaryOperator = Neg | Not

  datatype BinaryPart =
    | PartLiteral(lit: Literal)
    | PartIdent(name: string)
    | PartBinary(bin: BinaryExpression)
    | PartCall(call: CallExpression)
    | PartCallKw(callKw: CallExpressionKw)
    | PartUnary(unary: UnaryExpression)
    | PartMember(member: MemberExpression)
    | PartIf(ifExpr: IfExpression)

  datatype BinaryExpression = BinaryExpression(operator: BinaryOperator, left: BinaryPart, right: BinaryPart)

  datatype UnaryExpression = UnaryExpression(operator: UnaryOperator, argument: BinaryPart)

  datatype CallExpression = CallExpression(callee: string, arguments: seq<Expr>)

  datatype LabeledArg = LabeledArg(labelName: string, arg: Expr)

  datatype CallExpressionKw = CallExpressionKw(callee: string, unlabeled: Option<Expr>, arguments: seq<LabeledArg>)

  datatype LiteralIdentifier = PropIdent(name: string) | PropLiteral(lit: Literal)

  datatype MemberObject = ObjMember(member: MemberExpression) | ObjIdent(name: string)

  datatype MemberExpression = MemberExpression(target: MemberObject, property: LiteralIdentifier, computed: bool)

  datatype ObjectProperty = ObjectProperty(key: string, value: Expr)

  datatype ObjectExpression = ObjectExpression(properties: seq<ObjectProperty>, meta: NonCodeMeta)

  datatype ArrayExpression = ArrayExpression(elements: seq<Expr>, meta: NonCodeMeta)

  datatype ArrayRangeExpression = ArrayRangeExpression(startElement: Expr, endElement: Expr)

  datatype PipeExpression = PipeExpression(body: seq<Expr>, meta: NonCodeMeta, end: nat)

  datatype ElseIf = ElseIf(cond: Expr, thenVal: Program)

  datatype IfExpression = IfExpression(cond: Expr, thenVal: Program, elseIfs: seq<ElseIf>, finalElse: Program)

  /** A primitive type is kept as the text its `Display` produces. */
  datatype FnArgType =
    | Primitive(name: string)
    | ArrayOf(name: string)
    | ObjectType(properties: seq<Parameter>)

  datatype DefaultParamVal = KclNone | LiteralDefault(lit: Literal)

  datatype Parameter = Parameter(identifier: string, type_: Option<FnArgType>, defaultValue: Option<DefaultParamVal>, labeled: bool)

  datatype FunctionExpression = FunctionExpression(params: seq<Parameter>, body: Program, returnType: Option<FnArgType>)

  datatype TagDeclarator = TagDeclarator(name: string)

  datatype Expr =
    | LiteralExpr(lit: Literal)
    | IdentExpr(name: string)
    | TagExpr(tag: TagDeclarator)
    | BinaryExpr(bin: BinaryExpression)
    | FunctionExpr(func: FunctionExpression)
    | CallExpr(call: CallExpression)
    | CallKwExpr(callKw: CallExpressionKw)
    | PipeExpr(pipe: PipeExpression)
    | PipeSubstitution
    | ArrayExpr(array: ArrayExpression)
    | RangeExpr(range: ArrayRangeExpression)
    | ObjectExpr(objectExpr: ObjectExpression)
    | MemberExpr(member: MemberExpression)
    | UnaryExpr(unary: UnaryExpression)
    | IfExpr(ifExpr: IfExpression)
    | LabelledExpr(expr: Expr, labelName: string)
    | NoneExpr

  // ---------------------------------------------------------------------------
  // Operators

  /** Binding strength of a binary operator; a larger number binds tighter. */
  function Precedence(op: BinaryOperator): nat
  {
    match op
    case Add | Sub => 11
    case Mul | Div | Mod => 12
    case Pow => 13
    case Gt | Gte | Lt | Lte => 9
    case Eq | Neq => 8
    case And => 7
    case Or => 6
  }

  /** The operator's `Display` text. */
  function BinaryOperatorText(op: BinaryOperator): string
  {
    match op
    case Add => "+"
    case Sub => "-"
    case Mul => "*"
    case Div => "/"
    case Mod => "%"
    case Pow => "^"
    case Eq => "=="
    case Neq => "!="
    case Gt => ">"
    case Gte => ">="
    case Lt => "<"
    case Lte => "<="
    case And => "&"
    case Or => "|"
  }

  function UnaryOperatorText(op: UnaryOperator): string
  {
    match op
    case Neg => "-"
    case Not => "!"
  }

  const PIPE_OPERATOR: string := "|>"
  const PIPE_SUBSTITUTION_OPERATOR: string := "%"

  // ---------------------------------------------------------------------------
  // The trivia index

  /** `non_code_nodes.get(&i)`: the position in the list of the entry for sibling `i`, if any. */
  function SlotOf(slots: seq<Slot>, i: nat): (r: Option<nat>)
    ensures r.Some? ==> r.value < |slots| && slots[r.value].index == i
    ensures r.None? <==> forall k :: 0 <= k < |slots| ==> slots[k].index != i
  {
    if slots == [] then None
    else if slots[0].index == i then Some(0)
    else match SlotOf(slots[1..], i)
      case None => None
      case Some(k) => Some(k + 1)
  }

  /** The index is a map: no position appears twice. */
  predicate DistinctIndices(slots: seq<Slot>)
  {
    forall k, k' :: 0 <= k < k' < |slots| ==> slots[k].index != slots[k'].index
  }

  /** With distinct indices, looking up the index of slot `k` finds slot `k`. */
  lemma SlotOfFinds(slots: seq<Slot>, k: nat)
    requires DistinctIndices(slots) && k < |slots|
    ensures SlotOf(slots, slots[k].index) == Some(k)
  {
  }

  /** `non_code_nodes_len`: the number of trivia nodes over all positions. */
  function NonCodeNodesLen(slots: seq<Slot>): nat
  {
    if slots == [] then 0 else |slots[0].nodes| + NonCodeNodesLen(slots[1..])
  }

  /** Number of positions in `[i, n)` without trivia: each of them takes the next element. */
  function FreeSlots(slots: seq<Slot>, i: nat, n: nat): nat
    decreases n - i
  {
    if i >= n then 0 else (if SlotOf(slots, i).None? then 1 else 0) + FreeSlots(slots, i + 1, n)
  }

  /** One step of `FreeSlots`. */
  lemma FreeSlotsStep(slots: seq<Slot>, i: nat, n: nat)
    requires i < n
    ensures FreeSlots(slots, i, n) == (if SlotOf(slots, i).None? then 1 else 0) + FreeSlots(slots, i + 1, n)
  {
  }

  /** Trivia kinds that force the array or object holding them onto several lines. */
  predicate ShouldCauseArrayNewline(v: NonCodeValue)
  {
    match v
    case InlineComment(_, _) => false
    case BlockComment(_, _) | NewLineBlockComment(_, _) | NewLine | Annotation(_, _) => true
  }

  // ---------------------------------------------------------------------------
  // Well-formed trees: what the printer needs of its input so that it never panics.
  // `Expr::None` is never printed (the source aborts with `unimplemented!`), and a
  // container's trivia index leaves at most as many free positions as it has
  // elements (otherwise `next().unwrap()` panics).

  predicate WFMeta(m: NonCodeMeta)
    decreases m, 0
  {
    DistinctIndices(m.nonCodeNodes) &&
    (forall k, j :: 0 <= k < |m.nonCodeNodes| && 0 <= j < |m.nonCodeNodes[k].nodes| ==>
       WFNonCode(m.nonCodeNodes[k].nodes[j])) &&
    (forall j :: 0 <= j < |m.startNodes| ==> WFNonCode(m.startNodes[j]))
  }

  predicate WFNonCode(n: NonCodeNode)
    decreases n, 0
  {
    match n.value
    case Annotation(_, Properties(props)) => forall i :: 0 <= i < |props| ==> WFExpr(props[i].value)
    case _ => true
  }

  predicate WFProgram(p: Program)
    decreases p, 0
  {
    WFMeta(p.meta) && forall i :: 0 <= i < |p.body| ==> WFBodyItem(p.body[i])
  }

  predicate WFBodyItem(b: BodyItem)
    decreases b, 0
  {
    match b
    case ImportStmt(_) => true
    case ExpressionStmt(e) => WFExpr(e)
    case VariableDecl(d) => WFExpr(d.init)
    case ReturnStmt(e) => WFExpr(e)
  }

  predicate WFPart(p: BinaryPart)
    decreases p, 0
  {
    match p
    case PartLiteral(_) => true
    case PartIdent(_) => true
    case PartBinary(b) => WFPart(b.left) && WFPart(b.right)
    case PartCall(c) => WFCall(c)
    case PartCallKw(c) => WFCallKw(c)
    case PartUnary(u) => WFPart(u.argument)
    case PartMember(_) => true
    case PartIf(e) => WFIf(e)
  }

  predicate WFCall(c: CallExpression)
    decreases c, 0
  {
    forall i :: 0 <= i < |c.arguments| ==> WFExpr(c.arguments[i])
  }

  predicate WFCallKw(c: CallExpressionKw)
    decreases c, 0
  {
    (c.unlabeled.Some? ==> WFExpr(c.unlabeled.value)) &&
    forall i :: 0 <= i < |c.arguments| ==> WFExpr(c.arguments[i].arg)
  }

  predicate WFIf(e: IfExpression)
    decreases e, 0
  {
    WFExpr(e.cond) && WFProgram(e.thenVal) && WFProgram(e.finalElse) &&
    forall i :: 0 <= i < |e.elseIfs| ==> WFExpr(e.elseIfs[i].cond) && WFProgram(e.elseIfs[i].thenVal)
  }

  predicate WFArray(a: ArrayExpression)
    decreases a, 0
  {
    WFMeta(a.meta) &&
    FreeSlots(a.meta.nonCodeNodes, 0, |a.elements| + NonCodeNodesLen(a.meta.nonCodeNodes)) <= |a.elements| &&
    forall i :: 0 <= i < |a.elements| ==> WFExpr(a.elements[i])
  }

  predicate WFObject(o: ObjectExpression)
    decreases o, 0
  {
    WFMeta(o.meta) &&
    FreeSlots(o.meta.nonCodeNodes, 0, |o.properties| + NonCodeNodesLen(o.meta.nonCodeNodes)) <= |o.properties| &&
    forall i :: 0 <= i < |o.properties| ==> WFExpr(o.properties[i].value)
  }

  predicate WFPipe(p: PipeExpression)
    decreases p, 0
  {
    WFMeta(p.meta) && forall i :: 0 <= i < |p.body| ==> WFExpr(p.body[i])
  }

  predicate WFExpr(e: Expr)
    decreases e, 0
  {
    match e
    case LiteralExpr(_) => true
    case IdentExpr(_) => true
    case TagExpr(_) => true
    case BinaryExpr(b) => WFPart(b.left) && WFPart(b.right)
    case FunctionExpr(f) => WFProgram(f.body)
    case CallExpr(c) => WFCall(c)
    case CallKwExpr(c) => WFCallKw(c)
    case PipeExpr(p) => WFPipe(p)
    case PipeSubstitution => true
    case ArrayExpr(a) => WFArray(a)
    case RangeExpr(r) => WFExpr(r.startElement) && WFExpr(r.endElement)
    case ObjectExpr(o) => WFObject(o)
    case MemberExpr(_) => true
    case UnaryExpr(u) => WFPart(u.argument)
    case IfExpr(i) => WFIf(i)
    case LabelledExpr(inner, _) => WFExpr(inner)
    case NoneExpr => false
  }
}
