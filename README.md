# KCL recast printer, in Dafny

This project models the "recast" pretty-printer of the KCL modeling language
(`src/wasm-lib/kcl/src/unparser.rs`). Recast takes a parsed program tree, the
`FormatOptions` and an indentation level. It returns formatted source text. That
text keeps every comment, blank-line marker, annotation and shebang line. Whitespace,
indentation and line wrapping are normalised.

Layout:

- `ast.dfy` (module `Ast`): the tree. It covers body items, expressions, binary
  parts, trivia ("non-code" nodes) and the trivia index. The module also defines
  operator precedence and `Display` text, `should_cause_array_newline`, and the
  well-formedness predicates (`WF…`) that stand for the source's panics.
- `text.dfy` (`Text`): the Rust `str` operations the printer uses. These are
  `trim`, `trim_start`, `trim_end_matches('\n')`, `strip_suffix`, `join`, `concat`,
  `repeat` and the UTF-8 byte length `len`, each with the lemmas the proofs need.
- `format.dfy` (`Format`): `FormatOptions` and the two indentation helpers.
- `recast.dfy` (`Recast`): every printer of `unparser.rs` as a function, in one
  mutually recursive group. `RecastProgram`, `RecastNonCode`, `RecastImport`,
  `RecastExpr`, `RecastPart`, `RecastCall`, `RecastCallKw`, `RecastLabeledArg`,
  `RecastVariableDeclaration`, `RecastLiteral`, `RecastTag`, `RecastArray`,
  `ExprIsTrivial`, `RecastRange`, `RecastObject`, `RecastObjectMultiLine`,
  `RecastMember`, `RecastBinary`, `RecastUnary`, `RecastIf`, `RecastPipe`,
  `RecastFunction`, `RecastParameter` and `RecastFnArgType` each follow the Rust
  method of the same name.
- `programs`, `trivia`, `imports`, `arrays`, `positions`, `objects`, `exprs`, `ifs`,
  `pipes` and `functions` (one `.dfy` file each): the source's step-by-step parts as
  methods. These are the `Program::recast` fold, the annotation pushes, the import
  loop, the array `flat_map` with its `found_line_comment |=` flag and its
  `last_mut` strip, the pipe stage loop, the pre-sized `lines` list of an if
  expression, and the object-type loop that pops its last comma. Each method is
  proved to return what the corresponding `Recast` function specifies. The lemmas
  about those functions sit beside the methods.

Modelling choices:

- The trivia index `non_code_nodes` (a `HashMap<usize, Vec<NonCodeNode>>`) is a list
  of `Slot(index, nodes)` entries with distinct indices. `SlotOf` plays the role of
  `get(&i)`.
- `get_indentation`, `get_indentation_offset_pipe`, `precedence()`,
  `non_code_nodes_len` and the operators' `Display` are not part of this model's
  source. They are given concrete forms:
  - indentation is `level * tab_size` spaces, or one tab per level;
  - the pipe offset is the whole level's indentation plus the three columns of `|> `
    (with tabs, one tab more than the level), which is what the expected output of
    `test_recast_trailing_comma` shows: 5 spaces at level 1 and 7 at level 2;
  - precedence is the usual KCL table;
  - `non_code_nodes_len` is the sum of the slot sizes.

  Two lemmas depend on the precedence table: `Exprs.MulModGroupingsCollide` and
  `Exprs.IntendedMulMod` rely on `*` and `%` binding equally, as they do in the table
  above. No other proved property depends on the particular form of any of these
  helpers.
- `Expr::None` panics with `unimplemented!`, and `elems.next().unwrap()` /
  `props.next().unwrap()` panic when the index leaves more free positions than there
  are elements. Both are excluded by the well-formedness preconditions.
- The 40-character threshold compares Rust's `String::len`, a UTF-8 byte count
  (`Utf8Len`), not a character count.
- A number literal carries two facts about its `f64`: whether it is integral, and
  its canonical `{:?}` text. Both are inputs.

## Model

| member | source | states |
|---|---|---|
| Programs.RecastProgramFold | src/wasm-lib/kcl/src/unparser.rs:15-111 | the fold over the body, the trim and the final newline produce exactly the specified program text |
| Programs.AssembleProgram | src/wasm-lib/kcl/src/unparser.rs:18-99 | the fold starts from the shebang text and appends each item's start string, text and end string in order |
| Programs.AppendChunk | src/wasm-lib/kcl/src/unparser.rs:49-99 | one fold step appends start string, item text and end string of that item |
| Programs.FinalNewline | src/wasm-lib/kcl/src/unparser.rs:100-110 | the output is empty iff the assembled text is all whitespace; it ends in a newline iff `insert_final_newline` is set and it is non-empty; otherwise it has no edge whitespace |
| Programs.EmptyBody | src/wasm-lib/kcl/src/unparser.rs:18-22 | a program without items prints as nothing or as its trimmed shebang; an empty program prints as the empty string, never a stray newline |
| Programs.ShebangFirst | src/wasm-lib/kcl/src/unparser.rs:18-22 | the shebang opens the output and is followed by a blank line whenever the body prints anything |
| Programs.LayoutWithoutTrivia | src/wasm-lib/kcl/src/unparser.rs:50-97 | without trivia, items are indented once and separated by single newlines; the last item gets a newline only when the level is above 0 |
| Programs.TriviaReplacesLineBreak | src/wasm-lib/kcl/src/unparser.rs:74-97 | trivia at an item's position replaces that item's line break; a lone blank-line node there yields exactly `"\n\n"` |
| Trivia.RecastAnnotation | src/wasm-lib/kcl/src/unparser.rs:161-186 | the pushes of the annotation arm produce `@name` alone, or `@name(k = v, …)` and a newline |
| Trivia.NewLineText | src/wasm-lib/kcl/src/unparser.rs:160 | a blank-line marker prints as exactly `"\n\n"` |
| Trivia.RecastNonCodeNonEmpty | src/wasm-lib/kcl/src/unparser.rs:126-186 | every trivia node prints some text |
| Trivia.BlockCommentTextKept | src/wasm-lib/kcl/src/unparser.rs:133-159 | a block-style comment reappears verbatim as `/* value */` |
| Trivia.InlineLineCommentKept | src/wasm-lib/kcl/src/unparser.rs:129-132 | an inline line comment reappears verbatim after `// ` |
| Trivia.OwnLineCommentKept | src/wasm-lib/kcl/src/unparser.rs:139-157 | an own-line line comment reappears trimmed after `// `, or as a bare `//` when blank |
| Trivia.TriviaEndsLine | src/wasm-lib/kcl/src/unparser.rs:126-186 | line comments, new-line comments, blank lines and annotations with properties end with a newline |
| Trivia.BlockCommentClosed | src/wasm-lib/kcl/src/unparser.rs:133-138 | inline and standalone block comments end with `*/` and add no newline |
| Trivia.OwnLineCommentIndented | src/wasm-lib/kcl/src/unparser.rs:137-159 | a block comment, or a new-line comment at offset 0, starts at the indentation; a new-line comment at any other offset starts with a blank line and then the indentation |
| Trivia.InlineCommentsDoNotForce | src/wasm-lib/kcl/src/unparser.rs:115-122 | inline comments never force an array or object onto several lines |
| Trivia.OtherTriviaForces | src/wasm-lib/kcl/src/unparser.rs:115-122 | block comments, new-line comments, blank lines and annotations force the multi-line layout |
| Imports.RecastImportStatement | src/wasm-lib/kcl/src/unparser.rs:192-226 | the pushes produce the specified import text: visibility, indentation, selector, quoted path, module alias |
| Imports.PushItems | src/wasm-lib/kcl/src/unparser.rs:199-213 | the item loop writes the item texts joined by `, ` |
| Imports.ImportItemAlias | src/wasm-lib/kcl/src/unparser.rs:206-212 | an item prints as its name, plus ` as alias` exactly when the alias differs from the name |
| Imports.SelfAliasDropped | src/wasm-lib/kcl/src/unparser.rs:842-851 | `import a as a from "p"` prints as `import a from "p"` |
| Imports.ExportedListImport | src/wasm-lib/kcl/src/unparser.rs:193-213 | `export import a, b as c from "p"` prints as it reads |
| Imports.ModuleAliasAfterPath | src/wasm-lib/kcl/src/unparser.rs:219-224 | a whole-module import ends with the quoted path, ` as ` and its alias |
| Exprs.DeclarationContext | src/wasm-lib/kcl/src/unparser.rs:237-256 | in a declaration context a function drops its `fn` keyword; every other expression prints as in `Other` context |
| Exprs.FunctionKeyword | src/wasm-lib/kcl/src/unparser.rs:252-256 | outside a declaration a function expression starts with `fn` |
| Exprs.CallIndentationByContext | src/wasm-lib/kcl/src/unparser.rs:298-313 | a call starts with its callee in pipe context and with its level's indentation otherwise (a declaration context counts as `Other`) |
| Exprs.FunctionDeclarationText | src/wasm-lib/kcl/src/unparser.rs:348-370 | a function declaration prints `fn name` then the trimmed function text, with one `fn` keyword |
| Exprs.ConstDeclarationText | src/wasm-lib/kcl/src/unparser.rs:348-370 | a constant declaration prints `name = ` then the trimmed value printed in `Other` context |
| Exprs.LabelledText | src/wasm-lib/kcl/src/unparser.rs:265-270 | `expr as name` prints the inner expression in the passed-on context, then ` as name` |
| Exprs.RightOperandParentheses | src/wasm-lib/kcl/src/unparser.rs:608-627 | the right operand is parenthesised iff it is binary and the parent binds tighter or is `-` or `/`; otherwise it is bare |
| Exprs.LeftOperandParentheses | src/wasm-lib/kcl/src/unparser.rs:615-627 | the left operand is parenthesised iff it is binary and the parent binds strictly tighter |
| Exprs.EqualPrecedenceGroupingsCollide | src/wasm-lib/kcl/src/unparser.rs:608-627 | as written, `a op1 (b op2 c)` and `(a op1 b) op2 c` print as the same text whenever the two operators bind equally and `op1` is neither `-` nor `/` |
| Exprs.PowGroupingsCollide | src/wasm-lib/kcl/src/unparser.rs:608-627 | as written, `(a ^ b) ^ c` and `a ^ (b ^ c)` both print as `a ^ b ^ c` |
| Exprs.MulModGroupingsCollide | src/wasm-lib/kcl/src/unparser.rs:608-627 | as written, `a * (b % c)` and `(a * b) % c` both print as `a * b % c` |
| Exprs.IntendedRightOperandParentheses | src/wasm-lib/kcl/src/unparser.rs:608-627 | under the corrected rule the right operand is wrapped iff the printer wraps it, or it binds as strongly as the parent without repeating an associative parent operator |
| Exprs.IntendedGroupingsDiffer | src/wasm-lib/kcl/src/unparser.rs:608-627 | under the corrected rule the two groupings of equally binding operators print differently, unless both are the same associative operator |
| Exprs.IntendedMulMod | src/wasm-lib/kcl/src/unparser.rs:608-627 | under the corrected rule `a * (b % c)` keeps its parentheses and `(a * b) % c` prints as `a * b % c` |
| Exprs.UnaryParentheses | src/wasm-lib/kcl/src/unparser.rs:632-646 | a unary operator parenthesises its operand iff that is binary or unary; otherwise it is concatenated directly |
| Exprs.RangeSpacing | src/wasm-lib/kcl/src/unparser.rs:469-505 | a range is `[a..b]` iff both ends are trivial, and `[a .. b]` otherwise |
| Exprs.StringLiteralQuotes | src/wasm-lib/kcl/src/unparser.rs:382-385 | a string literal is its value between equal quotes, double iff the trimmed raw text starts with `"` |
| Exprs.NumberLiteralText | src/wasm-lib/kcl/src/unparser.rs:376-381 | a number keeps its raw text unless the raw text has a `.` and the value is integral, in which case it prints the value's canonical text |
| Exprs.KwCallWithOnlyUnlabeled | src/wasm-lib/kcl/src/unparser.rs:317-336 | a keyword call with only its unlabelled argument prints as the positional call with that argument |
| Exprs.MemberChain | src/wasm-lib/kcl/src/unparser.rs:578-596 | a member chain starts with its root identifier and ends with its own `.key` or `[key]` |
| Exprs.IdentOperands | src/wasm-lib/kcl/src/unparser.rs:622-627 | an operator between two identifiers prints with one space on each side |
| Exprs.DivisionKeepsProduct | src/wasm-lib/kcl/src/unparser.rs:608-614 | `x / (a * b)` keeps its parentheses |
| Exprs.SubtractionFromLeft | src/wasm-lib/kcl/src/unparser.rs:608-620 | `a - b - c` prints without parentheses |
| Exprs.SubtractionOnRight | src/wasm-lib/kcl/src/unparser.rs:608-614 | `a - (b - c)` keeps its parentheses |
| Exprs.NegatedDifference | src/wasm-lib/kcl/src/unparser.rs:641-644 | `-(w - t)` keeps its parentheses, so it never prints as `-w - t` |
| Arrays.RecastArrayExpression | src/wasm-lib/kcl/src/unparser.rs:400-465 | the steps of the array printer produce the specified array text |
| Arrays.CollectArrayItems | src/wasm-lib/kcl/src/unparser.rs:405-424 | the `flat_map` collects the specified items, and the `found_line_comment` flag is set iff visited trivia forces new lines |
| Arrays.ArrayStep | src/wasm-lib/kcl/src/unparser.rs:407-423 | one position appends its part and advances the element iterator exactly when no trivia is there |
| Arrays.ArrayPosition | src/wasm-lib/kcl/src/unparser.rs:407-423 | a position yields its trivia or the next element followed by `, ` |
| Arrays.RecastSlot | src/wasm-lib/kcl/src/unparser.rs:408-416 | a trivia slot prints its nodes at level 0 and raises the flag iff one of them forces new lines |
| Arrays.StripLastItemComma | src/wasm-lib/kcl/src/unparser.rs:426-431 | the last item loses one trailing `, ` |
| Arrays.FormatArrayLines | src/wasm-lib/kcl/src/unparser.rs:446-458 | each item becomes one indented line ending in a newline |
| Arrays.ArrayLayout | src/wasm-lib/kcl/src/unparser.rs:432-464 | an array is flat iff its flat form is at most 40 bytes and no visited trivia forces new lines; otherwise it takes the multi-line form |
| Arrays.FlatWithoutTrivia | src/wasm-lib/kcl/src/unparser.rs:426-438 | without trivia the flat form is the elements joined by `, ` in brackets |
| Arrays.ArrayItemsWithoutTrivia | src/wasm-lib/kcl/src/unparser.rs:419-430 | without trivia every element but the last is followed by `, `, and the last by nothing |
| Arrays.MultiLineDiffers | src/wasm-lib/kcl/src/unparser.rs:440-464 | the multi-line form is strictly longer than the flat form |
| Arrays.ArrayLineShape | src/wasm-lib/kcl/src/unparser.rs:449-455 | each multi-line line starts with the inner indentation and ends with a newline |
| Objects.ObjectLayout | src/wasm-lib/kcl/src/unparser.rs:509-536 | an object is flat iff no trivia forces new lines and its flat form is at most 40 bytes; otherwise it takes the multi-line form |
| Objects.InlineCommentsKeepObjectFlat | src/wasm-lib/kcl/src/unparser.rs:510-536 | inline comments alone leave a short object on one line |
| Objects.ObjectItemsWithoutTrivia | src/wasm-lib/kcl/src/unparser.rs:546-562 | without trivia every property but the last is followed by `,\n`, and the last by nothing |
| Objects.ObjectMultiLineWithoutTrivia | src/wasm-lib/kcl/src/unparser.rs:541-574 | without trivia the multi-line form is one property per line between braces on their own lines |
| Objects.EmptyObject | src/wasm-lib/kcl/src/unparser.rs:517-535 | an empty object prints as `{  }` |
| Ifs.RecastIfExpression | src/wasm-lib/kcl/src/unparser.rs:650-672 | the pushes onto `lines` produce the specified if text |
| Ifs.PushElseIfs | src/wasm-lib/kcl/src/unparser.rs:658-662 | the else-if loop pushes two lines per branch |
| Ifs.RecastElseIf | src/wasm-lib/kcl/src/unparser.rs:659-661 | an else-if branch is a `} else if cond {` line and its body one level deeper |
| Ifs.IfLineCount | src/wasm-lib/kcl/src/unparser.rs:651-653 | the line list has exactly `2 + 2 * else_ifs + 3` entries |
| Ifs.IfShape | src/wasm-lib/kcl/src/unparser.rs:655-671 | the text opens with the indented `if cond {` and closes with a line holding only the indented `}` |
| Ifs.BranchLines | src/wasm-lib/kcl/src/unparser.rs:655-666 | each branch body sits one level deeper on the line after its opening line |
| Pipes.RecastPipeExpression | src/wasm-lib/kcl/src/unparser.rs:676-715 | the stage loop produces the specified pipe text |
| Pipes.RecastPipeStage | src/wasm-lib/kcl/src/unparser.rs:681-711 | a stage is its expression in pipe context, its trivia, then newline, indentation and `\|> ` unless last |
| Pipes.AppendStageTrivia | src/wasm-lib/kcl/src/unparser.rs:684-705 | the trivia recorded after a stage is appended, or nothing |
| Pipes.AppendSlotTrivia | src/wasm-lib/kcl/src/unparser.rs:686-704 | the loop over a slot appends every node's piece in order |
| Pipes.AppendSlotNode | src/wasm-lib/kcl/src/unparser.rs:687-697 | a node ending where the pipe ends prints at the pipe's level, others one level deeper |
| Pipes.AppendPiece | src/wasm-lib/kcl/src/unparser.rs:687-703 | a node loses its trailing newlines; a block comment starts on a new line |
| Pipes.PipeWithoutTrivia | src/wasm-lib/kcl/src/unparser.rs:676-715 | without trivia a pipe is its stages joined by newline, deeper indentation and `\|> ` |
| Pipes.BlankLineDropped | src/wasm-lib/kcl/src/unparser.rs:686-703 | a blank line between stages leaves no trace |
| Pipes.PipeTriviaPieceShape | src/wasm-lib/kcl/src/unparser.rs:686-703 | a block comment after a stage starts with a newline; no piece ends with one unless it is just that newline |
| Functions.RecastArgType | src/wasm-lib/kcl/src/unparser.rs:761-783 | the steps of the type printer produce the specified type text |
| Functions.RecastObjectType | src/wasm-lib/kcl/src/unparser.rs:766-780 | pushing ` param,` per property and popping the last comma gives `{ p1, p2 }`, or `{}` with no properties |
| Functions.ObjectTypeClosed | src/wasm-lib/kcl/src/unparser.rs:766-780 | an object type is `{}` iff it has no properties; otherwise it ends with its last property and ` }` |
| Functions.ObjectTypeExample | src/wasm-lib/kcl/src/unparser.rs:742-780 | `{ a: ty, b? }`: a typed property and a property with an empty default |
| Functions.ParameterShape | src/wasm-lib/kcl/src/unparser.rs:742-758 | a parameter is exactly `@` when unlabelled, its name, `?` when it has a default, then `: type` when typed, then ` = literal` for a literal default, in that order |
| Functions.ParameterIgnoresLayout | src/wasm-lib/kcl/src/unparser.rs:742-758 | a parameter's text depends on neither options nor level |
| Functions.FunctionIgnoresFinalNewline | src/wasm-lib/kcl/src/unparser.rs:719-738 | a function prints the same whatever `insert_final_newline` the caller passes |
| Functions.FunctionBodyTrimmed | src/wasm-lib/kcl/src/unparser.rs:719-738 | the body has no edge whitespace and is followed by a newline and the closing brace at the function's own level |

## Findings

| source | as written | input that shows it | evidently intended | confidence | as-written member | corrected member |
|---|---|---|---|---|---|---|
| src/wasm-lib/kcl/src/unparser.rs:608-620 | an equally binding right operand is wrapped only when the parent is `-` or `/` | `a * (b % c)` and `(a * b) % c` both print `a * b % c`; `a ^ (b ^ c)` and `(a ^ b) ^ c` both print `a ^ b ^ c` | also wrap an equally binding right operand unless it repeats the parent's associative operator (`+`, `*`, `&`, `\|`), so that different groupings print differently | not executed; high for `^`, which follows from the wrap rule alone; high for `*`/`%` provided the precedence table gives them equal binding, as in this model's table, since their two groupings have different values | Exprs.EqualPrecedenceGroupingsCollide, Exprs.MulModGroupingsCollide, Exprs.PowGroupingsCollide (about `Recast.RecastBinary`) | Exprs.IntendedGroupingsDiffer, Exprs.IntendedRightOperandParentheses (about `Exprs.RecastBinaryIntended`) |

The rest of the model keeps `Recast.RecastBinary` as written, since it models what the
printer does. `Exprs.RecastBinaryIntended` applies the corrected rule to operator and
unary expressions at every depth. Inside other operands (calls, `if` expressions), it
prints as the printer does.

## Left out

- Parsing and lexing are outside the model. So are the round trips `recast(parse(s))`
  that the tests check: only facts about the printer are stated.
- `FormatOptions::get_indentation`, `get_indentation_offset_pipe`, `precedence()`,
  `non_code_nodes_len` and the operators' `Display` are not part of this model.
  They have concrete stand-ins, described above.
- Floating point: `f64::fract` and Rust's `{x:?}` float formatting are inputs of a
  number literal (`integral`, `canonical`), not computed.
- `Expr::None` is excluded by precondition. In the source it is an
  `unimplemented!` panic.
- Allocation and `Vec::with_capacity`: the if printer's pre-sized buffer is modelled
  by the proved line count only.
- `src/wasm-lib/kcl/src/lib.rs` (the `recast` wrappers, `try_f64_to_*` float casts,
  `println!`): thin plumbing and floating point.
- `src/wasm-lib/tests/executor/cache.rs`, `e2e/playwright/testing-gizmo.spec.ts` and the
  React, hook and link modules under `src/`: engine execution, browser tests, UI and
  network code, unrelated to the printer.
- Programs.LayoutWithoutTrivia: states the layout only for programs without trivia.
  With trivia, the chunk structure is given by `Programs.TriviaReplacesLineBreak` and
  the fold methods.
- Objects.ObjectItemsWithoutTrivia: the comma rule is stated for objects without
  trivia. With trivia, the last position, not the last property, decides the missing
  comma, and that is captured by the `PositionItems` definition the methods are proved
  against.
- Arrays.ArrayItemsWithoutTrivia: stated without trivia. With trivia, only the last
  item loses one `, `, which `Arrays.StripLastItemComma` states.
