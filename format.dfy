/**
 * `FormatOptions` and the indentation strings derived from it.  The two indentation
 * helpers live outside the printer; this model fixes them to spaces (`tabSize` per
 * level) or tabs (one per level), and offsets a pipe stage's nested lines by the width
 * of `|> ` as the printer's own multi-line outputs inside pipes show.
 */
module Format {
  import opened Text
  import opened Ast

  datatype FormatOptions = FormatOptions(tabSize: nat, useTabs: bool, insertFinalNewline: bool)

  /** `FormatOptions::default()`: two spaces, and a final newline. */
  const DefaultOptions: FormatOptions := FormatOptions(2, false, true)

  /** `get_indentation(level)`. */
  function Indentation(o: FormatOptions, level: nat): (r: string)
    ensures AllWhitespace(r)
    ensures |r| == if o.useTabs then level else level * o.tabSize
  {
    if o.useTabs then Repeat('\t', level) else Repeat(' ', level * o.tabSize)
  }

  /** `get_indentation_offset_pipe(level)`: the whole level's indentation plus the width of `|> ` (one more tab with tabs). */
  function IndentationOffsetPipe(o: FormatOptions, level: nat): (r: string)
    ensures AllWhitespace(r)
    ensures |r| == if o.useTabs then level + 1 else level * o.tabSize + |PIPE_OPERATOR| + 1
  {
    if o.useTabs then Repeat('\t', level + 1)
    else Repeat(' ', level * o.tabSize) + Repeat(' ', |PIPE_OPERATOR| + 1)
  }
}
