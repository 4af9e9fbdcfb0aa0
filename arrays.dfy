/**
 * `ArrayExpression::recast`: collecting the items (elements and the trivia between them),
 * dropping the last item's comma, and choosing between the one-line and the multi-line
 * layout; and what those layouts look like.
 */
module Arrays {
  import opened Text
  import opened Ast
  import opened Format
  import opened Recast
  import opened Positions

  // ---------------------------------------------------------------------------
  // The steps of `ArrayExpression::recast`

  /**
   * The printed nodes of one trivia slot, at level 0, while the "found a comment that
   * forces a new line" flag is carried along.
   */
  method RecastSlot(a: ArrayExpression, o: FormatOptions, k: nat, found: bool) returns (texts: seq<string>, foundAfter: bool)
    requires WFArray(a) && k < |a.meta.nonCodeNodes|
    ensures texts == SlotTexts(a.meta, o)[k]
    ensures foundAfter == (found || SlotForces(a.meta.nonCodeNodes[k]))
  {
    assert WFMeta(a.meta);
    var nodes := a.meta.nonCodeNodes[k].nodes;
    texts := [];
    foundAfter := found;
    var j := 0;
    while j < |nodes|
      invariant 0 <= j <= |nodes|
      invariant |texts| == j && forall m :: 0 <= m < j ==> texts[m] == RecastNonCode(nodes[m], o, 0)
      invariant foundAfter == (found || exists m :: 0 <= m < j && ShouldCauseArrayNewline(nodes[m].value))
    {
      foundAfter := foundAfter || ShouldCauseArrayNewline(nodes[j].value);
      texts := texts + [RecastNonCode(nodes[j], o, 0)];
      j := j + 1;
    }
    assert texts == SlotNodeTexts(a.meta, o, 0, k);
  }

  /**
   * The `flat_map` over positions `0 .. num_items`: the trivia at a position of the
   * index, or else the next element and `", "`; and whether any visited trivia forces
   * the multi-line layout.
   */
  method CollectArrayItems(a: ArrayExpression, o: FormatOptions) returns (items: seq<string>, found: bool)
    requires WFArray(a)
    ensures items == ArrayItems(a, o)
    ensures found == ArrayHasForcingTrivia(a)
  {
    var slots := a.meta.nonCodeNodes;
    var numItems := |a.elements| + NonCodeNodesLen(slots);
    ghost var slotTexts := SlotTexts(a.meta, o);
    ghost var texts := ElementTexts(a, o);
    assert numItems == PositionCount(slots, texts);
    items := [];
    found := false;
    var elems: nat := 0;
    var i := 0;
    CollectedStart(slots, slotTexts, texts, ", ", ", ");
    while i < numItems
      invariant 0 <= i <= numItems
      invariant Collected(slots, slotTexts, texts, ", ", ", ", items, i, elems)
      invariant found == ForcingBelow(slots, i)
    {
      items, elems, found := ArrayStep(a, o, i, items, elems, found, slotTexts, texts);
      i := i + 1;
    }
    ArrayItemsCollected(a, o, items, elems);
  }

  /** One step of the `flat_map`: the items of position `i` are appended, and the flag and the element iterator advance. */
  method ArrayStep(a: ArrayExpression, o: FormatOptions, i: nat, items: seq<string>, elems: nat, found: bool,
                   ghost slotTexts: seq<seq<string>>, ghost texts: seq<string>)
    returns (itemsAfter: seq<string>, elemsAfter: nat, foundAfter: bool)
    requires WFArray(a) && slotTexts == SlotTexts(a.meta, o) && texts == ElementTexts(a, o)
    requires i < PositionCount(a.meta.nonCodeNodes, texts)
    requires Collected(a.meta.nonCodeNodes, slotTexts, texts, ", ", ", ", items, i, elems)
    requires found == ForcingBelow(a.meta.nonCodeNodes, i)
    ensures itemsAfter == items + PositionPart(a.meta.nonCodeNodes, slotTexts, texts, ", ", ", ", i, elems)
    ensures elemsAfter == NextElement(a.meta.nonCodeNodes, i, elems)
    ensures Collected(a.meta.nonCodeNodes, slotTexts, texts, ", ", ", ", itemsAfter, i + 1, elemsAfter)
    ensures foundAfter == ForcingBelow(a.meta.nonCodeNodes, i + 1)
  {
    var part;
    part, foundAfter := ArrayPosition(a, o, i, elems, found, slotTexts, texts);
    PositionStep(a.meta.nonCodeNodes, slotTexts, texts, ", ", ", ", items, i, elems);
    itemsAfter := items + part;
    elemsAfter := NextElement(a.meta.nonCodeNodes, i, elems);
  }

  /** Once every position is visited, the items are those of the array and the flag is its forcing trivia. */
  lemma ArrayItemsCollected(a: ArrayExpression, o: FormatOptions, items: seq<string>, elems: nat)
    requires WFArray(a)
    requires Collected(a.meta.nonCodeNodes, SlotTexts(a.meta, o), ElementTexts(a, o), ", ", ", ", items,
                       PositionCount(a.meta.nonCodeNodes, ElementTexts(a, o)), elems)
    ensures items == ArrayItems(a, o)
    ensures ArrayItemCount(a) == PositionCount(a.meta.nonCodeNodes, ElementTexts(a, o))
  {
    CollectedEnd(a.meta.nonCodeNodes, SlotTexts(a.meta, o), ElementTexts(a, o), ", ", ", ", items, elems);
  }

  /** One position of the `flat_map`: its items, and the flag raised by trivia there that forces new lines. */
  method ArrayPosition(a: ArrayExpression, o: FormatOptions, i: nat, elems: nat, found: bool,
                       ghost slotTexts: seq<seq<string>>, ghost texts: seq<string>)
    returns (part: seq<string>, foundAfter: bool)
    requires WFArray(a) && slotTexts == SlotTexts(a.meta, o) && texts == ElementTexts(a, o)
    requires i < PositionCount(a.meta.nonCodeNodes, texts)
    requires elems + FreeSlots(a.meta.nonCodeNodes, i, PositionCount(a.meta.nonCodeNodes, texts)) <= |texts|
    requires found == ForcingBelow(a.meta.nonCodeNodes, i)
    ensures part == PositionPart(a.meta.nonCodeNodes, slotTexts, texts, ", ", ", ", i, elems)
    ensures foundAfter == ForcingBelow(a.meta.nonCodeNodes, i + 1)
  {
    assert WFMeta(a.meta);
    assert |texts| == |a.elements|;
    ForcingBelowStep(a.meta.nonCodeNodes, i);
    match SlotOf(a.meta.nonCodeNodes, i) {
      case Some(k) =>
        part, foundAfter := RecastSlot(a, o, k, found);
      case None =>
        FreeSlotsStep(a.meta.nonCodeNodes, i, PositionCount(a.meta.nonCodeNodes, texts));
        part := [RecastExpr(a.elements[elems], o, 0, Other) + ", "];
        foundAfter := found;
    }
  }

  /** `format_items.last_mut()` and `strip_suffix(", ")`. */
  method StripLastItemComma(items: seq<string>) returns (r: seq<string>)
    ensures r == StripLastComma(items)
  {
    r := items;
    if |r| > 0 {
      var item := r[|r| - 1];
      if EndsWith(item, ", ") {
        r := r[..|r| - 1] + [item[..|item| - 2]];
      }
    }
  }

  /** The lines of the multi-line layout, joined. */
  method FormatArrayLines(inner: string, items: seq<string>) returns (lines: string)
    ensures lines == ArrayLines(inner, items)
  {
    lines := "";
    var i := 0;
    while i < |items|
      invariant 0 <= i <= |items|
      invariant lines == ArrayLines(inner, items[..i])
    {
      assert items[..i + 1][..i] == items[..i];
      var s := items[i];
      var body := if EndsWith(s, " ") then s[..|s| - 1] else s;
      var newline := if EndsWith(s, "\n") then "" else "\n";
      lines := lines + (inner + body + newline);
      i := i + 1;
    }
    assert items[..|items|] == items;
  }

  /** `ArrayExpression::recast`. */
  method RecastArrayExpression(a: ArrayExpression, o: FormatOptions, level: nat, ctxt: ExprContext) returns (r: string)
    requires WFArray(a)
    ensures r == RecastArray(a, o, level, ctxt)
  {
    var items, foundLineComment := CollectArrayItems(a, o);
    items := StripLastItemComma(items);
    var flatRecast := "[" + Concat(items) + "]";
    var multiLine := Utf8Len(flatRecast) > MaxArrayLength || foundLineComment;
    if !multiLine {
      return flatRecast;
    }
    var inner := if ctxt == Pipe then IndentationOffsetPipe(o, level + 1) else Indentation(o, level + 1);
    var lines := FormatArrayLines(inner, items);
    var endIndent := if ctxt == Pipe then IndentationOffsetPipe(o, level) else Indentation(o, level);
    r := "[\n" + lines + endIndent + "]";
  }

  // ---------------------------------------------------------------------------
  // Properties

  /** Moving the bound past one position adds the trivia of that position, if any. */
  lemma ForcingBelowStep(slots: seq<Slot>, i: nat)
    requires DistinctIndices(slots)
    ensures ForcingBelow(slots, i + 1) <==>
      ForcingBelow(slots, i) || (SlotOf(slots, i).Some? && SlotForces(slots[SlotOf(slots, i).value]))
  {
    if ForcingBelow(slots, i + 1) && !ForcingBelow(slots, i) {
      var k :| 0 <= k < |slots| && slots[k].index < i + 1 && SlotForces(slots[k]);
      SlotOfFinds(slots, k);
    }
  }

  /** Each line of the multi-line layout is indented and ends its line. */
  lemma ArrayLineShape(inner: string, item: string)
    ensures StartsWith(ArrayLine(inner, item), inner)
    ensures EndsWith(ArrayLine(inner, item), "\n")
    ensures |ArrayLine(inner, item)| >= |inner| + |item|
  {
    var line := ArrayLine(inner, item);
    var body := StripSuffixOr(item, " ");
    var newline := if EndsWith(item, "\n") then "" else "\n";
    assert line == inner + body + newline;
    assert line[..|inner|] == inner;
    if EndsWith(item, "\n") {
      assert !EndsWith(item, " ") by {
        assert item[|item| - 1] == '\n';
      }
      assert line == inner + item;
      EndsWithAppended(inner, item);
      assert line[|line| - |item|..] == item;
    } else {
      EndsWithAppended(inner + body, "\n");
    }
  }

  /** The lines of the multi-line layout are at least as long as the items they hold. */
  lemma {:induction false} ArrayLinesLength(inner: string, items: seq<string>)
    ensures |ArrayLines(inner, items)| >= |Concat(items)|
    decreases |items|
  {
    if items != [] {
      ArrayLinesLength(inner, items[..|items| - 1]);
      ArrayLineShape(inner, items[|items| - 1]);
    }
  }

  /**
   * An array stays on one line exactly when its one-line form is at most 40 bytes long
   * and none of the trivia it visits is of a kind that forces new lines.
   */
  lemma ArrayLayout(a: ArrayExpression, o: FormatOptions, level: nat, ctxt: ExprContext)
    requires WFArray(a)
    ensures var flat := ArrayFlatText(ArrayFormatItems(a, o));
      (RecastArray(a, o, level, ctxt) == flat <==> Utf8Len(flat) <= MaxArrayLength && !ArrayHasForcingTrivia(a)) &&
      (RecastArray(a, o, level, ctxt) != flat ==>
         RecastArray(a, o, level, ctxt) == ArrayMultiLineText(ArrayFormatItems(a, o), o, level, ctxt))
  {
    var items := ArrayFormatItems(a, o);
    MultiLineDiffers(items, o, level, ctxt);
  }

  /** The multi-line layout is never the one-line layout: it is longer. */
  lemma MultiLineDiffers(items: seq<string>, o: FormatOptions, level: nat, ctxt: ExprContext)
    ensures |ArrayMultiLineText(items, o, level, ctxt)| > |ArrayFlatText(items)|
  {
    ArrayLinesLength(ContainerIndentation(o, level + 1, ctxt), items);
  }

  /** Without trivia an array stays on one line when short enough, as its elements separated by `, `. */
  lemma FlatWithoutTrivia(a: ArrayExpression, o: FormatOptions, level: nat, ctxt: ExprContext)
    requires WFArray(a) && a.meta.nonCodeNodes == []
    ensures !ArrayHasForcingTrivia(a)
    ensures ArrayFlatText(ArrayFormatItems(a, o)) == "[" + Join(ElementTexts(a, o), ", ") + "]"
    ensures Utf8Len("[" + Join(ElementTexts(a, o), ", ") + "]") <= MaxArrayLength ==>
      RecastArray(a, o, level, ctxt) == "[" + Join(ElementTexts(a, o), ", ") + "]"
  {
    ItemsWithoutTrivia(ElementTexts(a, o), ", ", ", ", 0);
    CommaItemsJoin(ElementTexts(a, o));
    ArrayLayout(a, o, level, ctxt);
  }

  /**
   * Without trivia, every element but the last is followed by `", "` and the last one by
   * nothing: the array never ends with a trailing comma.
   */
  lemma ArrayItemsWithoutTrivia(a: ArrayExpression, o: FormatOptions)
    requires WFArray(a) && a.meta.nonCodeNodes == []
    ensures var items := ArrayFormatItems(a, o);
      var texts := ElementTexts(a, o);
      |items| == |texts| &&
      forall i :: 0 <= i < |items| ==> items[i] == texts[i] + (if i == |items| - 1 then "" else ", ")
  {
    var texts := ElementTexts(a, o);
    assert SlotTexts(a.meta, o) == [];
    ItemsWithoutTrivia(texts, ", ", ", ", 0);
    var raw := SepItemsFrom(texts, ", ", ", ", 0);
    SepItemsShape(texts, ", ", ", ");
    if raw != [] {
      var last := raw[|raw| - 1];
      EndsWithAppended(texts[|texts| - 1], ", ");
      assert StripSuffixOr(last, ", ") == texts[|texts| - 1];
    }
  }
}
