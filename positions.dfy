/**
 * The `flat_map` over the positions of an array or an object, on the printed texts alone:
 * how the items collected so far relate to the whole, and what the items are when the
 * container holds no trivia.
 */
module Positions {
  import opened Text
  import opened Ast
  import opened Recast

  /**
   * After the positions below `i`, which used `e` elements: `items` is what they
   * contributed, and the remaining positions give the rest.
   */
  ghost predicate Collected(slots: seq<Slot>, slotTexts: seq<seq<string>>, texts: seq<string>, sep: string, lastSep: string,
                            items: seq<string>, i: nat, e: nat)
    requires |slotTexts| == |slots|
  {
    e + FreeSlots(slots, i, PositionCount(slots, texts)) <= |texts| &&
    FreeSlots(slots, 0, PositionCount(slots, texts)) <= |texts| &&
    PositionItems(slots, slotTexts, texts, sep, lastSep, 0, 0) == items + PositionItems(slots, slotTexts, texts, sep, lastSep, i, e)
  }

  /** Nothing is collected before the first position. */
  lemma CollectedStart(slots: seq<Slot>, slotTexts: seq<seq<string>>, texts: seq<string>, sep: string, lastSep: string)
    requires |slotTexts| == |slots| && FreeSlots(slots, 0, PositionCount(slots, texts)) <= |texts|
    ensures Collected(slots, slotTexts, texts, sep, lastSep, [], 0, 0)
  {
    assert [] + PositionItems(slots, slotTexts, texts, sep, lastSep, 0, 0) == PositionItems(slots, slotTexts, texts, sep, lastSep, 0, 0);
  }

  /** Visiting one more position appends its part and advances the element iterator past what it used. */
  lemma PositionStep(slots: seq<Slot>, slotTexts: seq<seq<string>>, texts: seq<string>, sep: string, lastSep: string,
                     items: seq<string>, i: nat, e: nat)
    requires |slotTexts| == |slots| && i < PositionCount(slots, texts)
    requires Collected(slots, slotTexts, texts, sep, lastSep, items, i, e)
    ensures Collected(slots, slotTexts, texts, sep, lastSep, items + PositionPart(slots, slotTexts, texts, sep, lastSep, i, e),
                      i + 1, NextElement(slots, i, e))
  {
    var n := PositionCount(slots, texts);
    FreeSlotsStep(slots, i, n);
    SeqAppendAssoc(items, PositionPart(slots, slotTexts, texts, sep, lastSep, i, e),
                   PositionItems(slots, slotTexts, texts, sep, lastSep, i + 1, NextElement(slots, i, e)));
  }

  /** After the last position, everything has been collected. */
  lemma CollectedEnd(slots: seq<Slot>, slotTexts: seq<seq<string>>, texts: seq<string>, sep: string, lastSep: string,
                     items: seq<string>, e: nat)
    requires |slotTexts| == |slots|
    requires Collected(slots, slotTexts, texts, sep, lastSep, items, PositionCount(slots, texts), e)
    ensures items == PositionItems(slots, slotTexts, texts, sep, lastSep, 0, 0)
  {
    assert items + [] == items;
  }

  /** The texts from `i` on, each followed by `sep`, the last one by `lastSep`. */
  function SepItemsFrom(xs: seq<string>, sep: string, lastSep: string, i: nat): seq<string>
    decreases |xs| - i
  {
    if i >= |xs| then []
    else [xs[i] + (if i == |xs| - 1 then lastSep else sep)] + SepItemsFrom(xs, sep, lastSep, i + 1)
  }

  /** Item `j` is text `j` followed by `sep`, or by `lastSep` when it is the last. */
  lemma {:induction false} SepItemsAt(xs: seq<string>, sep: string, lastSep: string, i: nat, j: nat)
    requires i <= j < |xs|
    ensures |SepItemsFrom(xs, sep, lastSep, i)| == |xs| - i
    ensures SepItemsFrom(xs, sep, lastSep, i)[j - i] == xs[j] + (if j == |xs| - 1 then lastSep else sep)
    decreases |xs| - i
  {
    if i < j {
      SepItemsAt(xs, sep, lastSep, i + 1, j);
    } else if i + 1 < |xs| {
      SepItemsAt(xs, sep, lastSep, i + 1, i + 1);
    }
  }

  /** All the items at once: one per text, each text followed by its separator. */
  lemma SepItemsShape(xs: seq<string>, sep: string, lastSep: string)
    ensures var items := SepItemsFrom(xs, sep, lastSep, 0);
      |items| == |xs| &&
      forall i :: 0 <= i < |items| ==> items[i] == xs[i] + (if i == |items| - 1 then lastSep else sep)
  {
    if xs == [] {
      assert SepItemsFrom(xs, sep, lastSep, 0) == [];
    } else {
      SepItemsAt(xs, sep, lastSep, 0, 0);
      forall i | 0 <= i < |xs|
        ensures SepItemsFrom(xs, sep, lastSep, 0)[i] == xs[i] + (if i == |xs| - 1 then lastSep else sep)
      {
        SepItemsAt(xs, sep, lastSep, 0, i);
      }
    }
  }

  /** Texts each followed by `sep`, the last by `lastSep`, concatenate to the texts joined by `sep`, then `lastSep`. */
  lemma {:induction false} ConcatSepItems(xs: seq<string>, sep: string, lastSep: string)
    requires xs != []
    ensures Concat(SepItemsFrom(xs, sep, lastSep, 0)) == Join(xs, sep) + lastSep
    decreases |xs|
  {
    var init := xs[..|xs| - 1];
    var x := xs[|xs| - 1];
    assert xs == init + [x];
    SepItemsSnoc(init, x, sep, lastSep, 0);
    var initItems := SepItemsFrom(init, sep, sep, 0);
    ConcatSnoc(initItems, x + lastSep);
    JoinSnoc(init, x, sep);
    if init == [] {
      assert initItems == [];
    } else {
      ConcatSepItems(init, sep, sep);
      AppendAssoc4(Join(init, sep), sep, x, lastSep);
    }
  }

  /** Without trivia, every position holds the next element. */
  lemma {:induction false} ItemsWithoutTrivia(texts: seq<string>, sep: string, lastSep: string, i: nat)
    requires i <= |texts|
    ensures FreeSlots([], i, PositionCount([], texts)) == |texts| - i
    ensures PositionItems([], [], texts, sep, lastSep, i, i) == SepItemsFrom(texts, sep, lastSep, i)
    decreases |texts| - i
  {
    if i < |texts| {
      ItemsWithoutTrivia(texts, sep, lastSep, i + 1);
    }
  }

  /** Appending a text: the old last text now takes `sep`, the new one `lastSep`. */
  lemma {:induction false} SepItemsSnoc(xs: seq<string>, x: string, sep: string, lastSep: string, i: nat)
    requires i <= |xs|
    ensures SepItemsFrom(xs + [x], sep, lastSep, i) == SepItemsFrom(xs, sep, sep, i) + [x + lastSep]
    decreases |xs| - i
  {
    if i < |xs| {
      SepItemsSnoc(xs, x, sep, lastSep, i + 1);
      assert (xs + [x])[i] == xs[i];
      var head := xs[i] + sep;
      assert SepItemsFrom(xs, sep, sep, i) == [head] + SepItemsFrom(xs, sep, sep, i + 1);
      SeqAppendAssoc([head], SepItemsFrom(xs, sep, sep, i + 1), [x + lastSep]);
    } else {
      assert SepItemsFrom(xs + [x], sep, lastSep, i + 1) == [];
    }
  }

  /** The last item of a non-empty list ends with its separator. */
  lemma {:induction false} SepItemsLast(xs: seq<string>, sep: string, lastSep: string, i: nat)
    requires i < |xs|
    ensures var r := SepItemsFrom(xs, sep, lastSep, i);
      r != [] && r[|r| - 1] == xs[|xs| - 1] + lastSep
    decreases |xs| - i
  {
    if i + 1 < |xs| {
      SepItemsLast(xs, sep, lastSep, i + 1);
    }
  }

  /** Texts each followed by `", "`, the last one's comma dropped, concatenate to the texts joined by commas. */
  lemma {:induction false} CommaItemsJoin(xs: seq<string>)
    ensures Concat(StripLastComma(SepItemsFrom(xs, ", ", ", ", 0))) == Join(xs, ", ")
    decreases |xs|
  {
    if xs != [] {
      var init := xs[..|xs| - 1];
      var x := xs[|xs| - 1];
      assert xs == init + [x];
      SepItemsSnoc(init, x, ", ", ", ", 0);
      var initItems := SepItemsFrom(init, ", ", ", ", 0);
      StripAppendedComma(initItems, x);
      JoinSnoc(init, x, ", ");
      if init == [] {
        assert initItems == [];
      } else {
        CommaItemsJoin(init);
        SepItemsLast(init, ", ", ", ", 0);
        EndsWithAppended(init[|init| - 1], ", ");
        StrippedConcat(initItems);
      }
    }
  }

  /** Dropping the comma of an appended comma item leaves the text itself. */
  lemma StripAppendedComma(items: seq<string>, x: string)
    ensures Concat(StripLastComma(items + [x + ", "])) == Concat(items) + x
  {
    EndsWithAppended(x, ", ");
    assert StripSuffixOr(x + ", ", ", ") == x;
    assert (items + [x + ", "])[..|items|] == items;
    assert StripLastComma(items + [x + ", "]) == items + [x];
    ConcatSnoc(items, x);
  }

  /** When the last item ends in a comma, dropping it shortens the concatenation by exactly that comma. */
  lemma StrippedConcat(items: seq<string>)
    requires items != [] && EndsWith(items[|items| - 1], ", ")
    ensures Concat(items) == Concat(StripLastComma(items)) + ", "
  {
    var init := items[..|items| - 1];
    var last := items[|items| - 1];
    var stripped := StripSuffixOr(last, ", ");
    assert last == stripped + ", ";
    assert Concat(items) == Concat(init) + last;
    assert StripLastComma(items) == init + [stripped];
    ConcatSnoc(init, stripped);
    AppendAssoc(Concat(init), stripped, ", ");
  }

  /**
   * Texts each followed by `sep`, joined by `inner`, are the texts joined by `sep + inner`
   * and one more `sep`.
   */
  lemma {:induction false} SeparatedJoin(xs: seq<string>, sep: string, inner: string)
    requires xs != []
    ensures Join(SepItemsFrom(xs, sep, sep, 0), inner) == Join(xs, sep + inner) + sep
    decreases |xs|
  {
    var init := xs[..|xs| - 1];
    var x := xs[|xs| - 1];
    assert xs == init + [x];
    SepItemsSnoc(init, x, sep, sep, 0);
    var initItems := SepItemsFrom(init, sep, sep, 0);
    JoinSnoc(initItems, x + sep, inner);
    JoinSnoc(init, x, sep + inner);
    if init == [] {
      assert initItems == [];
    } else {
      SeparatedJoin(init, sep, inner);
      SepItemsLast(init, sep, sep, 0);
      JoinRegroup(Join(init, sep + inner), sep, inner, x, sep);
    }
  }

  /** The last text takes `lastSep`; all the others take `sep` followed by `inner`. */
  lemma LastSeparatedJoin(xs: seq<string>, sep: string, lastSep: string, inner: string)
    requires xs != []
    ensures Join(SepItemsFrom(xs, sep, lastSep, 0), inner) == Join(xs, sep + inner) + lastSep
  {
    var init := xs[..|xs| - 1];
    var x := xs[|xs| - 1];
    assert xs == init + [x];
    SepItemsSnoc(init, x, sep, lastSep, 0);
    var initItems := SepItemsFrom(init, sep, sep, 0);
    JoinSnoc(initItems, x + lastSep, inner);
    JoinSnoc(init, x, sep + inner);
    if init == [] {
      assert initItems == [];
    } else {
      SeparatedJoin(init, sep, inner);
      JoinRegroup(Join(init, sep + inner), sep, inner, x, lastSep);
    }
  }

  lemma JoinRegroup(j: string, sep: string, inner: string, x: string, last: string)
    ensures j + sep + inner + (x + last) == j + (sep + inner) + x + last
  {
  }
}
