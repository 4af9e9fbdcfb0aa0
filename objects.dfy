/**
 * `ObjectExpression::recast` and `recast_multi_line`: when an object stays on one line,
 * and what its multi-line layout looks like.
 */
module Objects {
  import opened Text
  import opened Ast
  import opened Format
  import opened Recast
  import opened Positions
  import opened Trivia

  /**
   * An object stays on one line exactly when none of its trivia forces new lines and its
   * one-line form is at most 40 bytes long; otherwise it takes the multi-line layout.
   */
  lemma ObjectLayout(obj: ObjectExpression, o: FormatOptions, level: nat, ctxt: ExprContext)
    requires WFObject(obj)
    ensures var flat := ObjectFlat(obj, o, level, ctxt);
      (RecastObject(obj, o, level, ctxt) == flat <==> !ObjectHasForcingTrivia(obj) && Utf8Len(flat) <= MaxArrayLength) &&
      (RecastObject(obj, o, level, ctxt) != flat ==> RecastObject(obj, o, level, ctxt) == RecastObjectMultiLine(obj, o, level, ctxt))
  {
    var inner := ContainerIndentation(o, level + 1, ctxt);
    ObjectFormsDiffer(inner, Join(ObjectItems(obj, o, level, ctxt), inner), ContainerIndentation(o, level, ctxt),
                      Join(PropertyTexts(obj, o, level, ctxt), ", "));
  }

  /** The multi-line layout opens with a newline, the one-line layout with a space. */
  lemma ObjectFormsDiffer(inner: string, items: string, endIndent: string, props: string)
    ensures "{\n" + inner + items + "\n" + endIndent + "}" != "{ " + props + " }"
  {
    assert ("{\n" + inner + items + "\n" + endIndent + "}")[1] == '\n';
    assert ("{ " + props + " }")[1] == ' ';
  }

  /** Trivia made only of inline comments leaves a short object on one line. */
  lemma InlineCommentsKeepObjectFlat(obj: ObjectExpression, o: FormatOptions, level: nat, ctxt: ExprContext)
    requires WFObject(obj)
    requires forall k, j :: 0 <= k < |obj.meta.nonCodeNodes| && 0 <= j < |obj.meta.nonCodeNodes[k].nodes| ==>
      obj.meta.nonCodeNodes[k].nodes[j].value.InlineComment?
    requires Utf8Len(ObjectFlat(obj, o, level, ctxt)) <= MaxArrayLength
    ensures RecastObject(obj, o, level, ctxt) == "{ " + Join(PropertyTexts(obj, o, level, ctxt), ", ") + " }"
  {
    InlineCommentsDoNotForce(obj.meta.nonCodeNodes, 0);
  }

  /**
   * Without trivia, the items of the multi-line layout are the properties, each followed
   * by `",\n"` except the last, which is followed by nothing.
   */
  lemma ObjectItemsWithoutTrivia(obj: ObjectExpression, o: FormatOptions, level: nat, ctxt: ExprContext)
    requires WFObject(obj) && obj.meta.nonCodeNodes == []
    ensures var items := ObjectItems(obj, o, level, ctxt);
      var texts := PropertyTexts(obj, o, level, ctxt);
      |items| == |texts| &&
      forall i :: 0 <= i < |items| ==> items[i] == texts[i] + (if i == |items| - 1 then "" else ",\n")
  {
    var texts := PropertyTexts(obj, o, level, ctxt);
    assert SlotTexts(obj.meta, o) == [];
    ItemsWithoutTrivia(texts, ",\n", "", 0);
    SepItemsShape(texts, ",\n", "");
  }

  /**
   * Without trivia, a multi-line object is its properties one per line, each line but the
   * last ending in a comma, between braces on lines of their own.
   */
  lemma ObjectMultiLineWithoutTrivia(obj: ObjectExpression, o: FormatOptions, level: nat, ctxt: ExprContext)
    requires WFObject(obj) && obj.meta.nonCodeNodes == [] && obj.properties != []
    ensures var inner := ContainerIndentation(o, level + 1, ctxt);
      RecastObjectMultiLine(obj, o, level, ctxt) ==
        "{\n" + inner + Join(PropertyTexts(obj, o, level, ctxt), ",\n" + inner) + "\n" + ContainerIndentation(o, level, ctxt) + "}"
  {
    var inner := ContainerIndentation(o, level + 1, ctxt);
    var texts := PropertyTexts(obj, o, level, ctxt);
    assert SlotTexts(obj.meta, o) == [];
    ItemsWithoutTrivia(texts, ",\n", "", 0);
    LastSeparatedJoin(texts, ",\n", "", inner);
    assert Join(texts, ",\n" + inner) + "" == Join(texts, ",\n" + inner);
  }

  /** An object with no properties and no trivia prints as `{  }`. */
  lemma EmptyObject(obj: ObjectExpression, o: FormatOptions, level: nat, ctxt: ExprContext)
    requires obj.properties == [] && obj.meta.nonCodeNodes == [] && obj.meta.startNodes == []
    ensures WFObject(obj) && RecastObject(obj, o, level, ctxt) == "{  }"
  {
    assert NonCodeNodesLen(obj.meta.nonCodeNodes) == 0;
    assert FreeSlots(obj.meta.nonCodeNodes, 0, |obj.properties| + NonCodeNodesLen(obj.meta.nonCodeNodes)) == 0;
    assert WFMeta(obj.meta);
    assert WFObject(obj);
    assert PropertyTexts(obj, o, level, ctxt) == [];
    assert !ObjectHasForcingTrivia(obj);
    assert ObjectFlat(obj, o, level, ctxt) == "{  }";
    assert "{  }"[..3] == "{  " && "{  "[..2] == "{ " && "{ "[..1] == "{" && "{"[..0] == "";
    assert Utf8Len("{  }") == 4;
  }
}
