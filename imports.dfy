/**
 * `ImportStatement::recast`: the loop that writes a list of imported names, and what the
 * printed statement promises about aliases.
 */
module Imports {
  import opened Text
  import opened Ast
  import opened Format
  import opened Recast

  /** `ImportStatement::recast`, pushing onto the result in the source's order. */
  method RecastImportStatement(s: ImportStatement, o: FormatOptions, level: nat) returns (r: string)
    ensures r == RecastImport(s, o, level)
  {
    var indentation := Indentation(o, level);
    var vis := if s.visibility == Export then "export " else "";
    r := vis + indentation + "import ";
    ghost var head := r;
    match s.selector {
      case List(items) =>
        r := PushItems(r, items);
        r := r + " from ";
        AppendAssoc(head, Join(ImportItemTexts(items), ", "), " from ");
      case Glob =>
        r := r + "* from ";
      case NoSelector(_) =>
    }
    r := r + ("\"" + s.path + "\"");
    if s.selector.NoSelector? && s.selector.alias.Some? {
      ghost var before := r;
      r := r + " as ";
      r := r + s.selector.alias.value;
      AppendAssoc(before, " as ", s.selector.alias.value);
    }
  }

  /** The loop over the items of a list import: names separated by `, `, each with its alias unless that repeats the name. */
  method PushItems(start: string, items: seq<ImportItem>) returns (r: string)
    ensures r == start + Join(ImportItemTexts(items), ", ")
  {
    r := start;
    var texts := ImportItemTexts(items);
    var i := 0;
    while i < |items|
      invariant 0 <= i <= |items|
      invariant r == start + Join(texts[..i], ", ")
    {
      JoinPrefixSnoc(texts, i + 1, ", ");
      if i > 0 {
        r := r + ", ";
      }
      ghost var mid := r;
      r := r + items[i].name;
      if items[i].alias.Some? {
        if items[i].name != items[i].alias.value {
          r := r + (" as " + items[i].alias.value);
          AppendAssoc(mid, items[i].name, " as " + items[i].alias.value);
        }
      }
      assert r == mid + texts[i];
      if i > 0 {
        AppendAssoc4(start, Join(texts[..i], ", "), ", ", texts[i]);
      }
      i := i + 1;
    }
    assert texts[..|items|] == texts;
  }

  /**
   * An imported name prints as itself, followed by ` as ` and its alias exactly when it
   * has an alias that differs from the name.
   */
  lemma ImportItemAlias(item: ImportItem)
    ensures var t := ImportItemText(item);
      StartsWith(t, item.name) &&
      (t == item.name <==> item.alias.None? || item.alias.value == item.name) &&
      (t != item.name ==> t == item.name + " as " + item.alias.value)
  {
    var t := ImportItemText(item);
    if t != item.name {
      assert t[..|item.name|] == item.name;
    }
  }

  /** `import a as a from "a.kcl"` prints as `import a from "a.kcl"`: an alias equal to the name is dropped. */
  lemma SelfAliasDropped(name: string, path: string)
    ensures RecastImport(ImportStatement(List([ImportItem(name, Some(name))]), path, Default), DefaultOptions, 0) ==
      "import " + name + " from \"" + path + "\""
  {
    var texts := ImportItemTexts([ImportItem(name, Some(name))]);
    assert texts == [name];
    assert Indentation(DefaultOptions, 0) == "";
  }

  /** `export import a, b as bbb from "a.kcl"` prints as it reads. */
  lemma ExportedListImport(a: string, b: string, alias: string, path: string)
    requires b != alias
    ensures RecastImport(ImportStatement(List([ImportItem(a, None), ImportItem(b, Some(alias))]), path, Export),
                         DefaultOptions, 0) ==
      "export import " + a + ", " + b + " as " + alias + " from \"" + path + "\""
  {
    var texts := ImportItemTexts([ImportItem(a, None), ImportItem(b, Some(alias))]);
    assert texts == [a, b + " as " + alias];
    assert texts[..1] == [a];
    assert Join(texts, ", ") == a + ", " + (b + " as " + alias);
    assert Indentation(DefaultOptions, 0) == "";
  }

  /** A whole-module import keeps its alias after the path: `import "a-b.kcl" as b`. */
  lemma ModuleAliasAfterPath(s: ImportStatement, o: FormatOptions, level: nat)
    requires s.selector.NoSelector? && s.selector.alias.Some?
    ensures EndsWith(RecastImport(s, o, level), "\"" + s.path + "\" as " + s.selector.alias.value)
  {
    var r := RecastImport(s, o, level);
    var tail := "\"" + s.path + "\" as " + s.selector.alias.value;
    assert r == ImportHead(s, o, level) + tail;
    EndsWithAppended(ImportHead(s, o, level), tail);
  }
}
