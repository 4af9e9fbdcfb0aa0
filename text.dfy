/**
 * Text helpers with the meaning of the Rust `str` operations the printer uses:
 * `trim`, `trim_start`, `trim_end_matches('\n')`, `strip_suffix`, `ends_with`,
 * `starts_with`, `contains`, `join`, `repeat` and the UTF-8 byte length `len`.
 */
module Text {

  /** Rust's `char::is_whitespace`: the Unicode White_Space property. */
  predicate IsWhitespace(c: char)
  {
    ('\U{0009}' <= c <= '\U{000D}') || c == ' ' || c == '\U{0085}' || c == '\U{00A0}' ||
    c == '\U{1680}' || ('\U{2000}' <= c <= '\U{200A}') || c == '\U{2028}' || c == '\U{2029}' ||
    c == '\U{202F}' || c == '\U{205F}' || c == '\U{3000}'
  }

  predicate AllWhitespace(s: string)
  {
    forall i :: 0 <= i < |s| ==> IsWhitespace(s[i])
  }

  /** Neither end of `s` is whitespace (vacuously true of the empty string). */
  predicate NoEdgeWhitespace(s: string)
  {
    s == [] || (!IsWhitespace(s[0]) && !IsWhitespace(s[|s| - 1]))
  }

  function TrimStart(s: string): (r: string)
    ensures |r| <= |s| && r == s[|s| - |r|..]
    ensures r == [] || !IsWhitespace(r[0])
    ensures AllWhitespace(s[..|s| - |r|])
  {
    if s == [] || !IsWhitespace(s[0]) then s
    else
      var r := TrimStart(s[1..]);
      assert s[..|s| - |r|] == [s[0]] + s[1..][..|s| - 1 - |r|];
      r
  }

  function TrimEnd(s: string): (r: string)
    ensures |r| <= |s| && r == s[..|r|]
    ensures r == [] || !IsWhitespace(r[|r| - 1])
    ensures AllWhitespace(s[|r|..])
  {
    if s == [] || !IsWhitespace(s[|s| - 1]) then s
    else
      var r := TrimEnd(s[..|s| - 1]);
      assert s[|r|..] == s[..|s| - 1][|r|..] + [s[|s| - 1]];
      r
  }

  /** Rust's `str::trim`. */
  function Trim(s: string): string
  {
    TrimEnd(TrimStart(s))
  }

  /** Rust's `trim_end_matches('\n')`. */
  function TrimEndNewlines(s: string): (r: string)
    ensures |r| <= |s| && r == s[..|r|]
    ensures r == [] || r[|r| - 1] != '\n'
    ensures forall i :: |r| <= i < |s| ==> s[i] == '\n'
  {
    if s == [] || s[|s| - 1] != '\n' then s else TrimEndNewlines(s[..|s| - 1])
  }

  predicate StartsWith(s: string, prefix: string)
  {
    |prefix| <= |s| && s[..|prefix|] == prefix
  }

  predicate EndsWith(s: string, suffix: string)
  {
    |suffix| <= |s| && s[|s| - |suffix|..] == suffix
  }

  /** `t` occurs somewhere inside `s` (Rust's `contains` on strings). */
  predicate Infix(t: string, s: string)
  {
    exists i :: 0 <= i <= |s| && StartsWith(s[i..], t)
  }

  /** Rust's `strip_suffix`, with `None` written as the unchanged string and a flag. */
  function StripSuffixOr(s: string, suffix: string): (r: string)
    ensures EndsWith(s, suffix) ==> r + suffix == s
    ensures !EndsWith(s, suffix) ==> r == s
  {
    if EndsWith(s, suffix) then s[..|s| - |suffix|] else s
  }

  /** `parts.concat()`: the parts one after another. */
  function Concat(parts: seq<string>): string
  {
    if parts == [] then [] else Concat(parts[..|parts| - 1]) + parts[|parts| - 1]
  }

  /** `parts.join(sep)`: the parts with `sep` between neighbours. */
  function Join(parts: seq<string>, sep: string): string
  {
    if |parts| == 0 then []
    else if |parts| == 1 then parts[0]
    else Join(parts[..|parts| - 1], sep) + sep + parts[|parts| - 1]
  }

  /** `c.to_string().repeat(n)`. */
  function Repeat(c: char, n: nat): (r: string)
    ensures |r| == n && forall i :: 0 <= i < n ==> r[i] == c
  {
    if n == 0 then [] else Repeat(c, n - 1) + [c]
  }

  /** Number of bytes of the UTF-8 encoding of one Unicode scalar value. */
  function Utf8Width(c: char): nat
  {
    if c < '\U{0080}' then 1 else if c < '\U{0800}' then 2 else if c < '\U{10000}' then 3 else 4
  }

  /** Rust's `String::len`: the length in UTF-8 bytes. */
  function Utf8Len(s: string): nat
  {
    if s == [] then 0 else Utf8Len(s[..|s| - 1]) + Utf8Width(s[|s| - 1])
  }

  // ---------------------------------------------------------------------------
  // Lemmas

  lemma {:induction false} ConcatAppend(xs: seq<string>, ys: seq<string>)
    ensures Concat(xs + ys) == Concat(xs) + Concat(ys)
    decreases |ys|
  {
    if ys == [] {
      assert xs + ys == xs;
    } else {
      var ys' := ys[..|ys| - 1];
      var y := ys[|ys| - 1];
      assert xs + ys == (xs + ys') + [y];
      ConcatSnoc(xs + ys', y);
      ConcatSnoc(ys', y);
      ConcatAppend(xs, ys');
      AppendAssoc(Concat(xs), Concat(ys'), y);
    }
  }

  lemma ConcatSnoc(xs: seq<string>, x: string)
    ensures Concat(xs + [x]) == Concat(xs) + x
  {
    assert (xs + [x])[..|xs + [x]| - 1] == xs;
  }

  lemma JoinSnoc(xs: seq<string>, x: string, sep: string)
    ensures Join(xs + [x], sep) == if xs == [] then x else Join(xs, sep) + sep + x
  {
    assert (xs + [x])[..|xs + [x]| - 1] == xs;
  }

  /** Joining the first `n` parts extends joining the first `n - 1` by one separator and one part. */
  lemma JoinPrefixSnoc(xs: seq<string>, n: nat, sep: string)
    requires 0 < n <= |xs|
    ensures Join(xs[..n], sep) == if n == 1 then xs[0] else Join(xs[..n - 1], sep) + sep + xs[n - 1]
  {
    assert xs[..n][..n - 1] == xs[..n - 1];
  }

  lemma SeqAppendAssoc<T>(a: seq<T>, b: seq<T>, c: seq<T>)
    ensures (a + b) + c == a + (b + c)
  {
  }

  lemma AppendAssoc(a: string, b: string, c: string)
    ensures (a + b) + c == a + (b + c)
  {
  }

  lemma AppendAssoc4(a: string, b: string, c: string, d: string)
    ensures (a + b + c) + d == a + (b + c + d)
  {
  }

  /** Regrouping five concatenated strings. */
  lemma Regroup(a: string, b: string, c: string, d: string, e: string)
    ensures (a + b + c) + (d + e) == a + (b + c + d) + e
  {
  }

  lemma {:induction false} Utf8LenAppend(a: string, b: string)
    ensures Utf8Len(a + b) == Utf8Len(a) + Utf8Len(b)
    decreases |b|
  {
    if b == [] {
      assert a + b == a;
    } else {
      var b' := b[..|b| - 1];
      assert (a + b)[..|a + b| - 1] == a + b';
      Utf8LenAppend(a, b');
    }
  }

  /** The byte length is at least the number of characters; equal exactly for ASCII text. */
  lemma {:induction false} Utf8LenAtLeastLength(s: string)
    ensures Utf8Len(s) >= |s|
    ensures Utf8Len(s) == |s| <==> forall i :: 0 <= i < |s| ==> s[i] < '\U{0080}'
    decreases |s|
  {
    if s != [] {
      var s' := s[..|s| - 1];
      Utf8LenAtLeastLength(s');
      assert forall i :: 0 <= i < |s'| ==> s'[i] == s[i];
    }
  }

  lemma TrimStartOfNonWhitespace(s: string)
    requires s != [] && !IsWhitespace(s[0])
    ensures TrimStart(s) == s
  {
  }

  /** `trim` leaves neither leading nor trailing whitespace and keeps a middle piece of the input. */
  lemma TrimProperties(s: string)
    ensures NoEdgeWhitespace(Trim(s))
    ensures |Trim(s)| <= |s|
    ensures Trim(s) == [] <==> AllWhitespace(s)
  {
    TrimNoEdge(s);
    TrimEmpty(s);
  }

  lemma TrimNoEdge(s: string)
    ensures NoEdgeWhitespace(Trim(s))
  {
    var t := TrimStart(s);
    var r := TrimEnd(t);
    if r != [] {
      assert r[0] == t[0];
    }
  }

  lemma TrimEmpty(s: string)
    ensures Trim(s) == [] <==> AllWhitespace(s)
  {
    var t := TrimStart(s);
    if TrimEnd(t) == [] {
      assert t[0..] == t;
      AllWhitespaceConcat(s[..|s| - |t|], t);
      assert s == s[..|s| - |t|] + t;
    } else if AllWhitespace(s) {
      AllWhitespaceTrimsAway(s);
    }
  }

  lemma AllWhitespaceConcat(a: string, b: string)
    requires AllWhitespace(a) && AllWhitespace(b)
    ensures AllWhitespace(a + b)
  {
    forall i | 0 <= i < |a + b|
      ensures IsWhitespace((a + b)[i])
    {
      if i < |a| {
        assert (a + b)[i] == a[i];
      } else {
        assert (a + b)[i] == b[i - |a|];
      }
    }
  }


  /** Trimming text that has no whitespace at its ends changes nothing. */
  lemma TrimOfTrimmed(s: string)
    requires NoEdgeWhitespace(s)
    ensures Trim(s) == s
  {
    if s != [] {
      TrimStartOfNonWhitespace(s);
    }
  }

  lemma AllWhitespaceTrimsAway(s: string)
    requires AllWhitespace(s)
    ensures TrimStart(s) == [] && Trim(s) == []
  {
  }

  lemma AllWhitespaceTail(s: string)
    requires s != [] && IsWhitespace(s[0])
    ensures AllWhitespace(s) <==> AllWhitespace(s[1..])
  {
    if AllWhitespace(s[1..]) {
      forall i | 0 <= i < |s|
        ensures IsWhitespace(s[i])
      {
        if i > 0 {
          assert s[i] == s[1..][i - 1];
        }
      }
    }
  }

  /** `trim_start` of a concatenation stops inside the first part unless that part is all whitespace. */
  lemma {:induction false} TrimStartAppend(s: string, w: string)
    ensures TrimStart(s + w) == if AllWhitespace(s) then TrimStart(w) else TrimStart(s) + w
    decreases |s|
  {
    if s == [] {
      assert s + w == w;
    } else if IsWhitespace(s[0]) {
      var sw := s + w;
      assert sw[0] == s[0];
      assert sw[1..] == s[1..] + w;
      assert TrimStart(sw) == TrimStart(sw[1..]);
      assert TrimStart(s) == TrimStart(s[1..]);
      TrimStartAppend(s[1..], w);
      AllWhitespaceTail(s);
    } else {
      assert (s + w)[0] == s[0];
    }
  }

  /** Whitespace appended at the end disappears under `trim_end`. */
  lemma {:induction false} TrimEndAppendWhitespace(s: string, w: string)
    requires AllWhitespace(w)
    ensures TrimEnd(s + w) == TrimEnd(s)
    decreases |w|
  {
    if w == [] {
      assert s + w == s;
    } else {
      var w' := w[..|w| - 1];
      assert (s + w)[..|s + w| - 1] == s + w';
      assert (s + w)[|s + w| - 1] == w[|w| - 1];
      TrimEndAppendWhitespace(s, w');
    }
  }

  /** Whitespace appended at the end disappears under `trim`. */
  lemma TrimAppendWhitespace(s: string, w: string)
    requires AllWhitespace(w)
    ensures Trim(s + w) == Trim(s)
  {
    TrimStartAppend(s, w);
    if AllWhitespace(s) {
      AllWhitespaceTrimsAway(w);
      AllWhitespaceTrimsAway(s);
    } else {
      TrimEndAppendWhitespace(TrimStart(s), w);
    }
  }

  /** `trim_end` never cuts into a prefix that is followed by something other than whitespace, or that ends in a non-whitespace character. */
  lemma {:induction false} TrimEndKeepsPrefix(a: string, b: string)
    requires !AllWhitespace(b) || (a != [] && !IsWhitespace(a[|a| - 1]))
    ensures StartsWith(TrimEnd(a + b), a)
    decreases |b|
  {
    if b == [] {
      assert a + b == a;
    } else if !IsWhitespace(b[|b| - 1]) {
      assert (a + b)[|a + b| - 1] == b[|b| - 1];
      assert (a + b)[..|a|] == a;
    } else {
      var b' := b[..|b| - 1];
      assert (a + b)[..|a + b| - 1] == a + b';
      assert (a + b)[|a + b| - 1] == b[|b| - 1];
      if !AllWhitespace(b) {
        var i :| 0 <= i < |b| && !IsWhitespace(b[i]);
        assert b'[i] == b[i];
      }
      TrimEndKeepsPrefix(a, b');
    }
  }

  lemma EndsWithAppended(x: string, suffix: string)
    ensures EndsWith(x + suffix, suffix)
  {
    assert (x + suffix)[|x|..] == suffix;
  }

  lemma StartsWithAppended(prefix: string, x: string, y: string)
    ensures StartsWith(prefix + x + y, prefix)
  {
    assert (prefix + x + y)[..|prefix|] == prefix;
  }

  lemma InfixOf(pre: string, t: string, post: string)
    ensures Infix(t, pre + t + post)
  {
    var s := pre + t + post;
    assert s[|pre|..][..|t|] == t;
  }

  /** A join of several parts starts with the first part. */
  lemma {:induction false} JoinStartsWithFirst(xs: seq<string>, sep: string)
    requires xs != []
    ensures StartsWith(Join(xs, sep), xs[0])
    decreases |xs|
  {
    if |xs| > 1 {
      var init := xs[..|xs| - 1];
      JoinStartsWithFirst(init, sep);
      assert init[0] == xs[0];
      StartsWithExtended(Join(init, sep), xs[0], sep + xs[|xs| - 1]);
      AppendAssoc(Join(init, sep), sep, xs[|xs| - 1]);
    }
  }

  /** A join of at least two parts ends with the separator and the last part. */
  lemma JoinEndsWithLast(xs: seq<string>, sep: string)
    requires |xs| >= 2
    ensures EndsWith(Join(xs, sep), sep + xs[|xs| - 1])
  {
    var init := xs[..|xs| - 1];
    AppendAssoc(Join(init, sep), sep, xs[|xs| - 1]);
    EndsWithAppended(Join(init, sep), sep + xs[|xs| - 1]);
  }

  lemma StartsWithExtended(s: string, prefix: string, rest: string)
    requires StartsWith(s, prefix)
    ensures StartsWith(s + rest, prefix)
  {
    assert (s + rest)[..|prefix|] == s[..|prefix|];
  }

  lemma JoinSingleton(x: string, sep: string)
    ensures Join([x], sep) == x
  {
  }
}
