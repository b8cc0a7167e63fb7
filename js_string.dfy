/** The JavaScript string primitives the scam scorer and the photo scanner
    rely on: the `\s` character class, `String.prototype.trim`,
    `replace(/\s+/g, ' ')` and `length`, which counts UTF-16 code units. */
module JsString {

  /** The ECMAScript WhiteSpace and LineTerminator characters. `\s` in a
      regular expression and `trim` use this one set. */
  predicate IsSpace(c: char): (b: bool)
    ensures b ==> c as int <= 0xFFFF
    ensures c as int < 0x80 ==> (b <==> c == ' ' || '\t' <= c <= '\r')
  {
    || c == '\t' || c == '\n' || c == '\U{000B}' || c == '\U{000C}' || c == '\r'
    || c == ' ' || c == '\U{00A0}' || c == '\U{1680}'
    || ('\U{2000}' <= c <= '\U{200A}')
    || c == '\U{2028}' || c == '\U{2029}' || c == '\U{202F}' || c == '\U{205F}'
    || c == '\U{3000}' || c == '\U{FEFF}'
  }

  predicate AllSpace(s: string) {
    forall i :: 0 <= i < |s| ==> IsSpace(s[i])
  }

  /** The characters of `s` that are not whitespace, in order. */
  function Visible(s: string): string {
    if s == [] then [] else (if IsSpace(s[0]) then [] else [s[0]]) + Visible(s[1..])
  }

  /** Every whitespace character is a plain space and no two of them are adjacent. */
  ghost predicate Collapsed(s: string) {
    && (forall i :: 0 <= i < |s| && IsSpace(s[i]) ==> s[i] == ' ')
    && (forall i, j :: 0 <= i < j < |s| && j == i + 1 ==> !IsSpace(s[i]) || !IsSpace(s[j]))
  }

  /** Neither end of `s` is whitespace. */
  predicate Trimmed(s: string) {
    s == [] || (!IsSpace(s[0]) && !IsSpace(s[|s| - 1]))
  }

  lemma {:induction false} VisibleConcat(a: string, b: string)
    ensures Visible(a + b) == Visible(a) + Visible(b)
    decreases |a|
  {
    if a != [] {
      assert (a + b)[1..] == a[1..] + b;
      VisibleConcat(a[1..], b);
    } else {
      assert a + b == b;
    }
  }

  lemma {:induction false} VisibleEmpty(s: string)
    ensures Visible(s) == [] <==> AllSpace(s)
    decreases |s|
  {
    if s != [] {
      VisibleEmpty(s[1..]);
      if AllSpace(s[1..]) && IsSpace(s[0]) {
        forall i | 0 <= i < |s| ensures IsSpace(s[i]) {
          if i > 0 { assert s[i] == s[1..][i - 1]; }
        }
      }
    }
  }

  lemma AllSpaceConcat(x: string, y: string)
    requires AllSpace(x) && AllSpace(y)
    ensures AllSpace(x + y)
  {
    forall i | 0 <= i < |x + y| ensures IsSpace((x + y)[i]) {
      if i < |x| { assert (x + y)[i] == x[i]; } else { assert (x + y)[i] == y[i - |x|]; }
    }
  }

  /** The length of the leading run of whitespace. */
  function LeadingSpaces(s: string): (k: nat)
    ensures k <= |s| && AllSpace(s[..k])
    ensures k < |s| ==> !IsSpace(s[k])
    decreases |s|
  {
    if s != [] && IsSpace(s[0]) then
      var k := LeadingSpaces(s[1..]);
      LeadingSpacesStep(s, k);
      k + 1
    else 0
  }

  lemma LeadingSpacesStep(s: string, k: nat)
    requires s != [] && IsSpace(s[0])
    requires k <= |s| - 1 && AllSpace(s[1..][..k])
    ensures AllSpace(s[..k + 1])
  {
    assert s[..k + 1] == [s[0]] + s[1..][..k];
    AllSpaceConcat([s[0]], s[1..][..k]);
  }

  /** `s.trimStart()`: drops the leading whitespace. */
  function TrimStart(s: string): (r: string)
    ensures |r| <= |s| && r == s[|s| - |r|..]
    ensures AllSpace(s[..|s| - |r|])
    ensures r == [] || !IsSpace(r[0])
  {
    s[LeadingSpaces(s)..]
  }

  /** `s.trimEnd()`: drops the trailing whitespace. */
  function TrimEnd(s: string): (r: string)
    ensures |r| <= |s| && r == s[..|r|]
    ensures AllSpace(s[|r|..])
    ensures r == [] || !IsSpace(r[|r| - 1])
    decreases |s|
  {
    if s != [] && IsSpace(s[|s| - 1]) then
      var r := TrimEnd(s[..|s| - 1]);
      TrimEndStep(s, r);
      r
    else s
  }

  lemma TrimEndStep(s: string, r: string)
    requires s != [] && IsSpace(s[|s| - 1])
    requires |r| <= |s| - 1 && r == s[..|s| - 1][..|r|] && AllSpace(s[..|s| - 1][|r|..])
    ensures r == s[..|r|] && AllSpace(s[|r|..])
  {
    assert s[..|s| - 1][..|r|] == s[..|r|];
    assert s[|r|..] == s[..|s| - 1][|r|..] + [s[|s| - 1]];
    AllSpaceConcat(s[..|s| - 1][|r|..], [s[|s| - 1]]);
  }

  /** Dropping whitespace from either end leaves the visible characters alone. */
  lemma DropSpaces(s: string, k: nat)
    requires k <= |s|
    ensures AllSpace(s[..k]) ==> Visible(s) == Visible(s[k..])
    ensures AllSpace(s[k..]) ==> Visible(s) == Visible(s[..k])
  {
    assert s == s[..k] + s[k..];
    VisibleConcat(s[..k], s[k..]);
    VisibleEmpty(s[..k]);
    VisibleEmpty(s[k..]);
  }

  lemma CollapsedSuffix(s: string, k: nat)
    requires k <= |s| && Collapsed(s)
    ensures Collapsed(s[k..])
  {
    forall i | 0 <= i < |s| - k ensures s[k..][i] == s[k + i] { }
  }

  lemma CollapsedPrefix(s: string, k: nat)
    requires k <= |s| && Collapsed(s)
    ensures Collapsed(s[..k])
  {
    forall i | 0 <= i < k ensures s[..k][i] == s[i] { }
  }

  lemma CollapsedCons(c: char, x: string)
    requires Collapsed(x)
    requires IsSpace(c) ==> c == ' ' && (x == [] || !IsSpace(x[0]))
    ensures Collapsed([c] + x)
  {
    forall k | 0 < k < |x| + 1 ensures ([c] + x)[k] == x[k - 1] { }
  }

  /** `s.trim()`: drops whitespace at both ends and nothing else. */
  function Trim(s: string): (r: string)
    ensures Trimmed(r)
    ensures r == [] <==> AllSpace(s)
  {
    var t := TrimStart(s);
    var r := TrimEnd(t);
    TrimEnds(s, t, r);
    TrimVisible(s, t, r);
    r
  }

  /** Trimming keeps the interior: the result is the slice of `s` between a
      leading and a trailing run of whitespace. */
  lemma TrimSlice(s: string)
    ensures var r := Trim(s);
      exists k :: 0 <= k <= |s| - |r| && r == s[k..k + |r|] && AllSpace(s[..k]) && AllSpace(s[k + |r|..])
  {
    var t := TrimStart(s);
    var r := TrimEnd(t);
    var k := |s| - |t|;
    TrimSliceOf(s, t, r);
    assert Trim(s) == r;
    assert 0 <= k <= |s| - |r| && r == s[k..k + |r|] && AllSpace(s[..k]) && AllSpace(s[k + |r|..]);
  }

  lemma TrimSliceOf(s: string, t: string, r: string)
    requires |t| <= |s| && t == s[|s| - |t|..] && AllSpace(s[..|s| - |t|])
    requires |r| <= |t| && r == t[..|r|] && AllSpace(t[|r|..])
    ensures |s| - |t| + |r| <= |s|
    ensures r == s[|s| - |t|..|s| - |t| + |r|]
    ensures AllSpace(s[..|s| - |t|]) && AllSpace(s[|s| - |t| + |r|..])
  {
    SliceOfSuffix(s, |s| - |t|, t, r);
  }

  /** A prefix of a suffix is a slice. */
  lemma SliceOfSuffix(s: string, k: nat, t: string, r: string)
    requires k <= |s| && t == s[k..] && |r| <= |t| && r == t[..|r|] && AllSpace(t[|r|..])
    ensures k + |r| <= |s| && r == s[k..k + |r|] && AllSpace(s[k + |r|..])
  {
    assert t[|r|..] == s[k + |r|..];
  }

  /** Trimming drops only whitespace. */
  lemma TrimKeepsVisible(s: string)
    ensures Visible(Trim(s)) == Visible(s)
  {
    TrimVisible(s, TrimStart(s), TrimEnd(TrimStart(s)));
  }

  /** Trimming text that is already trimmed changes nothing. */
  lemma TrimFixed(s: string)
    requires Trimmed(s)
    ensures Trim(s) == s
  {
    if s != [] {
      TrimStartFixed(s);
    }
  }

  /** Trimming collapsed text leaves it collapsed. */
  lemma TrimKeepsCollapsed(s: string)
    requires Collapsed(s)
    ensures Collapsed(Trim(s))
  {
    TrimCollapsed(s, TrimStart(s), TrimEnd(TrimStart(s)));
  }

  lemma TrimCollapsed(s: string, t: string, r: string)
    requires t == TrimStart(s) && r == TrimEnd(t)
    ensures Collapsed(s) ==> Collapsed(r)
  {
    if Collapsed(s) {
      CollapsedSuffix(s, |s| - |t|);
      CollapsedPrefix(t, |r|);
    }
  }

  lemma TrimEnds(s: string, t: string, r: string)
    requires t == TrimStart(s) && r == TrimEnd(t)
    ensures Trimmed(r)
  {
    if r != [] {
      assert r[0] == t[0];
    }
  }

  lemma TrimVisible(s: string, t: string, r: string)
    requires t == TrimStart(s) && r == TrimEnd(t)
    ensures Visible(r) == Visible(s)
    ensures r == [] <==> AllSpace(s)
  {
    DropSpaces(s, |s| - |t|);
    DropSpaces(t, |r|);
    VisibleEmpty(s);
    VisibleEmpty(r);
    if r != [] {
      assert r[0] == t[0];
      assert !AllSpace(r);
    }
  }

  /** `s.replace(/\s+/g, ' ')`: every maximal run of whitespace becomes one space. */
  function Collapse(s: string): (r: string)
    ensures Collapsed(r)
    ensures Visible(r) == Visible(s)
    ensures r == [] <==> s == []
    ensures r != [] ==> (IsSpace(r[0]) <==> IsSpace(s[0]))
    decreases |s|
  {
    if s == [] then []
    else if IsSpace(s[0]) then
      var t := TrimStart(s[1..]);
      var c := Collapse(t);
      assert s[1..] == s[1..][..|s| - 1 - |t|] + t;
      VisibleConcat(s[1..][..|s| - 1 - |t|], t);
      VisibleEmpty(s[1..][..|s| - 1 - |t|]);
      CollapsedCons(' ', c);
      assert (" " + c)[1..] == c;
      " " + c
    else
      var c := Collapse(s[1..]);
      CollapsedCons(s[0], c);
      assert ([s[0]] + c)[1..] == c;
      [s[0]] + c
  }

  /** `s.replace(/\s+/g, ' ').trim()`, the normal form the scorer matches against. */
  function Normalize(s: string): (r: string)
    ensures Collapsed(r) && Trimmed(r)
    ensures Visible(r) == Visible(s)
    ensures r == [] <==> AllSpace(s)
  {
    var c := Collapse(s);
    VisibleEmpty(c);
    VisibleEmpty(s);
    TrimKeepsCollapsed(c);
    TrimKeepsVisible(c);
    Trim(c)
  }

  /** Normal text is its own normal form. */
  lemma NormalizeFixed(s: string)
    requires Collapsed(s) && Trimmed(s)
    ensures Normalize(s) == s
  {
    CollapseFixed(s);
    TrimFixed(s);
  }

  /** `s.length`: JavaScript counts UTF-16 code units, so a character outside
      the Basic Multilingual Plane counts twice. */
  function Utf16Length(s: string): (n: nat)
    ensures |s| <= n <= 2 * |s|
    ensures n == 0 <==> s == []
    decreases |s|
  {
    if s == [] then 0 else (if s[0] as int > 0xFFFF then 2 else 1) + Utf16Length(s[1..])
  }

  /** The length of a concatenation is the sum of the lengths. */
  lemma {:induction false} Utf16LengthConcat(a: string, b: string)
    ensures Utf16Length(a + b) == Utf16Length(a) + Utf16Length(b)
    decreases |a|
  {
    if a == [] {
      assert a + b == b;
    } else {
      assert (a + b)[0] == a[0];
      assert (a + b)[1..] == a[1..] + b;
      Utf16LengthConcat(a[1..], b);
    }
  }

  /** One code unit per character, two for a character above U+FFFF, which
      UTF-16 writes as a surrogate pair. */
  lemma Utf16LengthChar(c: char)
    ensures Utf16Length([c]) == if c as int > 0xFFFF then 2 else 1
  {
    assert [c][1..] == [];
  }

  lemma {:induction false} TrimStartSpaces(w: string, b: string)
    requires AllSpace(w)
    ensures TrimStart(w + b) == TrimStart(b)
    decreases |w|
  {
    if w != [] {
      assert (w + b)[0] == w[0];
      assert (w + b)[1..] == w[1..] + b;
      assert AllSpace(w[1..]) by {
        forall i | 0 <= i < |w| - 1 ensures IsSpace(w[1..][i]) { assert w[1..][i] == w[i + 1]; }
      }
      TrimStartSpaces(w[1..], b);
    } else {
      assert w + b == b;
    }
  }

  lemma CollapseHead(c: char, rest: string)
    ensures Collapse([c] + rest) ==
      if IsSpace(c) then " " + Collapse(TrimStart(rest)) else [c] + Collapse(rest)
  {
    assert ([c] + rest)[0] == c && ([c] + rest)[1..] == rest;
  }

  /** A leading run of whitespace collapses to one space, whatever its width. */
  lemma CollapseLeadingRun(w: string, b: string)
    requires w != [] && AllSpace(w)
    ensures Collapse(w + b) == " " + Collapse(TrimStart(b))
  {
    assert w + b == [w[0]] + (w[1..] + b);
    CollapseHead(w[0], w[1..] + b);
    assert AllSpace(w[1..]) by {
      forall i | 0 <= i < |w| - 1 ensures IsSpace(w[1..][i]) { assert w[1..][i] == w[i + 1]; }
    }
    TrimStartSpaces(w[1..], b);
  }

  lemma CollapseVisibleHead(a: string, w: string, b: string)
    requires a != [] && !IsSpace(a[0])
    ensures Collapse(a + w + b) == [a[0]] + Collapse(a[1..] + w + b)
  {
    assert a + w + b == [a[0]] + (a[1..] + w + b);
    CollapseHead(a[0], a[1..] + w + b);
  }

  lemma CollapseBlankHead(a: string, w: string, b: string)
    requires AllSpace(a) && AllSpace(w) && a != []
    ensures Collapse(a + w + b) == " " + Collapse(TrimStart(b))
  {
    AllSpaceConcat(a, w);
    CollapseLeadingRun(a + w, b);
  }

  lemma CollapseSpaceHead(a: string, w: string, b: string)
    requires a != [] && IsSpace(a[0]) && TrimStart(a) != []
    ensures Collapse(a + w + b) == " " + Collapse(TrimStart(a) + w + b)
  {
    var t := TrimStart(a);
    var k := |a| - |t|;
    var rest := t + w + b;
    SplitLeadingSpaces(a, w, b);
    CollapseLeadingRun(a[..k], rest);
    TrimStartFixed(rest);
  }

  lemma SplitLeadingSpaces(a: string, w: string, b: string)
    requires a != [] && IsSpace(a[0]) && TrimStart(a) != []
    ensures 0 < |a| - |TrimStart(a)|
    ensures a + w + b == a[..|a| - |TrimStart(a)|] + (TrimStart(a) + w + b)
  {
    var t := TrimStart(a);
    var k := |a| - |t|;
    calc {
      a + w + b;
      { assert a == a[..k] + t; }
      (a[..k] + t) + w + b;
      { ConcatAssoc(a[..k], t, w); }
      (a[..k] + (t + w)) + b;
      { ConcatAssoc(a[..k], t + w, b); }
      a[..k] + (t + w + b);
    }
  }

  lemma ConcatAssoc(x: string, y: string, z: string)
    ensures (x + y) + z == x + (y + z)
  {
  }

  lemma TrimStartFixed(x: string)
    requires x != [] && !IsSpace(x[0])
    ensures TrimStart(x) == x
  {
  }

  /** The heart of whitespace insensitivity: replacing one non-empty
      whitespace run by another does not change the collapsed text. */
  lemma {:induction false} CollapseRun(a: string, w1: string, w2: string, b: string)
    requires w1 != [] && w2 != [] && AllSpace(w1) && AllSpace(w2)
    ensures Collapse(a + w1 + b) == Collapse(a + w2 + b)
    decreases |a|
  {
    if a == [] {
      assert a + w1 + b == w1 + b && a + w2 + b == w2 + b;
      CollapseLeadingRun(w1, b);
      CollapseLeadingRun(w2, b);
    } else if !IsSpace(a[0]) {
      CollapseVisibleHead(a, w1, b);
      CollapseVisibleHead(a, w2, b);
      CollapseRun(a[1..], w1, w2, b);
    } else {
      if TrimStart(a) == [] {
        assert a == a[..|a|];
        CollapseBlankHead(a, w1, b);
        CollapseBlankHead(a, w2, b);
      } else {
        CollapseSpaceHead(a, w1, b);
        CollapseSpaceHead(a, w2, b);
        CollapseRun(TrimStart(a), w1, w2, b);
      }
    }
  }

  /** Inputs that differ only in the width of one whitespace run normalise alike. */
  lemma NormalizeRun(a: string, w1: string, w2: string, b: string)
    requires w1 != [] && w2 != [] && AllSpace(w1) && AllSpace(w2)
    ensures Normalize(a + w1 + b) == Normalize(a + w2 + b)
  {
    CollapseRun(a, w1, w2, b);
  }

  lemma CollapseFixedStep(s: string)
    requires s != [] && Collapsed(s) && Collapse(s[1..]) == s[1..]
    ensures Collapse(s) == s
  {
    assert s == [s[0]] + s[1..];
    CollapseHead(s[0], s[1..]);
    if IsSpace(s[0]) {
      assert s[1..] == [] || !IsSpace(s[1..][0]) by {
        if |s| > 1 { assert s[1..][0] == s[1]; }
      }
    }
  }

  lemma {:induction false} CollapseFixed(s: string)
    requires Collapsed(s)
    ensures Collapse(s) == s
    decreases |s|
  {
    if s != [] {
      CollapsedSuffix(s, 1);
      CollapseFixed(s[1..]);
      CollapseFixedStep(s);
    }
  }

  /** Text appended after text that has a visible character stays after it. */
  lemma TrimStartAppend(a: string, y: string)
    requires TrimStart(a) != []
    ensures TrimStart(a + y) == TrimStart(a) + y
  {
    var t := TrimStart(a);
    var w := a[..|a| - |t|];
    assert a == w + t;
    ConcatAssoc(w, t, y);
    TrimStartSpaces(w, t + y);
    assert (t + y)[0] == t[0];
    TrimStartFixed(t + y);
  }

  lemma TrimStartEmpty(c: string)
    ensures TrimStart(c) == [] <==> AllSpace(c)
  {
    assert c[..|c|] == c;
  }

  /** A prefix that ends in a visible character survives `trimEnd`. */
  lemma TrimEndKeeps(p: string, s: string, q: string)
    requires p <= s && (p == [] || !IsSpace(p[|p| - 1]))
    requires |q| <= |s| && q == s[..|q|] && AllSpace(s[|q|..])
    ensures p <= q
  {
  }

  /** Extending text never changes how its beginning collapses. */
  lemma {:induction false} CollapseAppend(x: string, y: string)
    ensures Collapse(x) <= Collapse(x + y)
    decreases |x|
  {
    if x != [] {
      var c, rest := x[0], x[1..];
      assert x == [c] + rest && x + y == [c] + (rest + y);
      CollapseHead(c, rest + y);
      CollapseHead(c, rest);
      if !IsSpace(c) {
        CollapseAppend(rest, y);
        PrefixCons([c], Collapse(rest), Collapse(rest + y));
      } else if TrimStart(rest) != [] {
        TrimStartAppend(rest, y);
        CollapseAppend(TrimStart(rest), y);
        PrefixCons(" ", Collapse(TrimStart(rest)), Collapse(TrimStart(rest) + y));
      } else {
        PrefixCons(" ", [], Collapse(TrimStart(rest + y)));
      }
    }
  }

  lemma PrefixCons(h: string, a: string, b: string)
    requires a <= b
    ensures h + a <= h + b
  {
    assert (h + b)[..|h + a|] == h + b[..|a|];
  }

  /** Trimming keeps a prefix relation once the shorter text has a visible character. */
  lemma TrimAppend(c: string, u: string)
    requires !AllSpace(c)
    ensures Trim(c) <= Trim(c + u)
  {
    TrimStartEmpty(c);
    TrimStartAppend(c, u);
    TrimEndAppend(TrimStart(c), u);
  }

  lemma TrimEndAppend(t: string, u: string)
    ensures TrimEnd(t) <= TrimEnd(t + u)
  {
    var p := TrimEnd(t);
    assert (t + u)[..|p|] == t[..|p|] == p;
    TrimEndKeeps(p, t + u, TrimEnd(t + u));
  }

  /** The normal form of `x` is the start of the normal form of `x + y`. */
  lemma NormalizeAppend(x: string, y: string)
    ensures Normalize(x) <= Normalize(x + y)
  {
    if !AllSpace(x) {
      CollapseAllSpace(x);
      CollapseAppend(x, y);
      TrimPrefix(Collapse(x), Collapse(x + y));
    }
  }

  lemma CollapseAllSpace(x: string)
    ensures AllSpace(Collapse(x)) <==> AllSpace(x)
  {
    VisibleEmpty(Collapse(x));
    VisibleEmpty(x);
  }

  lemma TrimPrefix(a: string, b: string)
    requires !AllSpace(a) && a <= b
    ensures Trim(a) <= Trim(b)
  {
    var u := b[|a|..];
    assert b == a + u;
    TrimAppend(a, u);
  }

  /** Normalising twice is normalising once. */
  lemma NormalizeIdempotent(s: string)
    ensures Normalize(Normalize(s)) == Normalize(s)
  {
    var n := Normalize(s);
    CollapseFixed(n);
  }
}
