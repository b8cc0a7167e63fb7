/** What the scam scorer promises: the match loop against a reference
    definition over the flattened rule table, the weight bookkeeping, the
    guard, whitespace insensitivity, monotonicity, tier consistency, the
    shape of the shipped table, and worked scenarios. */
module ScamDetectorProperties {
  import opened JsString
  import opened ScamDetector

  // ── A reference definition: the table as one flat list ─────────────────

  /** One pattern of the table together with the category it belongs to. */
  datatype Entry = Entry(category: string, weight: nat, pattern: Pattern)

  function CategoryEntries(c: Category): seq<Entry> {
    seq(|c.patterns|, k requires 0 <= k < |c.patterns| => Entry(c.name, c.weight, c.patterns[k]))
  }

  /** Every pattern of the table, category after category, each category in
      declaration order. */
  function Flatten(rules: seq<Category>): seq<Entry> {
    if rules == [] then [] else CategoryEntries(rules[0]) + Flatten(rules[1..])
  }

  /** The entries whose pattern matches `text`, in their order. */
  function Hits(es: seq<Entry>, test: Matcher, text: string): seq<Entry> {
    if es == [] then []
    else (if test(es[0].pattern, text) then [es[0]] else []) + Hits(es[1..], test, text)
  }

  function ReasonOf(e: Entry): Reason {
    Reason(e.category, e.pattern.flag)
  }

  function ReasonsOf(es: seq<Entry>): seq<Reason> {
    if es == [] then [] else [ReasonOf(es[0])] + ReasonsOf(es[1..])
  }

  function WeightSum(es: seq<Entry>): nat {
    if es == [] then 0 else es[0].weight + WeightSum(es[1..])
  }

  lemma {:induction false} FlattenConcat(a: seq<Category>, b: seq<Category>)
    ensures Flatten(a + b) == Flatten(a) + Flatten(b)
    decreases |a|
  {
    if a == [] {
      assert a + b == b;
    } else {
      assert (a + b)[1..] == a[1..] + b;
      FlattenConcat(a[1..], b);
    }
  }

  lemma {:induction false} HitsConcat(a: seq<Entry>, b: seq<Entry>, test: Matcher, text: string)
    ensures Hits(a + b, test, text) == Hits(a, test, text) + Hits(b, test, text)
    decreases |a|
  {
    if a == [] {
      assert a + b == b;
    } else {
      var head := if test(a[0].pattern, text) then [a[0]] else [];
      assert (a + b)[0] == a[0];
      assert (a + b)[1..] == a[1..] + b;
      HitsConcat(a[1..], b, test, text);
      assert Hits(a + b, test, text) == head + (Hits(a[1..], test, text) + Hits(b, test, text));
      assert head + (Hits(a[1..], test, text) + Hits(b, test, text))
        == (head + Hits(a[1..], test, text)) + Hits(b, test, text);
    }
  }

  lemma {:induction false} ReasonsOfConcat(a: seq<Entry>, b: seq<Entry>)
    ensures ReasonsOf(a + b) == ReasonsOf(a) + ReasonsOf(b)
    decreases |a|
  {
    if a == [] {
      assert a + b == b;
    } else {
      assert (a + b)[1..] == a[1..] + b;
      ReasonsOfConcat(a[1..], b);
    }
  }

  lemma {:induction false} WeightSumConcat(a: seq<Entry>, b: seq<Entry>)
    ensures WeightSum(a + b) == WeightSum(a) + WeightSum(b)
    decreases |a|
  {
    if a == [] {
      assert a + b == b;
    } else {
      assert (a + b)[1..] == a[1..] + b;
      WeightSumConcat(a[1..], b);
    }
  }

  /** One step of the reference over a single entry. */
  lemma HitsSingle(e: Entry, test: Matcher, text: string)
    ensures Hits([e], test, text) == if test(e.pattern, text) then [e] else []
    ensures ReasonsOf([e]) == [ReasonOf(e)]
    ensures WeightSum([e]) == e.weight
  {
    assert [e][1..] == [];
  }

  /** Matching over a concatenation is matching over each part. */
  lemma MatchConcat(a: seq<Entry>, b: seq<Entry>, test: Matcher, text: string)
    ensures ReasonsOf(Hits(a + b, test, text)) == ReasonsOf(Hits(a, test, text)) + ReasonsOf(Hits(b, test, text))
    ensures WeightSum(Hits(a + b, test, text)) == WeightSum(Hits(a, test, text)) + WeightSum(Hits(b, test, text))
  {
    HitsConcat(a, b, test, text);
    ReasonsOfConcat(Hits(a, test, text), Hits(b, test, text));
    WeightSumConcat(Hits(a, test, text), Hits(b, test, text));
  }

  /** The inner loop after `m` patterns has collected exactly the matching
      entries among the first `m` of the category. */
  lemma {:induction false} CategoryMatches(c: Category, m: nat, test: Matcher, text: string)
    requires m <= |c.patterns|
    ensures CategoryReasons(c, m, test, text) == ReasonsOf(Hits(CategoryEntries(c)[..m], test, text))
    ensures CategoryRaw(c, m, test, text) == WeightSum(Hits(CategoryEntries(c)[..m], test, text))
  {
    var es := CategoryEntries(c);
    if m == 0 {
      assert es[..m] == [];
    } else {
      CategoryMatches(c, m - 1, test, text);
      assert es[..m] == es[..m - 1] + [es[m - 1]];
      MatchConcat(es[..m - 1], [es[m - 1]], test, text);
      HitsSingle(es[m - 1], test, text);
    }
  }

  /** All the entries of one whole category. */
  lemma CategoryMatchesAll(c: Category, test: Matcher, text: string)
    ensures CategoryReasons(c, |c.patterns|, test, text) == ReasonsOf(Hits(CategoryEntries(c), test, text))
    ensures CategoryRaw(c, |c.patterns|, test, text) == WeightSum(Hits(CategoryEntries(c), test, text))
  {
    CategoryMatches(c, |c.patterns|, test, text);
    assert CategoryEntries(c)[..|c.patterns|] == CategoryEntries(c);
  }

  lemma FlattenSnoc(rules: seq<Category>, n: nat)
    requires 0 < n <= |rules|
    ensures Flatten(rules[..n]) == Flatten(rules[..n - 1]) + CategoryEntries(rules[n - 1])
  {
    var c := rules[n - 1];
    assert rules[..n] == rules[..n - 1] + [c];
    FlattenConcat(rules[..n - 1], [c]);
    assert [c][1..] == [];
    assert Flatten([c]) == CategoryEntries(c) + [];
  }

  /** The outer loop after `n` categories has collected exactly the matching
      entries of the first `n` categories. */
  lemma {:induction false} TableMatches(rules: seq<Category>, n: nat, test: Matcher, text: string)
    requires n <= |rules|
    ensures TableReasons(rules, n, test, text) == ReasonsOf(Hits(Flatten(rules[..n]), test, text))
    ensures TableRaw(rules, n, test, text) == WeightSum(Hits(Flatten(rules[..n]), test, text))
  {
    if n == 0 {
      assert rules[..n] == [];
    } else {
      TableMatches(rules, n - 1, test, text);
      FlattenSnoc(rules, n);
      CategoryMatchesAll(rules[n - 1], test, text);
      MatchConcat(Flatten(rules[..n - 1]), CategoryEntries(rules[n - 1]), test, text);
    }
  }

  /** `reasons` is the list of matching patterns of the whole table, in
      category-declaration order and then pattern-declaration order, one
      reason per match; the raw score is the sum of their weights. */
  lemma MatchReference(rules: seq<Category>, test: Matcher, text: string)
    ensures TableReasons(rules, |rules|, test, text) == ReasonsOf(Hits(Flatten(rules), test, text))
    ensures TableRaw(rules, |rules|, test, text) == WeightSum(Hits(Flatten(rules), test, text))
  {
    TableMatches(rules, |rules|, test, text);
    assert rules[..|rules|] == rules;
  }

  // ── Membership: which reasons appear ───────────────────────────────────

  lemma {:induction false} HitsMembership(es: seq<Entry>, test: Matcher, text: string, e: Entry)
    ensures e in Hits(es, test, text) <==> e in es && test(e.pattern, text)
    decreases |es|
  {
    if es != [] {
      HitsMembership(es[1..], test, text, e);
      assert es == [es[0]] + es[1..];
    }
  }

  lemma {:induction false} FlattenMembership(rules: seq<Category>, e: Entry)
    ensures e in Flatten(rules) <==>
      exists i, k :: 0 <= i < |rules| && 0 <= k < |rules[i].patterns|
        && e == Entry(rules[i].name, rules[i].weight, rules[i].patterns[k])
    decreases |rules|
  {
    if rules != [] {
      FlattenMembership(rules[1..], e);
      var es := CategoryEntries(rules[0]);
      if e in es {
        var k :| 0 <= k < |es| && es[k] == e;
        assert 0 < |rules| && 0 <= k < |rules[0].patterns|
          && e == Entry(rules[0].name, rules[0].weight, rules[0].patterns[k]);
      }
      if e in Flatten(rules[1..]) {
        var i, k :| 0 <= i < |rules[1..]| && 0 <= k < |rules[1..][i].patterns|
          && e == Entry(rules[1..][i].name, rules[1..][i].weight, rules[1..][i].patterns[k]);
        assert rules[1..][i] == rules[i + 1];
      }
      if exists i, k ::
          0 <= i < |rules| && 0 <= k < |rules[i].patterns|
          && e == Entry(rules[i].name, rules[i].weight, rules[i].patterns[k])
      {
        var i, k :| 0 <= i < |rules| && 0 <= k < |rules[i].patterns|
          && e == Entry(rules[i].name, rules[i].weight, rules[i].patterns[k]);
        if i == 0 {
          assert es[k] == e;
        } else {
          assert rules[1..][i - 1] == rules[i];
        }
      }
    }
  }

  lemma {:induction false} ReasonsOfMembership(es: seq<Entry>, r: Reason)
    ensures r in ReasonsOf(es) <==> exists e :: e in es && r == ReasonOf(e)
    decreases |es|
  {
    if es != [] {
      ReasonsOfMembership(es[1..], r);
      assert es == [es[0]] + es[1..];
      if exists e :: e in es && r == ReasonOf(e) {
        var e :| e in es && r == ReasonOf(e);
        if e != es[0] {
          assert e in es[1..];
        }
      }
    }
  }

  /** A reason is reported if and only if some pattern of the table matches
      and the reason names that pattern's category and flag. */
  lemma ReasonMembership(rules: seq<Category>, test: Matcher, text: string, r: Reason)
    ensures r in TableReasons(rules, |rules|, test, text) <==>
      exists i, k :: 0 <= i < |rules| && 0 <= k < |rules[i].patterns|
        && test(rules[i].patterns[k], text)
        && r == Reason(rules[i].name, rules[i].patterns[k].flag)
  {
    MatchReference(rules, test, text);
    var hits := Hits(Flatten(rules), test, text);
    ReasonsOfMembership(hits, r);
    if r in TableReasons(rules, |rules|, test, text) {
      var e :| e in hits && r == ReasonOf(e);
      HitsMembership(Flatten(rules), test, text, e);
      FlattenMembership(rules, e);
      var i, k :| 0 <= i < |rules| && 0 <= k < |rules[i].patterns|
        && e == Entry(rules[i].name, rules[i].weight, rules[i].patterns[k]);
      assert test(rules[i].patterns[k], text);
    }
    if exists i, k ::
        0 <= i < |rules| && 0 <= k < |rules[i].patterns|
        && test(rules[i].patterns[k], text)
        && r == Reason(rules[i].name, rules[i].patterns[k].flag)
    {
      var i, k :| 0 <= i < |rules| && 0 <= k < |rules[i].patterns|
        && test(rules[i].patterns[k], text)
        && r == Reason(rules[i].name, rules[i].patterns[k].flag);
      var e := Entry(rules[i].name, rules[i].weight, rules[i].patterns[k]);
      FlattenMembership(rules, e);
      HitsMembership(Flatten(rules), test, text, e);
      assert e in hits && r == ReasonOf(e);
    }
  }

  // ── Weights ────────────────────────────────────────────────────────────

  /** No two categories of the table share a name. */
  predicate DistinctNames(rules: seq<Category>) {
    forall i, j :: 0 <= i < j < |rules| ==> rules[i].name != rules[j].name
  }

  /** The weight of the first category called `name`. */
  function WeightOf(rules: seq<Category>, name: string): nat {
    if rules == [] then 0
    else if rules[0].name == name then rules[0].weight
    else WeightOf(rules[1..], name)
  }

  /** The sum, over the reasons, of the weight of each reason's category. */
  function ReasonWeights(rules: seq<Category>, rs: seq<Reason>): nat {
    if rs == [] then 0 else WeightOf(rules, rs[0].category) + ReasonWeights(rules, rs[1..])
  }

  lemma {:induction false} ReasonWeightsConcat(rules: seq<Category>, a: seq<Reason>, b: seq<Reason>)
    ensures ReasonWeights(rules, a + b) == ReasonWeights(rules, a) + ReasonWeights(rules, b)
    decreases |a|
  {
    if a == [] {
      assert a + b == b;
    } else {
      assert (a + b)[1..] == a[1..] + b;
      ReasonWeightsConcat(rules, a[1..], b);
    }
  }

  lemma {:induction false} WeightOfIndex(rules: seq<Category>, i: nat)
    requires DistinctNames(rules) && i < |rules|
    ensures WeightOf(rules, rules[i].name) == rules[i].weight
    decreases i
  {
    if i > 0 {
      assert rules[0].name != rules[i].name;
      assert rules[1..][i - 1] == rules[i];
      WeightOfIndex(rules[1..], i - 1);
    }
  }

  lemma {:induction false} CategoryRawWeights(rules: seq<Category>, c: Category, n: nat, test: Matcher, text: string)
    requires n <= |c.patterns| && WeightOf(rules, c.name) == c.weight
    ensures CategoryRaw(c, n, test, text) == ReasonWeights(rules, CategoryReasons(c, n, test, text))
  {
    if n > 0 {
      CategoryRawWeights(rules, c, n - 1, test, text);
      var p := c.patterns[n - 1];
      var last := if test(p, text) then [Reason(c.name, p.flag)] else [];
      ReasonWeightsConcat(rules, CategoryReasons(c, n - 1, test, text), last);
      assert last != [] ==> last[1..] == [];
    }
  }

  lemma {:induction false} TableRawWeights(rules: seq<Category>, n: nat, test: Matcher, text: string)
    requires DistinctNames(rules) && n <= |rules|
    ensures TableRaw(rules, n, test, text) == ReasonWeights(rules, TableReasons(rules, n, test, text))
  {
    if n > 0 {
      TableRawWeights(rules, n - 1, test, text);
      var c := rules[n - 1];
      var before := TableReasons(rules, n - 1, test, text);
      var added := CategoryReasons(c, |c.patterns|, test, text);
      assert TableReasons(rules, n, test, text) == before + added;
      assert TableRaw(rules, n, test, text) == TableRaw(rules, n - 1, test, text) + CategoryRaw(c, |c.patterns|, test, text);
      WeightOfIndex(rules, n - 1);
      CategoryRawWeights(rules, c, |c.patterns|, test, text);
      ReasonWeightsConcat(rules, before, added);
    }
  }

  /** When category names are distinct, the raw score is the sum over the
      reported reasons of their categories' weights: every matching pattern
      adds its category's weight, not once per category. */
  lemma RawIsReasonWeights(rules: seq<Category>, test: Matcher, text: string)
    requires DistinctNames(rules)
    ensures TableRaw(rules, |rules|, test, text) == ReasonWeights(rules, TableReasons(rules, |rules|, test, text))
  {
    TableRawWeights(rules, |rules|, test, text);
  }

  /** The most a table can score: every pattern matching. */
  function Capacity(rules: seq<Category>, n: nat): nat
    requires n <= |rules|
  {
    if n == 0 then 0 else Capacity(rules, n - 1) + rules[n - 1].weight * |rules[n - 1].patterns|
  }

  lemma {:induction false} CategoryRawBound(c: Category, n: nat, test: Matcher, text: string)
    requires n <= |c.patterns|
    ensures CategoryRaw(c, n, test, text) <= c.weight * n
  {
    if n > 0 {
      CategoryRawBound(c, n - 1, test, text);
      assert c.weight * n == c.weight * (n - 1) + c.weight;
    }
  }

  /** The raw score never exceeds the table's capacity. */
  lemma {:induction false} TableRawBound(rules: seq<Category>, n: nat, test: Matcher, text: string)
    requires n <= |rules|
    ensures TableRaw(rules, n, test, text) <= Capacity(rules, n)
  {
    if n > 0 {
      TableRawBound(rules, n - 1, test, text);
      CategoryRawBound(rules[n - 1], |rules[n - 1].patterns|, test, text);
    }
  }

  /** Zero raw score and no reasons go together when every weight is positive. */
  predicate PositiveWeights(rules: seq<Category>) {
    forall i :: 0 <= i < |rules| ==> rules[i].weight > 0
  }

  lemma {:induction false} CategoryZeroIffEmpty(c: Category, n: nat, test: Matcher, text: string)
    requires n <= |c.patterns| && c.weight > 0
    ensures CategoryRaw(c, n, test, text) == 0 <==> CategoryReasons(c, n, test, text) == []
  {
    if n > 0 {
      CategoryZeroIffEmpty(c, n - 1, test, text);
    }
  }

  lemma {:induction false} TableZeroIffEmpty(rules: seq<Category>, n: nat, test: Matcher, text: string)
    requires n <= |rules| && PositiveWeights(rules)
    ensures TableRaw(rules, n, test, text) == 0 <==> TableReasons(rules, n, test, text) == []
  {
    if n > 0 {
      TableZeroIffEmpty(rules, n - 1, test, text);
      var c := rules[n - 1];
      CategoryZeroIffEmpty(c, |c.patterns|, test, text);
    }
  }

  // ── Monotonicity ───────────────────────────────────────────────────────

  /** Every pattern of the table that matches `x` also matches `y`. */
  predicate MatchesWithin(rules: seq<Category>, test: Matcher, x: string, y: string) {
    forall i, k :: 0 <= i < |rules| && 0 <= k < |rules[i].patterns| ==>
      test(rules[i].patterns[k], x) ==> test(rules[i].patterns[k], y)
  }

  lemma {:induction false} CategoryRawMonotone(c: Category, n: nat, test: Matcher, x: string, y: string)
    requires n <= |c.patterns|
    requires forall k :: 0 <= k < |c.patterns| ==> test(c.patterns[k], x) ==> test(c.patterns[k], y)
    ensures CategoryRaw(c, n, test, x) <= CategoryRaw(c, n, test, y)
  {
    if n > 0 {
      CategoryRawMonotone(c, n - 1, test, x, y);
    }
  }

  lemma {:induction false} TableRawMonotone(rules: seq<Category>, n: nat, test: Matcher, x: string, y: string)
    requires n <= |rules| && MatchesWithin(rules, test, x, y)
    ensures TableRaw(rules, n, test, x) <= TableRaw(rules, n, test, y)
  {
    if n > 0 {
      TableRawMonotone(rules, n - 1, test, x, y);
      var c := rules[n - 1];
      assert forall k :: 0 <= k < |c.patterns| ==> test(c.patterns[k], x) ==> test(c.patterns[k], y) by {
        forall k | 0 <= k < |c.patterns| && test(c.patterns[k], x) ensures test(c.patterns[k], y) {
          assert c.patterns[k] == rules[n - 1].patterns[k];
        }
      }
      CategoryRawMonotone(c, |c.patterns|, test, x, y);
    }
  }

  /** A larger raw score never scales to a smaller score. */
  lemma ScaleMonotone(a: nat, b: nat)
    requires a <= b
    ensures Scale(a) <= Scale(b)
  {
  }

  /** If every pattern that matches one text's normal form also matches the
      other's, and the other text passes the guard, the other text scores at
      least as high. A guarded first text scores 0. */
  lemma AnalysisMonotone(rules: seq<Category>, x: string, y: string, test: Matcher)
    requires !NoText(Str(y))
    requires MatchesWithin(rules, test, Normalize(x), Normalize(y))
    ensures Analysis(rules, Str(x), test).score <= Analysis(rules, Str(y), test).score
  {
    if !NoText(Str(x)) {
      TableRawMonotone(rules, |rules|, test, Normalize(x), Normalize(y));
      ScaleMonotone(TableRaw(rules, |rules|, test, Normalize(x)), TableRaw(rules, |rules|, test, Normalize(y)));
    } else {
      assert Analysis(rules, Str(x), test) == NO_TEXT_RESULT;
    }
  }

  // ── An illustrative matcher ────────────────────────────────────────────

  /** `needle` occurs somewhere in `hay`. */
  predicate Occurs(needle: string, hay: string)
    decreases |hay|
  {
    needle <= hay || (hay != [] && Occurs(needle, hay[1..]))
  }

  /** Reading every pattern as a literal piece of text. This agrees with the
      real regular expression only for patterns without metacharacters
      (`hurry`, `moneygram`, ...) and only on lower-case text, since every
      pattern of the table carries the `i` flag. */
  function LiteralMatcher(): Matcher {
    (p: Pattern, t: string) => Occurs(p.source, t)
  }

  lemma {:induction false} OccursInLonger(needle: string, x: string, y: string)
    requires Occurs(needle, x)
    ensures Occurs(needle, x + y)
    decreases |x|
  {
    if needle <= x {
      assert (x + y)[..|needle|] == x[..|needle|];
    } else {
      OccursInLonger(needle, x[1..], y);
      assert (x + y)[1..] == x[1..] + y;
    }
  }

  /** A matcher that searches anywhere in the text: a match survives text
      added at the end. `RegExp.prototype.test` without anchors is one. */
  ghost predicate Extensible(test: Matcher) {
    forall p, t, u :: test(p, t) ==> test(p, t + u)
  }

  /** Literal matching searches anywhere in the text. */
  lemma LiteralExtensible()
    ensures Extensible(LiteralMatcher())
  {
    var m := LiteralMatcher();
    forall p, t, u | m(p, t) ensures m(p, t + u) {
      OccursInLonger(p.source, t, u);
    }
  }

  /** Under a matcher that searches anywhere, text added at the end can only
      add matches, so it never lowers the score. */
  lemma AppendNeverLowers(rules: seq<Category>, x: string, y: string, test: Matcher)
    requires Extensible(test)
    ensures Analysis(rules, Str(x), test).score <= Analysis(rules, Str(x + y), test).score
  {
    var ax := Analysis(rules, Str(x), test);
    var ay := Analysis(rules, Str(x + y), test);
    if !NoText(Str(x)) {
      VisibleAppend(x, y);
      AppendMatches(rules, x, y, test);
      AnalysisMonotone(rules, x, x + y, test);
    } else {
      assert ax == NO_TEXT_RESULT;
    }
  }

  lemma AppendMatches(rules: seq<Category>, x: string, y: string, test: Matcher)
    requires Extensible(test)
    ensures MatchesWithin(rules, test, Normalize(x), Normalize(x + y))
  {
    NormalizeAppend(x, y);
    ExtensibleWithin(rules, test, Normalize(x), Normalize(x + y));
  }

  lemma VisibleAppend(x: string, y: string)
    requires !AllSpace(x)
    ensures !AllSpace(x + y)
  {
    VisibleConcat(x, y);
    VisibleEmpty(x);
    VisibleEmpty(x + y);
  }

  lemma ExtensibleWithin(rules: seq<Category>, test: Matcher, a: string, b: string)
    requires Extensible(test) && a <= b
    ensures MatchesWithin(rules, test, a, b)
  {
    forall i, k | 0 <= i < |rules| && 0 <= k < |rules[i].patterns| && test(rules[i].patterns[k], a)
      ensures test(rules[i].patterns[k], b)
    {
      assert b == a + b[|a|..];
    }
  }

  // ── The guard ──────────────────────────────────────────────────────────

  /** A guarded input gets the fixed zero-risk answer whatever the table and
      the matcher are, so no pattern is consulted; any other input is told
      apart from it by its recommendation. */
  lemma GuardResult(rules: seq<Category>, rules': seq<Category>, text: Input, test: Matcher, test': Matcher)
    ensures NoText(text) ==> Analysis(rules, text, test) == Analysis(rules', text, test') == NO_TEXT_RESULT
    ensures NoText(text) <==> Analysis(rules, text, test).recommendation == NO_TEXT_ADVICE
  {
    if !NoText(text) {
      var a := Analysis(rules, text, test);
      assert a.recommendation == Recommendation(a.score);
      assert |HIGH_ADVICE| != |NO_TEXT_ADVICE| && |MEDIUM_ADVICE| != |NO_TEXT_ADVICE| && |LOW_ADVICE| != |NO_TEXT_ADVICE|;
    }
  }

  // ── Scores, tiers and recommendations ──────────────────────────────────

  /** The score is always within 0..100; the status and its colour are those
      of the score's single tier, and so is the recommendation for text past
      the guard (guarded input gets the no-text advice instead). */
  lemma TierConsistency(rules: seq<Category>, text: Input, test: Matcher)
    ensures 0 <= Analysis(rules, text, test).score <= 100
    ensures var a := Analysis(rules, text, test);
      && a.status == StatusThreshold(StatusTier(a.score)).title
      && a.statusColor == StatusThreshold(StatusTier(a.score)).color
      && (!NoText(text) ==> a.recommendation == Advice(StatusTier(a.score)))
  {
  }

  /** The colour of each tier. */
  lemma TierColors()
    ensures StatusThreshold(High).color == "red"
    ensures StatusThreshold(Medium).color == "yellow"
    ensures StatusThreshold(Low).color == "green"
  {
  }

  /** A text none of whose patterns match scores 0 and is rated low risk. */
  lemma NoHits(rules: seq<Category>, test: Matcher, text: string)
    requires forall i, k :: 0 <= i < |rules| && 0 <= k < |rules[i].patterns| ==> !test(rules[i].patterns[k], text)
    ensures Verdict(TableRaw(rules, |rules|, test, text), TableReasons(rules, |rules|, test, text))
      == AnalysisResult(0, LOW.title, LOW.color, [], LOW_ADVICE)
  {
    MatchReference(rules, test, text);
    var hits := Hits(Flatten(rules), test, text);
    if hits != [] {
      var e := hits[0];
      HitsMembership(Flatten(rules), test, text, e);
      FlattenMembership(rules, e);
      assert false;
    }
  }

  // ── Whitespace insensitivity ───────────────────────────────────────────

  lemma AllSpaceSplit(a: string, w: string, b: string)
    requires AllSpace(w)
    ensures AllSpace(a + w + b) <==> AllSpace(a) && AllSpace(b)
  {
    var s := a + w + b;
    if AllSpace(s) {
      forall i | 0 <= i < |a| ensures IsSpace(a[i]) { assert s[i] == a[i]; }
      forall i | 0 <= i < |b| ensures IsSpace(b[i]) { assert s[|a| + |w| + i] == b[i]; }
    }
    if AllSpace(a) && AllSpace(b) {
      AllSpaceConcat(a, w);
      AllSpaceConcat(a + w, b);
    }
  }

  /** Inputs that differ only in the width of a whitespace run give the same
      answer: the same guard outcome, reasons and score. */
  lemma WhitespaceRun(rules: seq<Category>, a: string, w1: string, w2: string, b: string, test: Matcher)
    requires w1 != [] && w2 != [] && AllSpace(w1) && AllSpace(w2)
    ensures Analysis(rules, Str(a + w1 + b), test) == Analysis(rules, Str(a + w2 + b), test)
  {
    AllSpaceSplit(a, w1, b);
    AllSpaceSplit(a, w2, b);
    NormalizeRun(a, w1, w2, b);
  }

  /** Scoring already normalised text gives the same answer: normalisation
      happens once, before any matching, and is idempotent. */
  lemma NormalizedInput(rules: seq<Category>, s: string, test: Matcher)
    ensures Analysis(rules, Str(Normalize(s)), test) == Analysis(rules, Str(s), test)
  {
    var n := Normalize(s);
    NormalizeIdempotent(s);
  }

  // ── Worked scenarios ───────────────────────────────────────────────────

  /** Patterns `m..n` of a category that do not match add nothing. */
  lemma {:induction false} CategoryQuiet(c: Category, m: nat, n: nat, test: Matcher, text: string)
    requires m <= n <= |c.patterns|
    requires forall k :: m <= k < n ==> !test(c.patterns[k], text)
    ensures CategoryReasons(c, n, test, text) == CategoryReasons(c, m, test, text)
    ensures CategoryRaw(c, n, test, text) == CategoryRaw(c, m, test, text)
  {
    if n > m {
      CategoryQuiet(c, m, n - 1, test, text);
    }
  }

  /** Categories `m..n` none of whose patterns match add nothing. */
  lemma {:induction false} TableQuiet(rules: seq<Category>, m: nat, n: nat, test: Matcher, text: string)
    requires m <= n <= |rules|
    requires forall i, k :: m <= i < n && 0 <= k < |rules[i].patterns| ==> !test(rules[i].patterns[k], text)
    ensures TableReasons(rules, n, test, text) == TableReasons(rules, m, test, text)
    ensures TableRaw(rules, n, test, text) == TableRaw(rules, m, test, text)
  {
    if n > m {
      TableQuiet(rules, m, n - 1, test, text);
      var c := rules[n - 1];
      CategoryQuiet(c, 0, |c.patterns|, test, text);
    }
  }

  /** Normalised text `t` that matches only `wire\s*transfer` and
      `gift\s*card` earns 9 + 9 = 18 raw points, which scale to exactly 30:
      the bottom of the medium tier, where the status and the recommendation
      agree. */
  lemma PaymentScenario(test: Matcher, t: string)
    requires forall i, k :: 0 <= i < |SCAM_PATTERNS| && 0 <= k < |SCAM_PATTERNS[i].patterns| ==>
      (test(SCAM_PATTERNS[i].patterns[k], t) <==> i == 4 && k < 2)
    ensures TableRaw(SCAM_PATTERNS, 7, test, t) == 18
    ensures Verdict(TableRaw(SCAM_PATTERNS, 7, test, t), TableReasons(SCAM_PATTERNS, 7, test, t))
      == AnalysisResult(30, MEDIUM.title, MEDIUM.color,
           [Reason(PAYMENT.name, PAYMENT.patterns[0].flag), Reason(PAYMENT.name, PAYMENT.patterns[1].flag)],
           MEDIUM_ADVICE)
  {
    TableShape();
    TableQuiet(SCAM_PATTERNS, 0, 4, test, t);
    TableQuiet(SCAM_PATTERNS, 5, 7, test, t);
    var c := SCAM_PATTERNS[4];
    assert c == PAYMENT;
    CategoryQuiet(c, 2, 10, test, t);
    assert test(c.patterns[0], t) && test(c.patterns[1], t);
    assert CategoryReasons(c, 1, test, t) == [Reason(c.name, c.patterns[0].flag)];
    assert CategoryRaw(c, 1, test, t) == 9;
    assert CategoryReasons(c, 2, test, t) == [Reason(c.name, c.patterns[0].flag), Reason(c.name, c.patterns[1].flag)];
    assert TableReasons(SCAM_PATTERNS, 5, test, t) == TableReasons(SCAM_PATTERNS, 4, test, t) + CategoryReasons(c, 10, test, t);
    assert TableRaw(SCAM_PATTERNS, 5, test, t) == TableRaw(SCAM_PATTERNS, 4, test, t) + CategoryRaw(c, 10, test, t);
    assert Scale(18) == 30;
  }

  /** "Guaranteed 100% profit, act now, limited time offer!" as the table
      reads it: `act\s*now` and `limited\s*time` match (8 + 8), and of the
      returns patterns only `100%\s*(...|profit)` does (10), because
      `guarantee[ds]?\s*(return|profit|...)` wants the claim word right
      after "guaranteed". 26 raw points scale to 43: medium risk, not high. */
  lemma GuaranteedProfitScenario(test: Matcher, t: string)
    requires forall i, k :: 0 <= i < |SCAM_PATTERNS| && 0 <= k < |SCAM_PATTERNS[i].patterns| ==>
      (test(SCAM_PATTERNS[i].patterns[k], t) <==> (i == 0 && k < 2) || (i == 1 && k == 1))
    ensures TableRaw(SCAM_PATTERNS, 7, test, t) == 26
    ensures Verdict(TableRaw(SCAM_PATTERNS, 7, test, t), TableReasons(SCAM_PATTERNS, 7, test, t))
      == AnalysisResult(43, MEDIUM.title, MEDIUM.color,
           [Reason(URGENCY.name, URGENCY.patterns[0].flag), Reason(URGENCY.name, URGENCY.patterns[1].flag),
            Reason(GUARANTEED_RETURNS.name, GUARANTEED_RETURNS.patterns[1].flag)],
           MEDIUM_ADVICE)
  {
    TableShape();
    TableQuiet(SCAM_PATTERNS, 2, 7, test, t);
    var u := SCAM_PATTERNS[0];
    var g := SCAM_PATTERNS[1];
    assert u == URGENCY && g == GUARANTEED_RETURNS;
    CategoryQuiet(u, 2, 10, test, t);
    CategoryQuiet(g, 2, 10, test, t);
    assert test(u.patterns[0], t) && test(u.patterns[1], t) && !test(g.patterns[0], t) && test(g.patterns[1], t);
    assert CategoryReasons(u, 1, test, t) == [Reason(u.name, u.patterns[0].flag)];
    assert CategoryRaw(u, 1, test, t) == 8;
    assert CategoryReasons(u, 2, test, t) == [Reason(u.name, u.patterns[0].flag), Reason(u.name, u.patterns[1].flag)];
    assert CategoryReasons(g, 1, test, t) == [];
    assert CategoryRaw(g, 1, test, t) == 0;
    assert CategoryReasons(g, 2, test, t) == [Reason(g.name, g.patterns[1].flag)];
    assert TableReasons(SCAM_PATTERNS, 1, test, t) == CategoryReasons(u, 10, test, t);
    assert TableReasons(SCAM_PATTERNS, 2, test, t) == TableReasons(SCAM_PATTERNS, 1, test, t) + CategoryReasons(g, 10, test, t);
    assert TableRaw(SCAM_PATTERNS, 2, test, t) == TableRaw(SCAM_PATTERNS, 1, test, t) + CategoryRaw(g, 10, test, t);
    assert Scale(26) == 43;
  }

  // ── The shipped table ──────────────────────────────────────────────────

  /** Seven categories, with their weights and pattern counts in declaration
      order; every weight is positive. */
  lemma TableShape()
    ensures |SCAM_PATTERNS| == 7
    ensures SCAM_PATTERNS[0].weight == 8 && SCAM_PATTERNS[1].weight == 10 && SCAM_PATTERNS[2].weight == 9
      && SCAM_PATTERNS[3].weight == 10 && SCAM_PATTERNS[4].weight == 9 && SCAM_PATTERNS[5].weight == 7
      && SCAM_PATTERNS[6].weight == 4
    ensures |SCAM_PATTERNS[0].patterns| == 10 && |SCAM_PATTERNS[1].patterns| == 10
      && |SCAM_PATTERNS[2].patterns| == 9 && |SCAM_PATTERNS[3].patterns| == 8
      && |SCAM_PATTERNS[4].patterns| == 10 && |SCAM_PATTERNS[5].patterns| == 9
      && |SCAM_PATTERNS[6].patterns| == 6
    ensures PositiveWeights(SCAM_PATTERNS)
  {
  }

  /** No two categories of the table share a name. */
  lemma TableNames()
    ensures DistinctNames(SCAM_PATTERNS)
  {
    assert URGENCY.name[..2] == "Ur" && GUARANTEED_RETURNS.name[..2] == "Gu" && TOO_GOOD.name[..2] == "To";
    assert PHISHING.name[..2] == "Ph" && PAYMENT.name[..2] == "Pa";
    assert IMPERSONATION.name[..2] == "Im" && POOR_GRAMMAR.name[..2] == "Po";
  }

  /** At most 518 raw points can be earned, far past the 60 that saturate the score. */
  lemma TableCapacity()
    ensures Capacity(SCAM_PATTERNS, 7) == 518
  {
    TableShape();
    assert Capacity(SCAM_PATTERNS, 1) == 80;
    assert Capacity(SCAM_PATTERNS, 2) == 180;
    assert Capacity(SCAM_PATTERNS, 3) == 261;
    assert Capacity(SCAM_PATTERNS, 4) == 341;
    assert Capacity(SCAM_PATTERNS, 5) == 431;
    assert Capacity(SCAM_PATTERNS, 6) == 494;
  }
}
