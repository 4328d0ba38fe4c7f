/**
 * The few-shot example table and the selection pipeline over it: keep one
 * category, sort by quality (best first, ties in table order), take a prefix.
 */
module FewShot {
  import opened Text

  datatype FewShotExample = FewShotExample(input: string, output: string, category: string, qualityScore: real)

  const Factorial := FewShotExample(
    "Write a function to calculate factorial",
    "```rust\nfn factorial(n: u32) -> u32 "
      + "{\n    if n == 0 {\n        1\n    } "
      + "else {\n        n * factorial(n - 1)\n  "
      + "  }\n}\n```",
    "code",
    0.9)

  const LoopExplanation := FewShotExample(
    "Explain what a loop is in programming",
    "A loop is a control structure that "
      + "allows code to be executed repeatedly "
      + "based on a condition. There are "
      + "different types of loops like for "
      + "loops, while loops, and do-while loops.",
    "explanation",
    0.8)

  const HelloWorld := FewShotExample(
    "Write a simple hello world program",
    "```python\nprint('Hello, World!')\n```",
    "code",
    0.95)

  const MachineLearning := FewShotExample(
    "What is machine learning?",
    "Machine learning is a subset of "
      + "artificial intelligence that enables "
      + "computers to learn and make decisions "
      + "from data without being explicitly "
      + "programmed for every scenario.",
    "definition",
    0.85)

  /** Rust's `get_examples`: the fixed table, in this order. */
  function GetExamples(): (r: seq<FewShotExample>)
    ensures |r| == 4
    ensures forall i | 0 <= i < |r| :: 0.0 <= r[i].qualityScore <= 1.0
  {
    [Factorial, LoopExplanation, HelloWorld, MachineLearning]
  }

  /** The examples of `xs` in category `c`, in their order. */
  function OfCategory(xs: seq<FewShotExample>, c: string): (r: seq<FewShotExample>)
    ensures |r| <= |xs|
    ensures forall i | 0 <= i < |r| :: r[i].category == c
  {
    if xs == [] then []
    else if xs[0].category == c then [xs[0]] + OfCategory(xs[1..], c)
    else OfCategory(xs[1..], c)
  }

  /** Filtering only drops examples. */
  lemma {:induction false} OfCategorySubset(xs: seq<FewShotExample>, c: string)
    ensures multiset(OfCategory(xs, c)) <= multiset(xs)
  {
    if xs != [] {
      OfCategorySubset(xs[1..], c);
      assert xs == [xs[0]] + xs[1..];
    }
  }

  /** Filtering keeps every example of the category. */
  lemma {:induction false} OfCategoryKeepsAll(xs: seq<FewShotExample>, c: string, x: FewShotExample)
    requires x in xs && x.category == c
    ensures x in OfCategory(xs, c)
  {
    if xs[0] != x {
      assert x in xs[1..];
      OfCategoryKeepsAll(xs[1..], c, x);
    }
  }

  /** Best first: quality scores never increase along `xs`. */
  predicate SortedByScore(xs: seq<FewShotExample>) {
    forall i, j | 0 <= i < j < |xs| :: xs[i].qualityScore >= xs[j].qualityScore
  }

  /** Inserts `x` before the first element scoring no more than it, so `x` precedes its ties. */
  function InsertByScore(x: FewShotExample, xs: seq<FewShotExample>): (r: seq<FewShotExample>)
    ensures multiset(r) == multiset(xs) + multiset{x}
  {
    if xs == [] || xs[0].qualityScore <= x.qualityScore then [x] + xs
    else
      assert xs == [xs[0]] + xs[1..];
      [xs[0]] + InsertByScore(x, xs[1..])
  }

  /** Inserting into a best-first list keeps it best first. */
  lemma {:induction false} InsertSorted(x: FewShotExample, xs: seq<FewShotExample>)
    requires SortedByScore(xs)
    ensures SortedByScore(InsertByScore(x, xs))
  {
    if xs != [] && xs[0].qualityScore > x.qualityScore {
      var rest := InsertByScore(x, xs[1..]);
      InsertSorted(x, xs[1..]);
      forall k | 0 <= k < |rest|
        ensures xs[0].qualityScore >= rest[k].qualityScore
      {
        assert rest[k] in multiset(xs[1..]) + multiset{x};
        if rest[k] != x {
          var j :| 0 <= j < |xs[1..]| && xs[1..][j] == rest[k];
          assert xs[j + 1] == rest[k];
        }
      }
    }
  }

  /** A stable sort by quality, best first (`sorted_by` with the scores compared in reverse). */
  function SortByScore(xs: seq<FewShotExample>): (r: seq<FewShotExample>)
    ensures SortedByScore(r)
    ensures multiset(r) == multiset(xs)
    ensures |r| == |xs|
  {
    if xs == [] then []
    else
      assert xs == [xs[0]] + xs[1..];
      InsertSorted(xs[0], SortByScore(xs[1..]));
      InsertByScore(xs[0], SortByScore(xs[1..]))
  }

  /** The elements of `xs` with score `s`, in their order. */
  function WithScore(xs: seq<FewShotExample>, s: real): seq<FewShotExample> {
    if xs == [] then []
    else (if xs[0].qualityScore == s then [xs[0]] else []) + WithScore(xs[1..], s)
  }

  lemma {:induction false} InsertKeepsTies(x: FewShotExample, xs: seq<FewShotExample>, s: real)
    ensures WithScore(InsertByScore(x, xs), s) ==
      (if x.qualityScore == s then [x] else []) + WithScore(xs, s)
  {
    if xs == [] || xs[0].qualityScore <= x.qualityScore {
      assert ([x] + xs)[1..] == xs;
    } else {
      InsertKeepsTies(x, xs[1..], s);
      var rest := InsertByScore(x, xs[1..]);
      assert ([xs[0]] + rest)[1..] == rest;
    }
  }

  /** The sort is stable: the examples of any one score keep their relative order. */
  lemma {:induction false} SortIsStable(xs: seq<FewShotExample>, s: real)
    ensures WithScore(SortByScore(xs), s) == WithScore(xs, s)
  {
    if xs != [] {
      SortIsStable(xs[1..], s);
      InsertKeepsTies(xs[0], SortByScore(xs[1..]), s);
    }
  }

  function Min(a: nat, b: nat): nat {
    if a <= b then a else b
  }

  /** A prefix of a best-first list of category `c` is best first, of category `c`, and drawn from it. */
  lemma TakePrefix(xs: seq<FewShotExample>, n: nat, c: string)
    requires n <= |xs| && SortedByScore(xs)
    requires forall i | 0 <= i < |xs| :: xs[i].category == c
    ensures SortedByScore(xs[..n])
    ensures forall i | 0 <= i < n :: xs[..n][i].category == c
    ensures multiset(xs[..n]) <= multiset(xs)
  {
    assert xs == xs[..n] + xs[n..];
    assert multiset(xs) == multiset(xs[..n]) + multiset(xs[n..]);
  }

  /** Filtering by score distributes over concatenation. */
  lemma {:induction false} WithScoreAppend(a: seq<FewShotExample>, b: seq<FewShotExample>, s: real)
    ensures WithScore(a + b, s) == WithScore(a, s) + WithScore(b, s)
  {
    if a == [] {
      assert a + b == b;
    } else {
      WithScoreAppend(a[1..], b, s);
      assert (a + b)[1..] == a[1..] + b;
    }
  }

  /** A prefix of a best-first list holds its best: whatever comes later scores no higher. */
  lemma TakeBest(xs: seq<FewShotExample>, n: nat, s: real)
    requires n <= |xs| && SortedByScore(xs)
    ensures forall x | x in multiset(xs) - multiset(xs[..n]) :: forall i | 0 <= i < n :: x.qualityScore <= xs[i].qualityScore
    ensures WithScore(xs[..n], s) <= WithScore(xs, s)
  {
    assert xs == xs[..n] + xs[n..];
    assert multiset(xs) - multiset(xs[..n]) == multiset(xs[n..]);
    forall x | x in multiset(xs[n..])
      ensures forall i | 0 <= i < n :: x.qualityScore <= xs[i].qualityScore
    {
      var k :| 0 <= k < |xs[n..]| && xs[n..][k] == x;
      assert xs[n + k] == x;
    }
    WithScoreAppend(xs[..n], xs[n..], s);
  }

  /** The first `n` of a list sorted best first: nothing left out beats them, and ties keep their order. */
  lemma SortedPrefixIsBest(xs: seq<FewShotExample>, n: nat)
    requires n <= |xs|
    ensures var r := SortByScore(xs)[..n];
      && (forall x | x in multiset(xs) - multiset(r) :: forall i | 0 <= i < |r| :: x.qualityScore <= r[i].qualityScore)
      && (forall s :: WithScore(r, s) <= WithScore(xs, s))
  {
    var sorted := SortByScore(xs);
    forall s
      ensures WithScore(sorted[..n], s) <= WithScore(xs, s)
    {
      TakeBest(sorted, n, s);
      SortIsStable(xs, s);
    }
    TakeBest(sorted, n, 0.0);
  }

  /** The first `n` of the matching examples, sorted best first, have the category and come from the table. */
  lemma SortedPrefixOfCategory(table: seq<FewShotExample>, category: string, n: nat)
    requires n <= |OfCategory(table, category)|
    ensures var r := SortByScore(OfCategory(table, category))[..n];
      && (forall i | 0 <= i < |r| :: r[i].category == category)
      && SortedByScore(r)
      && multiset(r) <= multiset(table)
  {
    var matching := OfCategory(table, category);
    OfCategorySubset(table, category);
    var sorted := SortByScore(matching);
    forall i | 0 <= i < |sorted|
      ensures sorted[i].category == category
    {
      assert sorted[i] in multiset(matching);
    }
    TakePrefix(sorted, n, category);
  }

  /** The pipeline over any table: filter by category, sort best first, take `limit`. */
  function Select(table: seq<FewShotExample>, category: string, limit: nat): (r: seq<FewShotExample>)
    ensures |r| == Min(limit, |OfCategory(table, category)|)
    ensures forall i | 0 <= i < |r| :: r[i].category == category
    ensures SortedByScore(r)
    ensures multiset(r) <= multiset(table)
    ensures forall x | x in multiset(OfCategory(table, category)) - multiset(r) ::
      forall i | 0 <= i < |r| :: x.qualityScore <= r[i].qualityScore
    ensures forall s :: WithScore(r, s) <= WithScore(OfCategory(table, category), s)
  {
    var n := Min(limit, |OfCategory(table, category)|);
    SortedPrefixOfCategory(table, category, n);
    SortedPrefixIsBest(OfCategory(table, category), n);
    SortByScore(OfCategory(table, category))[..n]
  }

  /**
   * Rust's `select_examples`: the best `limit` examples of `category`.
   * Each comes from the table, has the requested category, and they are
   * best first.
   */
  function SelectExamples(category: string, limit: nat): (r: seq<FewShotExample>)
    ensures |r| == Min(limit, |OfCategory(GetExamples(), category)|)
    ensures forall i | 0 <= i < |r| :: r[i].category == category
    ensures SortedByScore(r)
    ensures multiset(r) <= multiset(GetExamples())
    ensures forall x | x in multiset(OfCategory(GetExamples(), category)) - multiset(r) ::
      forall i | 0 <= i < |r| :: x.qualityScore <= r[i].qualityScore
    ensures forall s :: WithScore(r, s) <= WithScore(OfCategory(GetExamples(), category), s)
  {
    Select(GetExamples(), category, limit)
  }

  /** Filtering a list starts with its first element exactly when that element matches. */
  lemma OfCategoryCons(x: FewShotExample, xs: seq<FewShotExample>, c: string)
    ensures OfCategory([x] + xs, c) == (if x.category == c then [x] else []) + OfCategory(xs, c)
  {
    assert ([x] + xs)[1..] == xs;
  }

  /** Sorting two examples puts the better one first, and keeps the order of a tie. */
  lemma SortTwo(x: FewShotExample, y: FewShotExample)
    ensures x.qualityScore < y.qualityScore ==> SortByScore([x, y]) == [y, x]
    ensures x.qualityScore >= y.qualityScore ==> SortByScore([x, y]) == [x, y]
  {
    assert [x, y][1..] == [y];
    assert [y][1..] == [];
    assert SortByScore([y]) == [y];
  }

  /** The examples of category `cat` among `x` alone. */
  function IfCategory(x: FewShotExample, cat: string): seq<FewShotExample> {
    if x.category == cat then [x] else []
  }

  lemma OfCategoryOne(d: FewShotExample, cat: string)
    ensures OfCategory([d], cat) == IfCategory(d, cat)
  {
    assert [d] == [d] + [];
    OfCategoryCons(d, [], cat);
  }

  lemma OfCategoryTwo(c: FewShotExample, d: FewShotExample, cat: string)
    ensures OfCategory([c, d], cat) == IfCategory(c, cat) + IfCategory(d, cat)
  {
    assert [c, d] == [c] + [d];
    OfCategoryCons(c, [d], cat);
    OfCategoryOne(d, cat);
  }

  lemma OfCategoryThree(b: FewShotExample, c: FewShotExample, d: FewShotExample, cat: string)
    ensures OfCategory([b, c, d], cat) == IfCategory(b, cat) + (IfCategory(c, cat) + IfCategory(d, cat))
  {
    assert [b, c, d] == [b] + [c, d];
    OfCategoryCons(b, [c, d], cat);
    OfCategoryTwo(c, d, cat);
  }

  /** Filtering a four-element table, element by element. */
  lemma OfCategoryFour(a: FewShotExample, b: FewShotExample, c: FewShotExample, d: FewShotExample, cat: string)
    ensures OfCategory([a, b, c, d], cat) == IfCategory(a, cat) + (IfCategory(b, cat) + (IfCategory(c, cat) + IfCategory(d, cat)))
  {
    assert [a, b, c, d] == [a] + [b, c, d];
    OfCategoryCons(a, [b, c, d], cat);
    OfCategoryThree(b, c, d, cat);
  }

  /** The table holds two code examples, one explanation and one definition. */
  lemma TableCategories()
    ensures OfCategory(GetExamples(), "code") == [Factorial, HelloWorld]
    ensures OfCategory(GetExamples(), "explanation") == [LoopExplanation]
    ensures OfCategory(GetExamples(), "definition") == [MachineLearning]
  {
    var f, l, h, m := Factorial, LoopExplanation, HelloWorld, MachineLearning;
    var code, expl, def := f.category, l.category, m.category;
    assert h.category == code;
    assert code[0] == 'c' && expl[0] == 'e' && def[0] == 'd';
    OfCategoryFour(f, l, h, m, code);
    OfCategoryFour(f, l, h, m, expl);
    OfCategoryFour(f, l, h, m, def);
  }

  /** Selecting two or more from a category of two examples yields the better one first. */
  lemma SelectOfTwo(table: seq<FewShotExample>, cat: string, x: FewShotExample, y: FewShotExample, limit: nat)
    requires OfCategory(table, cat) == [x, y] && x.qualityScore < y.qualityScore && limit >= 2
    ensures Select(table, cat, limit) == [y, x]
  {
    SortTwo(x, y);
    assert [y, x][..2] == [y, x];
  }

  /** Asking for two or more code examples yields the hello-world example, then the factorial one. */
  lemma CodeSelection(limit: nat)
    requires limit >= 2
    ensures SelectExamples("code", limit) == [HelloWorld, Factorial]
  {
    TableCategories();
    SelectOfTwo(GetExamples(), "code", Factorial, HelloWorld, limit);
  }

  /** No example has category "general", so that category never yields examples. */
  lemma GeneralSelectsNothing(limit: nat)
    ensures SelectExamples("general", limit) == []
  {
    var f, l, h, m := Factorial, LoopExplanation, HelloWorld, MachineLearning;
    var general := "general";
    assert general[0] == 'g';
    assert f.category[0] == 'c' && l.category[0] == 'e' && h.category[0] == 'c' && m.category[0] == 'd';
    OfCategoryFour(f, l, h, m, general);
  }
}
