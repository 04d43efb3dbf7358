/**
 * Properties of the log-level parser of client/acclient.py: every result is
 * drawn from LEVELS, the text form follows the comma / dash grammar, the
 * documented examples, and the round trips (re-expanding a dumped level list,
 * re-parsing the printed form of a level set).
 */
module LevelsProperties {
  import opened Wrappers
  import opened Text
  import opened Python
  import opened Levels

  /** The list `_expand` returns holds distinct members of LEVELS, ascending. */
  lemma ExpandWithinLevels(l: Value)
    requires ExpandSpec(l).Success?
    ensures ExpandSpec(l).value.Some? ==> forall x :: x in ExpandSpec(l).value.value ==> x in LEVELS
    ensures ExpandSpec(l).value.Some? ==> forall i, j :: 0 <= i < j < |ExpandSpec(l).value.value| ==>
              ExpandSpec(l).value.value[i] < ExpandSpec(l).value.value[j]
  {
  }

  predicate Increasing(xs: seq<int>) {
    forall i, j :: 0 <= i < j < |xs| ==> xs[i] < xs[j]
  }

  /** The members of a set inside [lo, hi), as a strictly increasing list. */
  ghost predicate Lists(xs: seq<int>, s: set<int>, lo: int, hi: int) {
    Increasing(xs) && forall x :: x in xs <==> (x in s && lo <= x < hi)
  }

  lemma ListsHead(xs: seq<int>, s: set<int>, lo: int, hi: int)
    requires Lists(xs, s, lo, hi) && lo in s && lo < hi
    ensures |xs| > 0 && xs[0] == lo
  {
    assert lo in xs;
    var k :| 0 <= k < |xs| && xs[k] == lo;
    assert xs[0] in xs && xs[0] <= xs[k];
  }

  lemma ListsTail(xs: seq<int>, s: set<int>, lo: int, hi: int)
    requires Lists(xs, s, lo, hi) && |xs| > 0 && xs[0] == lo
    ensures Lists(xs[1..], s, lo + 1, hi)
  {
    forall x
      ensures x in xs[1..] <==> (x in s && lo + 1 <= x < hi)
    {
      if x in xs[1..] {
        var j :| 0 <= j < |xs[1..]| && xs[1..][j] == x;
        assert xs[0] < xs[j + 1];
      }
      if x in s && lo + 1 <= x < hi {
        assert x in xs;
        var j :| 0 <= j < |xs| && xs[j] == x;
        assert xs[1..][j - 1] == x;
      }
    }
  }

  /** An increasing list inside [lo, hi) has at most hi - lo elements. */
  lemma {:induction false} IncreasingLength(xs: seq<int>, lo: int, hi: int)
    requires Increasing(xs) && forall x :: x in xs ==> lo <= x < hi
    ensures |xs| > 0 ==> |xs| <= hi - lo
    decreases |xs|
  {
    if |xs| > 0 {
      assert xs[0] in xs;
      forall x | x in xs[1..]
        ensures xs[0] + 1 <= x < hi
      {
        var j :| 0 <= j < |xs[1..]| && xs[1..][j] == x;
        assert xs[0] < xs[j + 1] && xs[j + 1] in xs;
      }
      IncreasingLength(xs[1..], xs[0] + 1, hi);
    }
  }

  lemma ListsEmpty(xs: seq<int>, s: set<int>, lo: int, hi: int)
    requires Lists(xs, s, lo, hi) && lo >= hi
    ensures xs == []
  {
    IncreasingLength(xs, lo, hi);
  }

  /** Ascending is the only ascending listing of a set inside [lo, hi). */
  lemma {:induction false} AscendingUnique(s: set<int>, lo: int, hi: int, xs: seq<int>)
    requires Lists(xs, s, lo, hi)
    ensures Ascending(s, lo, hi) == xs
    decreases hi - lo
  {
    if lo >= hi {
      ListsEmpty(xs, s, lo, hi);
    } else if lo in s {
      ListsHead(xs, s, lo, hi);
      ListsTail(xs, s, lo, hi);
      AscendingUnique(s, lo + 1, hi, xs[1..]);
      assert xs == [lo] + xs[1..];
    } else {
      AscendingUnique(s, lo + 1, hi, xs);
    }
  }

  /** The order the model gives a level list does not matter for the set:
      AsList of the members of an ascending level list is that list. */
  lemma AsListOfAscending(xs: seq<int>, s: set<int>)
    requires forall i, j :: 0 <= i < j < |xs| ==> xs[i] < xs[j]
    requires forall x :: x in xs ==> x in LEVELS
    requires forall x :: x in s <==> x in xs
    ensures AsList(s) == xs
  {
    assert Lists(xs, s, 0, MAX_UPPER + 1);
    AscendingUnique(s, 0, MAX_UPPER + 1, xs);
  }

  /** A comma part that is a plain number adds that number. */
  lemma PartOfNumber(n: nat)
    ensures PartLevels(Decimal(n)) == Success({n})
  {
    DecimalRoundTrip(n);
    StripOfDigits(Decimal(n));
    assert Partition(Decimal(n), '-') == (Decimal(n), "");
  }

  lemma {:induction false} PartitionAt(a: string, sep: char, b: string)
    requires sep !in a
    ensures Partition(a + [sep] + b, sep) == (a, b)
    decreases |a|
  {
    var s := a + [sep] + b;
    if |a| > 0 {
      assert s[1..] == a[1..] + [sep] + b;
      PartitionAt(a[1..], sep, b);
      assert [a[0]] + a[1..] == a;
    } else {
      assert s[1..] == b;
    }
  }

  /** "a-b" adds the inclusive range a..b, with b clamped to 30 first. */
  lemma PartOfRange(a: nat, b: nat)
    ensures PartLevels(Decimal(a) + "-" + Decimal(b)) ==
            Success(Range(a, if b > MAX_UPPER then MAX_UPPER else b))
  {
    DecimalRoundTrip(a);
    DecimalRoundTrip(b);
    StripOfDigits(Decimal(a));
    StripOfDigits(Decimal(b));
    PartitionAt(Decimal(a), '-', Decimal(b));
  }

  /** "a-" (empty upper bound) adds just a. */
  lemma PartOfOpenRange(a: nat)
    ensures PartLevels(Decimal(a) + "-") == Success({a})
  {
    DecimalRoundTrip(a);
    StripOfDigits(Decimal(a));
    PartitionAt(Decimal(a), '-', "");
    assert Decimal(a) + "-" == Decimal(a) + ['-'] + "";
  }

  /** A part whose lower half is not all digits (an empty one included) raises,
      unless that half is "*". */
  lemma PartWithBadLower(lower: string, rest: string)
    requires '-' !in lower && Strip(lower) != WILDCARD && !IsDigits(Strip(lower))
    ensures PartLevels(lower + "-" + rest) ==
            Failure(AssertionError("Value " + Strip(lower) + " is not digit"))
    ensures PartLevels(lower) == Failure(AssertionError("Value " + Strip(lower) + " is not digit"))
  {
    PartitionAt(lower, '-', rest);
  }

  /** A digit lower half with a non-digit, non-empty upper half raises. */
  lemma PartWithBadUpper(a: nat, upper: string)
    requires Strip(upper) != "" && !IsDigits(Strip(upper))
    ensures PartLevels(Decimal(a) + "-" + upper) ==
            Failure(AssertionError("Upper bound " + Strip(upper) + " is not digit"))
  {
    DecimalRoundTrip(a);
    StripOfDigits(Decimal(a));
    PartitionAt(Decimal(a), '-', upper);
  }

  /** A part whose lower half strips to "*" adds every level, whatever follows
      the dash. */
  lemma PartOfStar(part: string)
    requires Strip(Partition(part, '-').0) == WILDCARD
    ensures PartLevels(part) == Success(LEVELS)
  {
  }

  /** The text case succeeds exactly when every comma part does. */
  lemma {:induction false} UnionSuccess(rs: seq<Result<set<int>, PyError>>)
    ensures Union(rs).Success? <==> forall k :: 0 <= k < |rs| ==> rs[k].Success?
    decreases |rs|
  {
    if |rs| > 0 {
      var init := rs[..|rs| - 1];
      UnionSuccess(init);
      assert forall k :: 0 <= k < |init| ==> init[k] == rs[k];
    }
  }

  /** Some part's outcome is a success that adds x. */
  ghost predicate SomePartAdds(rs: seq<Result<set<int>, PyError>>, x: int) {
    exists k :: 0 <= k < |rs| && rs[k].Success? && x in rs[k].value
  }

  /** On success, the accumulated set holds exactly what some part adds. */
  lemma {:induction false} UnionMembers(rs: seq<Result<set<int>, PyError>>, x: int)
    requires Union(rs).Success?
    ensures x in Union(rs).value <==> SomePartAdds(rs, x)
    decreases |rs|
  {
    if |rs| > 0 {
      var n := |rs|;
      var init := rs[..n - 1];
      UnionMembers(init, x);
      if x in Union(init).value {
        var k :| 0 <= k < n - 1 && init[k].Success? && x in init[k].value;
        assert rs[k] == init[k];
      }
      if exists k :: 0 <= k < n && rs[k].Success? && x in rs[k].value {
        var k :| 0 <= k < n && rs[k].Success? && x in rs[k].value;
        if k < n - 1 {
          assert init[k] == rs[k];
        }
      }
    }
  }

  /** On failure, the error is that of the first part that fails. */
  lemma {:induction false} UnionFirstError(rs: seq<Result<set<int>, PyError>>)
    requires Union(rs).Failure?
    ensures exists k :: 0 <= k < |rs| && rs[k] == Failure(Union(rs).error) &&
              forall j :: 0 <= j < k ==> rs[j].Success?
    decreases |rs|
  {
    var n := |rs|;
    var init := rs[..n - 1];
    if Union(init).Success? {
      UnionSuccess(init);
      assert forall j :: 0 <= j < n - 1 ==> rs[j] == init[j];
      assert rs[n - 1] == Failure(Union(rs).error);
      assert forall j :: 0 <= j < n - 1 ==> rs[j].Success?;
    } else {
      assert Union(rs) == Union(init);
      UnionFirstError(init);
      var k :| 0 <= k < n - 1 && init[k] == Failure(Union(init).error) &&
               forall j :: 0 <= j < k ==> init[j].Success?;
      assert rs[k] == init[k];
      assert forall j :: 0 <= j < k ==> rs[j] == init[j];
      assert rs[k] == Failure(Union(rs).error) && forall j :: 0 <= j < k ==> rs[j].Success?;
    }
  }

  /** Some comma part raises. */
  predicate SomePartFails(parts: seq<string>) {
    exists k :: 0 <= k < |parts| && PartLevels(parts[k]).Failure?
  }

  /** The text branch of _expand raises iff some comma part raises. */
  lemma TextFailure(spec: string)
    ensures ExpandSpec(PyStr(spec)).Failure? <==> SomePartFails(Split(spec, ','))
  {
    var parts := Split(spec, ',');
    var rs := PartResults(parts);
    assert TextLevels(spec) == Union(rs);
    UnionSuccess(rs);
    if TextLevels(spec).Failure? {
      assert ExpandSpec(PyStr(spec)).Failure?;
      var k :| 0 <= k < |rs| && !rs[k].Success?;
      assert 0 <= k < |parts| && PartLevels(parts[k]).Failure?;
      assert exists i :: 0 <= i < |parts| && PartLevels(parts[i]).Failure?;
    } else {
      assert ExpandSpec(PyStr(spec)).Success?;
      forall k | 0 <= k < |parts|
        ensures !PartLevels(parts[k]).Failure?
      {
        assert rs[k] == PartLevels(parts[k]);
      }
    }
  }

  /** parts[k] is the first comma part that raises, and it raises e. */
  ghost predicate FirstFailingPart(parts: seq<string>, k: int, e: PyError) {
    0 <= k < |parts| && PartLevels(parts[k]) == Failure(e) &&
    forall j :: 0 <= j < k ==> PartLevels(parts[j]).Success?
  }

  /** When it raises, the error is that of the first comma part that raises. */
  lemma TextFirstError(spec: string)
    requires ExpandSpec(PyStr(spec)).Failure?
    ensures exists k :: FirstFailingPart(Split(spec, ','), k, ExpandSpec(PyStr(spec)).error)
  {
    var parts := Split(spec, ',');
    var rs := PartResults(parts);
    assert TextLevels(spec) == Union(rs);
    assert ExpandSpec(PyStr(spec)).error == Union(rs).error;
    UnionFirstError(rs);
    var k :| 0 <= k < |rs| && rs[k] == Failure(Union(rs).error) && forall j :: 0 <= j < k ==> rs[j].Success?;
    assert PartLevels(parts[k]) == rs[k];
    assert forall j :: 0 <= j < k ==> PartLevels(parts[j]) == rs[j];
    assert FirstFailingPart(parts, k, ExpandSpec(PyStr(spec)).error);
  }

  /** Otherwise a level is in its result iff it is in LEVELS and some comma
      part adds it (PartResults(parts)[k] is PartLevels(parts[k])). */
  lemma TextMembers(spec: string, x: int)
    requires ExpandSpec(PyStr(spec)).Success?
    ensures x in ExpandSpec(PyStr(spec)).value.value <==>
              x in LEVELS && SomePartAdds(PartResults(Split(spec, ',')), x)
  {
    var rs := PartResults(Split(spec, ','));
    assert TextLevels(spec) == Union(rs);
    var u := Union(rs).value;
    var r := ExpandSpec(PyStr(spec)).value.value;
    assert r == Ascending(u * LEVELS, 0, MAX_UPPER + 1);
    assert x in r <==> x in u * LEVELS && 0 <= x <= MAX_UPPER;
    assert x in LEVELS ==> 0 <= x <= MAX_UPPER;
    UnionMembers(rs, x);
  }

  lemma DecimalHasNoComma(n: nat)
    ensures ',' !in Decimal(n) && '-' !in Decimal(n)
  {
    DecimalRoundTrip(n);
  }

  lemma LevelsMembership(x: int)
    ensures x in LEVELS <==> IsLevel(x)
  {
  }

  /** A text without commas is a single part. */
  lemma TextOfOnePart(part: string)
    requires ',' !in part
    ensures TextLevels(part) == PartLevels(part)
  {
    SplitOfPlain(part, ',');
    var rs := PartResults([part]);
    assert TextLevels(part) == Union(rs);
    assert rs[..0] == [];
    assert Union(rs[..0]) == Success({});
    assert rs[0] == PartLevels(part);
    if PartLevels(part).Success? {
      assert {} + PartLevels(part).value == PartLevels(part).value;
    }
  }

  lemma ExpandOfText(spec: string, u: set<int>)
    requires TextLevels(spec) == Success(u)
    ensures ExpandSpec(PyStr(spec)) == Success(Some(AsList(u * LEVELS)))
  {
  }

  /** A text spec that is one plain number gives that level, or nothing when
      the number is not a level. */
  lemma ExpandOfNumber(n: nat)
    ensures ExpandSpec(PyStr(Decimal(n))) == Success(Some(if n in LEVELS then [n] else []))
  {
    DecimalHasNoComma(n);
    TextOfOnePart(Decimal(n));
    PartOfNumber(n);
    ExpandOfText(Decimal(n), {n});
    SingletonLevels(n);
  }

  lemma SingletonLevels(n: int)
    ensures AsList({n} * LEVELS) == if n in LEVELS then [n] else []
  {
    var xs: seq<int> := if n in LEVELS then [n] else [];
    forall x
      ensures x in {n} * LEVELS <==> x in xs
    {
      LevelsMembership(x);
    }
    AsListOfAscending(xs, {n} * LEVELS);
  }

  /** A text spec "a-b" gives the levels from a to b, b clamped to 30 first. */
  lemma ExpandOfRange(a: nat, b: nat)
    ensures ExpandSpec(PyStr(Decimal(a) + "-" + Decimal(b))) ==
            Success(Some(AsList(Range(a, if b > MAX_UPPER then MAX_UPPER else b) * LEVELS)))
  {
    DecimalHasNoComma(a);
    DecimalHasNoComma(b);
    var spec := Decimal(a) + "-" + Decimal(b);
    assert ',' !in spec;
    TextOfOnePart(spec);
    PartOfRange(a, b);
    ExpandOfText(spec, Range(a, if b > MAX_UPPER then MAX_UPPER else b));
  }

  /** The upper bound is clamped, so "25-40" and any range from 24..30 to 30 or
      beyond give only level 30. */
  lemma ExpandOfClampedRange(a: nat, b: nat)
    requires 24 <= a <= MAX_UPPER <= b
    ensures ExpandSpec(PyStr(Decimal(a) + "-" + Decimal(b))) == Success(Some([30]))
  {
    ExpandOfRange(a, b);
    TopRangeLevels(a);
  }

  lemma TopRangeLevels(a: int)
    requires 24 <= a <= MAX_UPPER
    ensures AsList(Range(a, MAX_UPPER) * LEVELS) == [30]
  {
    forall x
      ensures x in Range(a, MAX_UPPER) * LEVELS <==> x in [30]
    {
      LevelsMembership(x);
    }
    AsListOfAscending([30], Range(a, MAX_UPPER) * LEVELS);
  }

  /** The wildcard text itself, loglevels' default, gives every level. */
  lemma ExpandOfWildcard()
    ensures ExpandSpec(PyStr(WILDCARD)) == Success(Some(AsList(LEVELS)))
  {
    assert WILDCARD == ['*'];
    assert Partition(WILDCARD, '-') == (WILDCARD, "");
    ExpandOfStar(WILDCARD);
  }

  /** A single part whose lower half strips to "*" ("*", " * ", "*-5") gives
      every level, whatever follows the dash. */
  lemma ExpandOfStar(spec: string)
    requires ',' !in spec && Strip(Partition(spec, '-').0) == WILDCARD
    ensures ExpandSpec(PyStr(spec)) == Success(Some(AsList(LEVELS)))
  {
    TextOfOnePart(spec);
    PartOfStar(spec);
    ExpandOfText(spec, LEVELS);
    AllLevelsMeet();
  }

  lemma AllLevelsMeet()
    ensures AsList(LEVELS * LEVELS) == AsList(LEVELS)
  {
    assert LEVELS * LEVELS == LEVELS;
  }

  /** All levels in ascending order. */
  lemma AllLevels()
    ensures AsList(LEVELS) == [0, 1, 2, 3, 4, 5, 6, 7, 8, 9, 10, 11, 12, 20, 21, 22, 23, 30]
  {
    var all := [0, 1, 2, 3, 4, 5, 6, 7, 8, 9, 10, 11, 12, 20, 21, 22, 23, 30];
    forall x
      ensures x in LEVELS <==> x in all
    {
      LevelsMembership(x);
    }
    AsListOfAscending(all, LEVELS);
  }

  lemma ListLevelsOfInts(xs: seq<int>)
    requires forall k :: 0 <= k < |xs| ==> xs[k] in LEVELS
    ensures FirstUnhashable(Ints(xs)).None?
    ensures forall x :: x in ListLevels(Ints(xs)) <==> x in xs
  {
    var items := Ints(xs);
    forall x
      ensures x in ListLevels(items) <==> x in xs
    {
      if x in xs {
        var k :| 0 <= k < |xs| && xs[k] == x;
        assert items[k] in items && EqualsInt(items[k], x);
      }
      if x in ListLevels(items) {
        var e :| e in items && EqualsInt(e, x);
        var k :| 0 <= k < |items| && items[k] == e;
        assert xs[k] == x;
      }
    }
  }

  /** Expanding a list _expand produced gives the same list back. The client
      stores expanded lists and re-expands them whenever a RunArgs is built
      from a dump, so this is what keeps dump / construct stable. */
  lemma ReExpand(l: Value)
    requires ExpandSpec(l).Success? && ExpandSpec(l).value.Some?
    ensures ExpandSpec(PyList(Ints(ExpandSpec(l).value.value))) == ExpandSpec(l)
  {
    var xs := ExpandSpec(l).value.value;
    ExpandWithinLevels(l);
    ExpandOfInts(xs);
  }

  /** An ascending list of levels expands to itself. */
  lemma ExpandOfInts(xs: seq<int>)
    requires forall i, j :: 0 <= i < j < |xs| ==> xs[i] < xs[j]
    requires forall k :: 0 <= k < |xs| ==> xs[k] in LEVELS
    ensures ExpandSpec(PyList(Ints(xs))) == Success(Some(xs))
  {
    ListLevelsOfInts(xs);
    AsListOfAscending(xs, ListLevels(Ints(xs)));
  }

  /** ",".join(str(x) for x in xs) */
  function PrintLevels(xs: seq<nat>): string {
    Join(Decimals(xs), ',')
  }

  function Decimals(xs: seq<nat>): (ds: seq<string>)
    ensures |ds| == |xs| && forall k :: 0 <= k < |xs| ==> ds[k] == Decimal(xs[k])
  {
    seq(|xs|, k requires 0 <= k < |xs| => Decimal(xs[k]))
  }

  function Naturals(xs: seq<nat>): set<int> {
    set k | 0 <= k < |xs| :: xs[k] as int
  }

  lemma {:induction false} UnionOfSingletons(rs: seq<Result<set<int>, PyError>>, xs: seq<nat>)
    requires |rs| == |xs| && forall k :: 0 <= k < |xs| ==> rs[k] == Success({xs[k] as int})
    ensures Union(rs) == Success(Naturals(xs))
    decreases |rs|
  {
    if |rs| > 0 {
      var n := |rs|;
      UnionOfSingletons(rs[..n - 1], xs[..n - 1]);
      assert Union(rs) == Success(Naturals(xs[..n - 1]) + {xs[n - 1] as int});
      forall x
        ensures x in Naturals(xs) <==> x in Naturals(xs[..n - 1]) + {xs[n - 1] as int}
      {
        if x in Naturals(xs) {
          var k :| 0 <= k < |xs| && xs[k] as int == x;
          if k < n - 1 {
            assert xs[..n - 1][k] == xs[k];
          }
        }
        if x in Naturals(xs[..n - 1]) {
          var k :| 0 <= k < n - 1 && xs[..n - 1][k] as int == x;
          assert xs[k] as int == x;
        }
        if x == xs[n - 1] as int {
          assert 0 <= n - 1 < |xs| && xs[n - 1] as int == x;
        }
      }
      assert Naturals(xs) == Naturals(xs[..n - 1]) + {xs[n - 1] as int};
    } else {
      assert Naturals(xs) == {};
    }
  }

  /** The printed form of a non-empty ascending level list parses back to it. */
  lemma PrintedRoundTrip(xs: seq<nat>)
    requires |xs| > 0
    requires forall i, j :: 0 <= i < j < |xs| ==> xs[i] < xs[j]
    requires forall k :: 0 <= k < |xs| ==> xs[k] in LEVELS
    ensures ExpandSpec(PyStr(PrintLevels(xs))) == Success(Some(seq(|xs|, k requires 0 <= k < |xs| => xs[k] as int)))
  {
    var parts := Decimals(xs);
    var rs := PartResults(parts);
    forall k | 0 <= k < |parts|
      ensures ',' !in parts[k] && rs[k] == Success({xs[k] as int})
    {
      DecimalHasNoComma(xs[k]);
      PartOfNumber(xs[k]);
    }
    SplitJoin(parts, ',');
    UnionOfSingletons(rs, xs);
    ExpandOfText(PrintLevels(xs), Naturals(xs));
    NaturalsAsList(xs);
  }

  lemma NaturalsAsList(xs: seq<nat>)
    requires forall i, j :: 0 <= i < j < |xs| ==> xs[i] < xs[j]
    requires forall k :: 0 <= k < |xs| ==> xs[k] in LEVELS
    ensures AsList(Naturals(xs) * LEVELS) == seq(|xs|, k requires 0 <= k < |xs| => xs[k] as int)
  {
    var ys := seq(|xs|, k requires 0 <= k < |xs| => xs[k] as int);
    forall y
      ensures y in Naturals(xs) * LEVELS <==> y in ys
    {
      if y in ys {
        var k :| 0 <= k < |ys| && ys[k] == y;
        assert xs[k] as int == y && xs[k] in LEVELS;
      }
      if y in Naturals(xs) {
        var k :| 0 <= k < |xs| && xs[k] as int == y;
        assert ys[k] == y;
      }
    }
    AsListOfAscending(ys, Naturals(xs) * LEVELS);
  }
}
