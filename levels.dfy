/**
 * RunArgs._expand (client/acclient.py): the log-level spec parser. A spec is
 * None, a list of levels, or a text such as "1,3,6-9", "*" or "25-40"; the
 * result is a list of distinct levels drawn from LEVELS, or None.
 */
module Levels {
  import opened Wrappers
  import opened Text
  import opened Python

  /** Membership in LEVELS = range(13) + range(20, 24) + [30]. */
  predicate IsLevel(x: int) {
    0 <= x < 13 || 20 <= x < 24 || x == 30
  }

  const LEVELS: set<int> := set x | 0 <= x <= 30 && IsLevel(x)

  /** The part that stands for every level. */
  const WILDCARD: string := "*"

  /** The upper bound of a range is clamped to this before the range is added. */
  const MAX_UPPER: int := 30

  /** The members of s inside [lo, hi), ascending. */
  function Ascending(s: set<int>, lo: int, hi: int): (r: seq<int>)
    ensures forall x :: x in r <==> x in s && lo <= x < hi
    ensures forall i, j :: 0 <= i < j < |r| ==> r[i] < r[j]
    decreases hi - lo
  {
    if lo >= hi then []
    else
      var rest := Ascending(s, lo + 1, hi);
      assert forall j :: 0 <= j < |rest| ==> rest[j] in rest;
      assert forall j :: 0 <= j < |rest| ==> lo < rest[j];
      (if lo in s then [lo] else []) + rest
  }

  /** Python's range(low, high + 1) as a set. */
  function Range(low: int, high: int): (r: set<int>)
    ensures forall k :: k in r <==> low <= k <= high
    decreases high - low
  {
    if low > high then {} else {low} + Range(low + 1, high)
  }

  /** list(s) for a set of levels. CPython lists a set in its hash-table
      order, which is not always ascending ({4, 12} lists as [12, 4]); this
      model takes it ascending, and the round-trip lemmas hold in that order. */
  function AsList(s: set<int>): seq<int> {
    Ascending(s, 0, MAX_UPPER + 1)
  }

  /** Python's [int(x) for x in xs] as values. */
  function Ints(xs: seq<int>): (vs: seq<Value>)
    ensures |vs| == |xs| && forall k :: 0 <= k < |xs| ==> vs[k] == PyInt(xs[k])
  {
    seq(|xs|, k requires 0 <= k < |xs| => PyInt(xs[k]))
  }

  /** Python's set(l) raises TypeError on the first list or dict element. */
  function FirstUnhashable(items: seq<Value>): (r: Option<Value>)
    ensures r.Some? ==> r.value in items && (r.value.PyList? || r.value.PyDict?)
    ensures r.None? ==> forall k :: 0 <= k < |items| ==> !items[k].PyList? && !items[k].PyDict?
  {
    if |items| == 0 then None
    else if items[0].PyList? || items[0].PyDict? then Some(items[0])
    else FirstUnhashable(items[1..])
  }

  /** v == x in Python for an int x (True == 1, False == 0). */
  predicate EqualsInt(v: Value, x: int) {
    (v.PyInt? && v.i == x) || (v.PyBool? && x == (if v.b then 1 else 0))
  }

  /** set(items).intersection(LEVELS) */
  function ListLevels(items: seq<Value>): set<int> {
    set x | x in LEVELS && exists e :: e in items && EqualsInt(e, x)
  }

  /** The levels one comma-separated part adds, or the AssertionError it raises. */
  function PartLevels(part: string): Result<set<int>, PyError> {
    var (lo, up) := Partition(part, '-');
    var lower := Strip(lo);
    var upper := Strip(up);
    if lower == WILDCARD then Success(LEVELS)
    else if !IsDigits(lower) then Failure(AssertionError("Value " + lower + " is not digit"))
    else if upper != "" then
      if !IsDigits(upper) then Failure(AssertionError("Upper bound " + upper + " is not digit"))
      else
        var low := DigitsValue(lower);
        var high := if DigitsValue(upper) > MAX_UPPER then MAX_UPPER else DigitsValue(upper);
        Success(Range(low, high))
    else Success({DigitsValue(lower)})
  }

  /** Each comma part's outcome, in order. */
  function PartResults(parts: seq<string>): (rs: seq<Result<set<int>, PyError>>)
    ensures |rs| == |parts|
    ensures forall k :: 0 <= k < |parts| ==> rs[k] == PartLevels(parts[k])
  {
    seq(|parts|, k requires 0 <= k < |parts| => PartLevels(parts[k]))
  }

  /** The union of the parts' levels, or the error of the first part that fails. */
  function Union(rs: seq<Result<set<int>, PyError>>): Result<set<int>, PyError>
    decreases |rs|
  {
    if |rs| == 0 then Success({})
    else
      match Union(rs[..|rs| - 1])
      case Failure(e) => Failure(e)
      case Success(acc) =>
        match rs[|rs| - 1]
        case Failure(e) => Failure(e)
        case Success(more) => Success(acc + more)
  }

  function PartsLevels(parts: seq<string>): Result<set<int>, PyError> {
    Union(PartResults(parts))
  }

  /** The accumulated set for a text spec, before the final intersection. */
  function TextLevels(spec: string): Result<set<int>, PyError> {
    PartsLevels(Split(spec, ','))
  }

  /** What _expand returns (Success(None) is Python's None) or raises. */
  function ExpandSpec(l: Value): Result<Option<seq<int>>, PyError> {
    match l
    case PyNone => Success(None)
    case PyList(items) =>
      (match FirstUnhashable(items)
       case Some(e) => Failure(TypeError(if e.PyList? then "unhashable type: 'list'" else "unhashable type: 'dict'"))
       case None => Success(Some(AsList(ListLevels(items)))))
    case PyStr(spec) =>
      (match TextLevels(spec)
       case Failure(e) => Failure(e)
       case Success(levels) => Success(Some(AsList(levels * LEVELS))))
    case _ => Success(None)
  }

  lemma {:induction false} UnionPrefixFailure(rs: seq<Result<set<int>, PyError>>, k: nat)
    requires k <= |rs|
    requires Union(rs[..k]).Failure?
    ensures Union(rs) == Union(rs[..k])
    decreases |rs| - k
  {
    if k < |rs| {
      var n := |rs|;
      assert rs[..n][..n - 1] == rs[..n - 1];
      assert rs[..n] == rs;
      if k < n - 1 {
        assert rs[..n - 1][..k] == rs[..k];
        UnionPrefixFailure(rs[..n - 1], k);
      } else {
        assert rs[..k] == rs[..n - 1];
      }
    } else {
      assert rs[..k] == rs;
    }
  }

  lemma UnionStep(rs: seq<Result<set<int>, PyError>>, i: nat, acc: set<int>)
    requires i < |rs| && Union(rs[..i]) == Success(acc)
    ensures rs[i].Failure? ==> Union(rs[..i + 1]) == Failure(rs[i].error)
    ensures rs[i].Success? ==> Union(rs[..i + 1]) == Success(acc + rs[i].value)
  {
    assert rs[..i + 1][..i] == rs[..i];
  }

  /** The body of _expand's loop for one comma part: partition at the first '-',
      strip both halves, then '*', a range (upper bound clamped to 30) or a
      single level. This is the statement form of the loop body; its result is
      PartLevels, the specification function the lemmas are about. */
  method ExpandPart(part: string) returns (r: Result<set<int>, PyError>)
    ensures r == PartLevels(part)
  {
    var (lo, up) := Partition(part, '-');
    var lower := Strip(lo);
    var upper := Strip(up);
    if lower == WILDCARD {
      return Success(LEVELS);
    }
    if !IsDigits(lower) {
      return Failure(AssertionError("Value " + lower + " is not digit"));
    }
    var low := DigitsValue(lower);
    if upper != "" {
      if !IsDigits(upper) {
        return Failure(AssertionError("Upper bound " + upper + " is not digit"));
      }
      var high := DigitsValue(upper);
      if high > MAX_UPPER {
        high := MAX_UPPER;
      }
      return Success(Range(low, high));
    }
    return Success({low});
  }

  /** _expand's loop over the comma parts: accumulates a set, stopping at the
      first part that raises. */
  method ExpandParts(parts: seq<string>) returns (r: Result<set<int>, PyError>)
    ensures r == PartsLevels(parts)
  {
    ghost var rs := PartResults(parts);
    var levels: set<int> := {};
    for i := 0 to |parts|
      invariant Union(rs[..i]) == Success(levels)
    {
      UnionStep(rs, i, levels);
      var more := ExpandPart(parts[i]);
      if more.Failure? {
        UnionPrefixFailure(rs, i + 1);
        assert rs[..|rs|] == rs;
        return Failure(more.error);
      }
      levels := levels + more.value;
    }
    assert rs[..|rs|] == rs;
    r := Success(levels);
  }

  /** The text branch of _expand: the parts' levels intersected with LEVELS. */
  method ExpandText(spec: string) returns (r: Result<Option<seq<int>>, PyError>)
    ensures r == ExpandSpec(PyStr(spec))
  {
    var levels := ExpandParts(Split(spec, ','));
    if levels.Failure? {
      return Failure(levels.error);
    }
    r := Success(Some(AsList(levels.value * LEVELS)));
  }

  /** _expand: None gives None, a list is intersected with LEVELS, a text is
      parsed; any other value gives None. */
  method Expand(l: Value) returns (r: Result<Option<seq<int>>, PyError>)
    ensures r == ExpandSpec(l)
  {
    match l {
      case PyStr(spec) =>
        r := ExpandText(spec);
      case PyList(items) =>
        var bad := FirstUnhashable(items);
        if bad.Some? {
          r := Failure(TypeError(if bad.value.PyList? then "unhashable type: 'list'" else "unhashable type: 'dict'"));
        } else {
          r := Success(Some(AsList(ListLevels(items))));
        }
      case _ =>
        r := Success(None);
    }
  }
}
