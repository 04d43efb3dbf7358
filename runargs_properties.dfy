/**
 * Laws of RunArgs (client/acclient.py): what the constructor stores, which
 * fields dump() keeps, and how update() merges a base with an overlay.
 */
module RunArgumentsProperties {
  import opened Wrappers
  import opened Text
  import opened Python
  import opened Levels
  import opened LevelsProperties
  import opened RunArguments

  lemma InOrder(f: Field)
    ensures f in ORDER
  {
    match f
    case Domain => assert ORDER[0] == f;
    case Name => assert ORDER[1] == f;
    case MaxTime => assert ORDER[2] == f;
    case MaxRestart => assert ORDER[3] == f;
    case RecurringPeriod => assert ORDER[4] == f;
    case StatsInterval => assert ORDER[5] == f;
    case Args => assert ORDER[6] == f;
    case Loglevels => assert ORDER[7] == f;
    case LoglevelsDb => assert ORDER[8] == f;
    case LoglevelsAc => assert ORDER[9] == f;
  }

  lemma {:induction false} DumpOfMeaning(r: RunArgs, fs: seq<Field>, f: Field)
    ensures Key(f) in DumpOf(r, fs) <==> f in fs && Truthy(Attr(r, f))
    ensures Key(f) in DumpOf(r, fs) ==> DumpOf(r, fs)[Key(f)] == Attr(r, f)
    decreases |fs|
  {
    if |fs| > 0 {
      var g := fs[|fs| - 1];
      DumpOfMeaning(r, fs[..|fs| - 1], f);
      KeyInjective(f, g);
      assert fs == fs[..|fs| - 1] + [g];
    }
  }

  lemma {:induction false} DumpOfKeys(r: RunArgs, fs: seq<Field>, k: string)
    requires k in DumpOf(r, fs)
    ensures IsKey(k)
    decreases |fs|
  {
    var g := fs[|fs| - 1];
    if k != Key(g) {
      DumpOfKeys(r, fs[..|fs| - 1], k);
    }
  }

  /** dump() holds exactly the truthy fields, each under its own name, and
      nothing else. */
  lemma DumpMeaning(r: RunArgs, f: Field, k: string)
    ensures Key(f) in DumpSpec(r) <==> Truthy(Attr(r, f))
    ensures Key(f) in DumpSpec(r) ==> DumpSpec(r)[Key(f)] == Attr(r, f)
    ensures k in DumpSpec(r) ==> IsKey(k)
  {
    InOrder(f);
    DumpOfMeaning(r, ORDER, f);
    if k in DumpSpec(r) {
      DumpOfKeys(r, ORDER, k);
    }
  }

  /** dump() keeps max_time = -1 (run forever, remembered across reboots) and
      drops max_time = 0. */
  lemma DumpMaxTime(r: RunArgs)
    ensures r.maxTime == PyInt(-1) ==> "max_time" in DumpSpec(r) && DumpSpec(r)["max_time"] == PyInt(-1)
    ensures r.maxTime == PyInt(0) ==> "max_time" !in DumpSpec(r)
  {
    DumpMeaning(r, MaxTime, "max_time");
  }

  /** The value a level field takes when its keyword is absent: all levels
      for loglevels (default '*'), None for the other two (default None). */
  function DefaultLevels(f: Field): Option<seq<int>> {
    if f.Loglevels? then Some(AsList(LEVELS)) else None
  }

  lemma ExpandOfDefault(f: Field)
    requires f.IsLevel()
    ensures ExpandSpec(Default(f)) == Success(DefaultLevels(f))
  {
    if f.Loglevels? {
      ExpandOfWildcard();
    }
  }

  /** A truthy level attribute re-expands to the stored list. */
  lemma ExpandOfAttr(r: RunArgs, f: Field)
    requires Valid(r) && f.IsLevel() && Truthy(Attr(r, f))
    ensures ExpandSpec(Attr(r, f)) == Success(RawLevels(r, f))
  {
    var l := RawLevels(r, f);
    assert ValidLevels(l);
    assert Attr(r, f) == PyList(Ints(LevelList(l)));
    assert l.Some? && LevelList(l) == l.value;
    ExpandOfInts(l.value);
  }

  /** Every construction that succeeds gives a valid RunArgs. */
  lemma ConstructValid(kw: map<string, Value>)
    requires ConstructSpec(kw).Success?
    ensures Valid(ConstructSpec(kw).value)
  {
    ConstructFields(kw);
    ExpandWithinLevels(Lookup(kw, Loglevels));
    ExpandWithinLevels(Lookup(kw, LoglevelsDb));
    ExpandWithinLevels(Lookup(kw, LoglevelsAc));
  }

  /** RunArgs(**kw) with an unknown keyword raises TypeError. */
  lemma ConstructUnknownKeyword(kw: map<string, Value>, k: string)
    requires k in kw && !IsKey(k)
    ensures ConstructSpec(kw).Failure? && ConstructSpec(kw).error.TypeError?
  {
  }

  /** With known keywords, construction succeeds iff the three level specs
      expand; each plain field is then the keyword's value or its default, and
      each level field the expansion of the keyword's value or of its default. */
  lemma ConstructFields(kw: map<string, Value>)
    requires forall k :: k in kw ==> IsKey(k)
    ensures ConstructSpec(kw).Success? <==>
              ExpandSpec(Lookup(kw, Loglevels)).Success? && ExpandSpec(Lookup(kw, LoglevelsDb)).Success? &&
              ExpandSpec(Lookup(kw, LoglevelsAc)).Success?
    ensures ConstructSpec(kw).Success? ==>
              (forall f: Field :: !f.IsLevel() ==> Raw(ConstructSpec(kw).value, f) == Lookup(kw, f)) &&
              (forall f: Field :: f.IsLevel() ==> RawLevels(ConstructSpec(kw).value, f) == ExpandSpec(Lookup(kw, f)).value)
  {
  }

  /** The first truthy of an overlay value and a base value, else the default:
      what `base.update(overlay)` followed by the constructor gives a field. */
  function Pick(over: Value, base: Value, default: Value): Value {
    if Truthy(over) then over else if Truthy(base) then base else default
  }

  function PickLevels(over: Option<seq<int>>, base: Option<seq<int>>, default: Option<seq<int>>): Option<seq<int>> {
    if LevelList(over) != [] then over else if LevelList(base) != [] then base else default
  }

  /** A key of two merged dumps: the overlay's value if it has one, else the
      base's, else the constructor default. */
  lemma LookupMerge(r: RunArgs, o: RunArgs, f: Field)
    ensures Lookup(DumpSpec(r) + DumpSpec(o), f) == Pick(Attr(o, f), Attr(r, f), Default(f))
  {
    DumpMeaning(r, f, Key(f));
    DumpMeaning(o, f, Key(f));
  }

  lemma ExpandOfPick(r: RunArgs, o: RunArgs, f: Field)
    requires Valid(r) && Valid(o) && f.IsLevel()
    ensures ExpandSpec(Pick(Attr(o, f), Attr(r, f), Default(f))) ==
            Success(PickLevels(RawLevels(o, f), RawLevels(r, f), DefaultLevels(f)))
  {
    if Truthy(Attr(o, f)) {
      ExpandOfAttr(o, f);
    } else if Truthy(Attr(r, f)) {
      ExpandOfAttr(r, f);
    } else {
      ExpandOfDefault(f);
    }
  }

  lemma MergedKeys(r: RunArgs, data: map<string, Value>)
    requires forall k :: k in data ==> IsKey(k)
    ensures forall k :: k in DumpSpec(r) + data ==> IsKey(k)
  {
    forall k | k in DumpSpec(r)
      ensures IsKey(k)
    {
      DumpMeaning(r, Domain, k);
    }
  }

  /** update(o) for a RunArgs o: a field takes o's value when that is truthy,
      else the base's value when that is truthy, else the constructor default;
      falsy overlay fields never override. */
  lemma UpdateWithRunArgs(r: RunArgs, o: RunArgs)
    requires Valid(r) && Valid(o)
    ensures UpdateSpec(r, RunArgsObject(o)).Success?
    ensures forall f: Field :: !f.IsLevel() ==>
              Raw(UpdateSpec(r, RunArgsObject(o)).value, f) == Pick(Attr(o, f), Attr(r, f), Default(f))
    ensures forall f: Field :: f.IsLevel() ==>
              RawLevels(UpdateSpec(r, RunArgsObject(o)).value, f) ==
              PickLevels(RawLevels(o, f), RawLevels(r, f), DefaultLevels(f))
  {
    var kw := DumpSpec(r) + DumpSpec(o);
    assert Merged(r, RunArgsObject(o)) == Success(kw);
    UpdateIsConstruct(r, RunArgsObject(o));
    forall k | k in DumpSpec(o)
      ensures IsKey(k)
    {
      DumpMeaning(o, Domain, k);
    }
    MergedKeys(r, DumpSpec(o));
    forall f: Field
      ensures Lookup(kw, f) == Pick(Attr(o, f), Attr(r, f), Default(f))
    {
      LookupMerge(r, o, f);
    }
    ExpandOfPick(r, o, Loglevels);
    ExpandOfPick(r, o, LoglevelsDb);
    ExpandOfPick(r, o, LoglevelsAc);
    ConstructFields(kw);
  }

  /** update() with a usable overlay is the constructor applied to the merge. */
  lemma UpdateIsConstruct(r: RunArgs, overlay: Object)
    requires Merged(r, overlay).Success?
    ensures UpdateSpec(r, overlay) == ConstructSpec(Merged(r, overlay).value)
  {
  }

  /** Merging nothing into a dict leaves it as it was. */
  lemma EmptyMerge(d: map<string, Value>)
    ensures d + map[] == d && map[] + d == d
  {
  }

  /** update(None): every truthy field is kept and every falsy one is reset to
      its constructor default, so an empty or missing loglevels becomes all
      levels again. */
  lemma UpdateWithNone(r: RunArgs)
    requires Valid(r)
    ensures UpdateSpec(r, PlainObject(PyNone)).Success?
    ensures forall f: Field :: !f.IsLevel() ==>
              Raw(UpdateSpec(r, PlainObject(PyNone)).value, f) == Pick(Attr(r, f), PyNone, Default(f))
    ensures forall f: Field :: f.IsLevel() ==>
              RawLevels(UpdateSpec(r, PlainObject(PyNone)).value, f) ==
              PickLevels(RawLevels(r, f), None, DefaultLevels(f))
  {
    EmptyMerge(DumpSpec(r));
    assert Merged(r, PlainObject(PyNone)) == Success(DumpSpec(r));
    UpdateIsConstruct(r, PlainObject(PyNone));
    forall k | k in DumpSpec(r)
      ensures IsKey(k)
    {
      DumpMeaning(r, Domain, k);
    }
    forall f: Field
      ensures Lookup(DumpSpec(r), f) == Pick(Attr(r, f), PyNone, Default(f))
    {
      DumpMeaning(r, f, Key(f));
    }
    forall f: Field | f.IsLevel()
      ensures ExpandSpec(Lookup(DumpSpec(r), f)) == Success(PickLevels(RawLevels(r, f), None, DefaultLevels(f)))
    {
      ExpandOfDump(r, f);
    }
    ConstructFields(DumpSpec(r));
  }

  /** A level field read back from the dump expands to the stored levels when
      they are not empty, and to the default otherwise. */
  lemma ExpandOfDump(r: RunArgs, f: Field)
    requires Valid(r) && f.IsLevel()
    ensures ExpandSpec(Lookup(DumpSpec(r), f)) == Success(PickLevels(RawLevels(r, f), None, DefaultLevels(f)))
  {
    DumpMeaning(r, f, Key(f));
    if Truthy(Attr(r, f)) {
      ExpandOfAttr(r, f);
    } else {
      ExpandOfDefault(f);
    }
  }

  /** A level field read back from a dump of a valid RunArgs expands. */
  lemma DumpedLevelExpands(r: RunArgs, f: Field)
    requires Valid(r) && f.IsLevel()
    ensures ExpandSpec(Lookup(DumpSpec(r), f)).Success?
  {
    DumpMeaning(r, f, Key(f));
    if Truthy(Attr(r, f)) {
      ExpandOfAttr(r, f);
    } else {
      ExpandOfDefault(f);
    }
  }

  /** A level field of a dump merged with d expands when d's own level specs do. */
  lemma MergedLevelsExpand(r: RunArgs, d: map<string, Value>, f: Field)
    requires Valid(r) && f.IsLevel()
    requires Key(f) in d ==> ExpandSpec(d[Key(f)]).Success?
    ensures ExpandSpec(Lookup(DumpSpec(r) + d, f)).Success?
  {
    if Key(f) !in d {
      DumpedLevelExpands(r, f);
      assert Lookup(DumpSpec(r) + d, f) == Lookup(DumpSpec(r), f);
    }
  }

  /** update(d) for a dict d of known keys whose level specs expand: every key
      of d overrides, falsy values included. */
  lemma UpdateWithDict(r: RunArgs, d: map<string, Value>)
    requires Valid(r)
    requires forall k :: k in d ==> IsKey(k)
    requires forall f: Field :: f.IsLevel() && Key(f) in d ==> ExpandSpec(d[Key(f)]).Success?
    ensures UpdateSpec(r, PlainObject(PyDict(d))).Success?
    ensures forall f: Field :: !f.IsLevel() && Key(f) in d ==> Raw(UpdateSpec(r, PlainObject(PyDict(d))).value, f) == d[Key(f)]
    ensures forall f: Field :: f.IsLevel() && Key(f) in d ==>
              RawLevels(UpdateSpec(r, PlainObject(PyDict(d))).value, f) == ExpandSpec(d[Key(f)]).value
  {
    var kw := DumpSpec(r) + d;
    MergedKeys(r, d);
    MergedLevelsExpand(r, d, Loglevels);
    MergedLevelsExpand(r, d, LoglevelsDb);
    MergedLevelsExpand(r, d, LoglevelsAc);
    assert Merged(r, PlainObject(PyDict(d))) == Success(kw);
    UpdateIsConstruct(r, PlainObject(PyDict(d)));
    ConstructFields(kw);
    var u := UpdateSpec(r, PlainObject(PyDict(d)));
    forall f: Field | !f.IsLevel() && Key(f) in d
      ensures Raw(u.value, f) == d[Key(f)]
    {
      assert Lookup(kw, f) == d[Key(f)];
    }
    forall f: Field | f.IsLevel() && Key(f) in d
      ensures RawLevels(u.value, f) == ExpandSpec(d[Key(f)]).value
    {
      assert Lookup(kw, f) == d[Key(f)];
    }
  }

  /** update(d), the other half: every field d does not name keeps the base's
      truthy value or falls back to its constructor default. */
  lemma UpdateWithDictKeeps(r: RunArgs, d: map<string, Value>)
    requires Valid(r)
    requires forall k :: k in d ==> IsKey(k)
    requires forall f: Field :: f.IsLevel() && Key(f) in d ==> ExpandSpec(d[Key(f)]).Success?
    ensures UpdateSpec(r, PlainObject(PyDict(d))).Success?
    ensures forall f: Field :: !f.IsLevel() && Key(f) !in d ==>
              Raw(UpdateSpec(r, PlainObject(PyDict(d))).value, f) == Pick(Attr(r, f), PyNone, Default(f))
    ensures forall f: Field :: f.IsLevel() && Key(f) !in d ==>
              RawLevels(UpdateSpec(r, PlainObject(PyDict(d))).value, f) ==
              PickLevels(RawLevels(r, f), None, DefaultLevels(f))
  {
    var kw := DumpSpec(r) + d;
    UpdateWithDict(r, d);
    assert Merged(r, PlainObject(PyDict(d))) == Success(kw);
    UpdateIsConstruct(r, PlainObject(PyDict(d)));
    MergedKeys(r, d);
    ConstructFields(kw);
    var u := UpdateSpec(r, PlainObject(PyDict(d)));
    forall f: Field | !f.IsLevel() && Key(f) !in d
      ensures Raw(u.value, f) == Pick(Attr(r, f), PyNone, Default(f))
    {
      DumpMeaning(r, f, Key(f));
      assert Lookup(kw, f) == Lookup(DumpSpec(r), f);
    }
    forall f: Field | f.IsLevel() && Key(f) !in d
      ensures RawLevels(u.value, f) == PickLevels(RawLevels(r, f), None, DefaultLevels(f))
    {
      ExpandOfDump(r, f);
      assert Lookup(kw, f) == Lookup(DumpSpec(r), f);
    }
  }

  /** update(d) with a key that is not a field raises TypeError. */
  lemma UpdateWithUnknownKey(r: RunArgs, d: map<string, Value>, k: string)
    requires k in d && !IsKey(k)
    ensures UpdateSpec(r, PlainObject(PyDict(d))).Failure?
    ensures UpdateSpec(r, PlainObject(PyDict(d))).error.TypeError?
  {
    assert k in DumpSpec(r) + d;
  }

  /** update(x) for anything but a RunArgs, a dict or None raises ValueError. */
  lemma UpdateWithOther(r: RunArgs, v: Value)
    requires !v.PyDict? && !v.PyNone?
    ensures UpdateSpec(r, PlainObject(v)) == Failure(ValueError("Expecting RunArgs or dict"))
  {
  }

  /** update({'max_time': 0}) resets max_time, so the dump no longer has it. */
  lemma UpdateResetsMaxTime(r: RunArgs)
    requires Valid(r)
    ensures UpdateSpec(r, PlainObject(PyDict(map["max_time" := PyInt(0)]))).Success?
    ensures "max_time" !in DumpSpec(UpdateSpec(r, PlainObject(PyDict(map["max_time" := PyInt(0)]))).value)
  {
    var d := map[Key(MaxTime) := PyInt(0)];
    assert forall k :: k in d ==> IsKey(k);
    UpdateWithDict(r, d);
    DumpMaxTime(UpdateSpec(r, PlainObject(PyDict(d))).value);
  }

  /** What RunArgs() stores: every default, loglevels expanded to all levels. */
  function DefaultRunArgs(): RunArgs {
    RunArgs(PyNone, PyNone, PyInt(0), PyInt(0), PyInt(0), PyInt(0), PyNone, Some(AsList(LEVELS)), None, None)
  }

  /** Keywords for plain fields only: the plain fields take the keywords or
      their defaults, and the level fields their defaults. */
  lemma ConstructPlain(kw: map<string, Value>)
    requires forall k :: k in kw ==> IsKey(k)
    requires Key(Loglevels) !in kw && Key(LoglevelsDb) !in kw && Key(LoglevelsAc) !in kw
    ensures ConstructSpec(kw) == Success(DefaultRunArgs().(domain := Lookup(kw, Domain), name := Lookup(kw, Name),
              maxTime := Lookup(kw, MaxTime), maxRestart := Lookup(kw, MaxRestart),
              recurringPeriod := Lookup(kw, RecurringPeriod), statsInterval := Lookup(kw, StatsInterval),
              args := Lookup(kw, Args)))
  {
    ExpandOfDefault(Loglevels);
    ExpandOfDefault(LoglevelsDb);
    ExpandOfDefault(LoglevelsAc);
  }

  /** Keywords among name and args only: the defaults with those two. */
  lemma ConstructNameArgs(kw: map<string, Value>)
    requires forall k :: k in kw ==> k == Key(Name) || k == Key(Args)
    ensures ConstructSpec(kw) == Success(DefaultRunArgs().(name := Lookup(kw, Name), args := Lookup(kw, Args)))
  {
    assert forall k :: k in kw ==> IsKey(k);
    ConstructPlain(kw);
    LookupOutside(kw, Domain);
    LookupOutside(kw, MaxTime);
    LookupOutside(kw, MaxRestart);
    LookupOutside(kw, RecurringPeriod);
    LookupOutside(kw, StatsInterval);
  }

  lemma LookupOutside(kw: map<string, Value>, f: Field)
    requires forall k :: k in kw ==> k == Key(Name) || k == Key(Args)
    requires f != Name && f != Args
    ensures Lookup(kw, f) == Default(f)
  {
    KeyInjective(f, Name);
    KeyInjective(f, Args);
  }

  lemma ConstructDefault()
    ensures ConstructSpec(map[]) == Success(DefaultRunArgs())
  {
    ConstructPlain(map[]);
  }
}
