/**
 * RunArgs (client/acclient.py): the run options of a command. A RunArgs is
 * built once by its constructor, read through getters, turned into a dict by
 * dump(), and merged by update(), which builds a fresh RunArgs from the
 * merged dump.
 */
module RunArguments {
  import opened Wrappers
  import opened Python
  import opened Levels

  /** The stored fields. The three level fields hold what _expand returned
      (None is Python's None); the others hold the constructor argument. */
  datatype RunArgs = RunArgs(
    domain: Value,
    name: Value,
    maxTime: Value,
    maxRestart: Value,
    recurringPeriod: Value,
    statsInterval: Value,
    args: Value,
    loglevels: Option<seq<int>>,
    loglevelsDb: Option<seq<int>>,
    loglevelsAc: Option<seq<int>>)

  /** The ten constructor keywords. */
  datatype Field =
    | Domain | Name | MaxTime | MaxRestart | RecurringPeriod | StatsInterval | Args
    | Loglevels | LoglevelsDb | LoglevelsAc
  {
    /** The three fields that go through _expand. */
    predicate IsLevel() {
      Loglevels? || LoglevelsDb? || LoglevelsAc?
    }
  }

  /** The order in which dump() visits the fields. */
  const ORDER: seq<Field> := [Domain, Name, MaxTime, MaxRestart, RecurringPeriod, StatsInterval, Args,
                              Loglevels, LoglevelsDb, LoglevelsAc]

  /** The Python name of a field: the keyword and the dump key. */
  function Key(f: Field): string {
    match f
    case Domain => "domain"
    case Name => "name"
    case MaxTime => "max_time"
    case MaxRestart => "max_restart"
    case RecurringPeriod => "recurring_period"
    case StatsInterval => "stats_interval"
    case Args => "args"
    case Loglevels => "loglevels"
    case LoglevelsDb => "loglevels_db"
    case LoglevelsAc => "loglevels_ac"
  }

  lemma KeyInjective(f: Field, g: Field)
    ensures Key(f) == Key(g) ==> f == g
  {
    if Key(f) == Key(g) {
      assert |Key(f)| == |Key(g)|;
      if |Key(f)| == 4 {
        assert Key(f)[0] == Key(g)[0];
      } else if |Key(f)| == 12 {
        assert Key(f)[10] == Key(g)[10];
      }
    }
  }

  /** A keyword the constructor accepts. */
  predicate IsKey(k: string) {
    exists f: Field :: Key(f) == k
  }

  /** The field a known keyword names. */
  function FieldOf(k: string): (f: Field)
    requires IsKey(k)
    ensures Key(f) == k
  {
    if k == "domain" then Domain
    else if k == "name" then Name
    else if k == "max_time" then MaxTime
    else if k == "max_restart" then MaxRestart
    else if k == "recurring_period" then RecurringPeriod
    else if k == "stats_interval" then StatsInterval
    else if k == "args" then Args
    else if k == "loglevels" then Loglevels
    else if k == "loglevels_db" then LoglevelsDb
    else LoglevelsAc
  }

  lemma FieldOfKey(f: Field)
    ensures FieldOf(Key(f)) == f
  {
    KeyInjective(f, FieldOf(Key(f)));
  }

  /** The constructor's default for each keyword. */
  function Default(f: Field): Value {
    match f
    case MaxTime | MaxRestart | RecurringPeriod | StatsInterval => PyInt(0)
    case Loglevels => PyStr(WILDCARD)
    case _ => PyNone
  }

  /** kwargs.get(name, default) */
  function Lookup(kw: map<string, Value>, f: Field): Value {
    if Key(f) in kw then kw[Key(f)] else Default(f)
  }

  /** The stored value of a field that is not a level field. */
  function Raw(r: RunArgs, f: Field): Value
    requires !f.IsLevel()
  {
    match f
    case Domain => r.domain
    case Name => r.name
    case MaxTime => r.maxTime
    case MaxRestart => r.maxRestart
    case RecurringPeriod => r.recurringPeriod
    case StatsInterval => r.statsInterval
    case Args => r.args
  }

  /** The stored expansion of a level field. */
  function RawLevels(r: RunArgs, f: Field): Option<seq<int>>
    requires f.IsLevel()
  {
    match f
    case Loglevels => r.loglevels
    case LoglevelsDb => r.loglevelsDb
    case LoglevelsAc => r.loglevelsAc
  }

  /** The level getters: `self._loglevels or []`. */
  function LevelList(l: Option<seq<int>>): (xs: seq<int>)
    ensures l.None? ==> xs == []
    ensures l.Some? ==> xs == l.value
  {
    match l
    case None => []
    case Some(ys) => ys
  }

  /** The getter of a field: the plain getters return the stored value, except
      `args`, which gives [] when the stored value is falsy; the level getters
      give the list, [] when None. */
  function Attr(r: RunArgs, f: Field): (v: Value)
    ensures !f.IsLevel() && !f.Args? ==> v == Raw(r, f)
    ensures f.Args? ==> v == (if Truthy(r.args) then r.args else PyList([]))
    ensures f.IsLevel() ==> v == PyList(Ints(LevelList(RawLevels(r, f))))
  {
    if f.Args? then (if Truthy(r.args) then r.args else PyList([]))
    else if f.IsLevel() then PyList(Ints(LevelList(RawLevels(r, f))))
    else Raw(r, f)
  }

  /** A RunArgs as its constructor leaves it: each level field is None or an
      ascending list of distinct members of LEVELS. */
  predicate ValidLevels(l: Option<seq<int>>) {
    l.Some? ==> (forall i, j :: 0 <= i < j < |l.value| ==> l.value[i] < l.value[j]) &&
                (forall k :: 0 <= k < |l.value| ==> l.value[k] in LEVELS)
  }

  predicate Valid(r: RunArgs) {
    ValidLevels(r.loglevels) && ValidLevels(r.loglevelsDb) && ValidLevels(r.loglevelsAc)
  }

  /** The dict dump() builds after visiting the fields fs in order. */
  function DumpOf(r: RunArgs, fs: seq<Field>): map<string, Value>
    decreases |fs|
  {
    if |fs| == 0 then map[]
    else
      var f := fs[|fs| - 1];
      var d := DumpOf(r, fs[..|fs| - 1]);
      if Truthy(Attr(r, f)) then d[Key(f) := Attr(r, f)] else d
  }

  /** What dump() returns. */
  function DumpSpec(r: RunArgs): map<string, Value> {
    DumpOf(r, ORDER)
  }

  /** dump(): visits the ten names in order and keeps each truthy value. */
  method Dump(r: RunArgs) returns (d: map<string, Value>)
    ensures d == DumpSpec(r)
  {
    d := map[];
    for i := 0 to |ORDER|
      invariant d == DumpOf(r, ORDER[..i])
    {
      assert ORDER[..i + 1][..i] == ORDER[..i];
      var f := ORDER[i];
      var value := Attr(r, f);
      if Truthy(value) {
        d := d[Key(f) := value];
      }
    }
    assert ORDER[..|ORDER|] == ORDER;
  }

  /** RunArgs(**kw): TypeError for a keyword that is not a field (checked by the
      call, before the body runs); otherwise the plain fields take kw's value or
      the default, and the three level fields are expanded in order, the first
      expansion that raises aborting the construction. */
  function ConstructSpec(kw: map<string, Value>): Result<RunArgs, PyError> {
    if !(forall k :: k in kw ==> IsKey(k)) then
      Failure(TypeError("__init__() got an unexpected keyword argument"))
    else
      var ll :- ExpandSpec(Lookup(kw, Loglevels));
      var db :- ExpandSpec(Lookup(kw, LoglevelsDb));
      var ac :- ExpandSpec(Lookup(kw, LoglevelsAc));
      Success(RunArgs(Lookup(kw, Domain), Lookup(kw, Name), Lookup(kw, MaxTime),
                      Lookup(kw, MaxRestart), Lookup(kw, RecurringPeriod),
                      Lookup(kw, StatsInterval), Lookup(kw, Args), ll, db, ac))
  }

  /** RunArgs.__init__ */
  method New(kw: map<string, Value>) returns (r: Result<RunArgs, PyError>)
    ensures r == ConstructSpec(kw)
  {
    if !(forall k :: k in kw ==> IsKey(k)) {
      return Failure(TypeError("__init__() got an unexpected keyword argument"));
    }
    var ll := Expand(Lookup(kw, Loglevels));
    if ll.Failure? {
      return Failure(ll.error);
    }
    var db := Expand(Lookup(kw, LoglevelsDb));
    if db.Failure? {
      return Failure(db.error);
    }
    var ac := Expand(Lookup(kw, LoglevelsAc));
    if ac.Failure? {
      return Failure(ac.error);
    }
    r := Success(RunArgs(Lookup(kw, Domain), Lookup(kw, Name), Lookup(kw, MaxTime),
                         Lookup(kw, MaxRestart), Lookup(kw, RecurringPeriod),
                         Lookup(kw, StatsInterval), Lookup(kw, Args),
                         ll.value, db.value, ac.value));
  }

  /** A Python object handed to update() or to Cmd(): a RunArgs instance or
      any other value (isinstance(x, RunArgs) is RunArgsObject?). */
  datatype Object = RunArgsObject(other: RunArgs) | PlainObject(v: Value)

  /** The keywords update() builds the new RunArgs from: the dump of self
      updated with the overlay's data, or the ValueError for an overlay that is
      neither a RunArgs, a dict nor None. */
  function Merged(r: RunArgs, overlay: Object): Result<map<string, Value>, PyError> {
    match overlay
    case RunArgsObject(o) => Success(DumpSpec(r) + DumpSpec(o))
    case PlainObject(PyDict(m)) => Success(DumpSpec(r) + m)
    case PlainObject(PyNone) => Success(DumpSpec(r) + map[])
    case PlainObject(_) => Failure(ValueError("Expecting RunArgs or dict"))
  }

  /** What update() returns or raises. */
  function UpdateSpec(r: RunArgs, overlay: Object): Result<RunArgs, PyError> {
    var kw :- Merged(r, overlay);
    ConstructSpec(kw)
  }

  /** update(): dumps self, picks the overlay's data, merges it into the dump
      in place (dict.update: the overlay wins) and builds a fresh RunArgs. */
  method Update(r: RunArgs, overlay: Object) returns (res: Result<RunArgs, PyError>)
    ensures res == UpdateSpec(r, overlay)
  {
    var base := Dump(r);
    var data: map<string, Value>;
    match overlay {
      case RunArgsObject(o) =>
        data := Dump(o);
      case PlainObject(v) =>
        if v.PyDict? {
          data := v.entries;
        } else if v.PyNone? {
          data := map[];
        } else {
          return Failure(ValueError("Expecting RunArgs or dict"));
        }
    }
    base := base + data;
    res := New(base);
  }
}
