/**
 * ParseSet of flagcfg.go: every flag the user did not set on the command
 * line takes its value from the decoded TOML table, under the flag's name
 * with '.' and '-' turned into '_'; the value is rendered as text and handed
 * to the flag's own Set, chosen by the dynamic type the flag's Get returns.
 * The first failure is latched and every later flag is skipped.
 */
module FlagCfg {
  import opened Optional
  import opened Decimal
  import opened Search

  /** A byte of the configuration file. */
  type byte = b: int | 0 <= b < 256

  /** The bits of an IEEE-754 double; floating point is not interpreted. */
  type Float64 = bv64

  /**
   * A value of the decoded TOML table: a string, an integer (TOML integers
   * decode to int64), a float, a boolean, a value that implements
   * flag.Value (given by its String()), or anything else (arrays, tables,
   * date-times).
   */
  datatype ConfigValue =
    | Str(s: string)
    | Int(i: int64)
    | Float(f: Float64)
    | Bool(b: bool)
    | Custom(text: string)
    | Other

  /** The branches of ParseSet's type switch on what the flag's Get returns. */
  datatype Kind = KString | KDuration | KFloat | KInt | KUint | KBool | KValue | KOther

  /**
   * The value behind a flag: the standard flag types (a Go int or uint is 64
   * bits wide), or a user-defined flag.Value with its state as text and the
   * branch its Get selects, None when it does not implement flag.Getter.
   */
  datatype FlagValue =
    | StringV(s: string)
    | DurationV(d: int64)
    | Float64V(f: Float64)
    | IntV(i: int64)
    | Int64V(i: int64)
    | UintV(u: uint64)
    | Uint64V(u: uint64)
    | BoolV(b: bool)
    | CustomV(state: string, getter: Option<Kind>)

  /** The branch of the type switch a flag's value selects; None makes the Getter assertion panic. */
  function GetKind(v: FlagValue): Option<Kind> {
    match v
    case StringV(_) => Some(KString)
    case DurationV(_) => Some(KDuration)
    case Float64V(_) => Some(KFloat)
    case IntV(_) => Some(KInt)
    case Int64V(_) => Some(KInt)
    case UintV(_) => Some(KUint)
    case Uint64V(_) => Some(KUint)
    case BoolV(_) => Some(KBool)
    case CustomV(_, g) => g
  }

  /** A registered flag; `setByUser` says whether the command line (or Set) assigned it. */
  datatype Flag = Flag(name: string, value: FlagValue, setByUser: bool)

  /**
   * The result of ParseSet: success, a TOML syntax error, the message
   * `failed to set flag %q with value %q` with its two arguments, or the
   * panic of an unchecked type assertion while visiting the named flag.
   */
  datatype Status = Ok | DecodeError | SetFailed(flag: string, value: ConfigValue) | Panicked(flag: string)

  /**
   * The code the engine calls but that is not part of this model: the TOML
   * decoder (None on a syntax error), strconv.FormatFloat(f, 'G', -1, 64),
   * the parsers behind the float64 and duration flags' Set (the value they
   * store, and whether they succeeded), and the Set of a user-defined flag
   * (its new state, and whether it succeeded).
   */
  datatype Externals = Externals(
    decode: seq<byte> -> Option<map<string, ConfigValue>>,
    formatFloat: Float64 -> string,
    parseFloat: string -> (Float64, bool),
    parseDuration: string -> (int64, bool),
    customSet: (string, string) -> (string, bool))

  // ---------------------------------------------------------------------
  // The configuration key of a flag
  // ---------------------------------------------------------------------

  /** strings.Replace(s, from, to, -1) for one-character patterns. */
  function ReplaceAll(s: string, from: char, to: char): (r: string)
    ensures |r| == |s|
    ensures forall i :: 0 <= i < |s| ==> r[i] == (if s[i] == from then to else s[i])
  {
    seq(|s|, i requires 0 <= i < |s| => if s[i] == from then to else s[i])
  }

  /** The key a flag is looked up under: its name with every '.' and '-' turned into '_'. */
  function ConfigKey(name: string): (key: string)
    ensures |key| == |name|
    ensures forall i :: 0 <= i < |name| ==> key[i] == (if name[i] == '.' || name[i] == '-' then '_' else name[i])
    ensures '.' !in key && '-' !in key
  {
    ReplaceAll(ReplaceAll(name, '.', '_'), '-', '_')
  }

  /**
   * The key is determined character by character: any string that maps each
   * '.' and '-' of the name to '_' and keeps every other character is the key.
   */
  lemma ConfigKeyUnique(name: string, key: string)
    requires |key| == |name|
    requires forall i :: 0 <= i < |name| ==> key[i] == (if name[i] == '.' || name[i] == '-' then '_' else name[i])
    ensures ConfigKey(name) == key
  {
  }

  /** A name without '.' or '-' is its own key, so a key is its own key. */
  lemma ConfigKeyPlain(name: string)
    requires '.' !in name && '-' !in name
    ensures ConfigKey(name) == name
  {
    ConfigKeyUnique(name, name);
  }

  // ---------------------------------------------------------------------
  // One flag
  // ---------------------------------------------------------------------

  /** What a branch of the type switch does with the configured value. */
  datatype Coercion = SetInput(input: string) | Unsupported | AssertionPanic

  /** The configuration value type a branch's type assertion demands. */
  predicate Fits(kind: Kind, val: ConfigValue) {
    match kind
    case KString => val.Str?
    case KDuration => val.Str?
    case KFloat => val.Float?
    case KInt => val.Int?
    case KUint => val.Int?
    case KBool => val.Bool?
    case KValue => val.Custom?
    case KOther => true
  }

  /**
   * The type switch: the text handed to Set, the `default` branch, or the
   * panic of an assertion on a configured value of another type.
   */
  function Coerce(kind: Kind, val: ConfigValue, formatFloat: Float64 -> string): (c: Coercion)
    ensures c.AssertionPanic? <==> !Fits(kind, val)
    ensures c.Unsupported? <==> kind == KOther
    ensures c.SetInput? && (kind == KString || kind == KDuration) ==> c.input == val.s
    ensures c.SetInput? && kind == KBool ==> c.input == "true" || c.input == "false"
    ensures c.SetInput? && kind == KInt ==> ParseInt(c.input) == (val.i, true)
    ensures c.SetInput? && kind == KUint ==> ParseUint(c.input) == (ToUint64(val.i), true)
  {
    match kind
    case KString => if val.Str? then SetInput(val.s) else AssertionPanic
    case KDuration => if val.Str? then SetInput(val.s) else AssertionPanic
    case KFloat => if val.Float? then SetInput(formatFloat(val.f)) else AssertionPanic
    case KInt => if val.Int? then ParseFormatInt(val.i); SetInput(FormatInt(val.i)) else AssertionPanic
    case KUint => if val.Int? then ParseFormatUint(ToUint64(val.i)); SetInput(FormatUint(ToUint64(val.i))) else AssertionPanic
    case KBool => if val.Bool? then SetInput(FormatBool(val.b)) else AssertionPanic
    case KValue => if val.Custom? then SetInput(val.text) else AssertionPanic
    case KOther => Unsupported
  }

  /**
   * A flag's Set: the new value and whether it succeeded.  The standard
   * setters store what their parser returned even when it fails.
   */
  function SetValue(v: FlagValue, input: string, ext: Externals): (r: (FlagValue, bool))
    ensures GetKind(r.0) == GetKind(v)
    ensures v.StringV? ==> r == (StringV(input), true)
  {
    match v
    case StringV(_) => (StringV(input), true)
    case DurationV(_) => var p := ext.parseDuration(input); (DurationV(p.0), p.1)
    case Float64V(_) => var p := ext.parseFloat(input); (Float64V(p.0), p.1)
    case IntV(_) => var p := ParseInt(input); (IntV(p.0), p.1)
    case Int64V(_) => var p := ParseInt(input); (Int64V(p.0), p.1)
    case UintV(_) => var p := ParseUint(input); (UintV(p.0), p.1)
    case Uint64V(_) => var p := ParseUint(input); (Uint64V(p.0), p.1)
    case BoolV(_) => var p := ParseBool(input); (BoolV(p.0), p.1)
    case CustomV(st, g) => var p := ext.customSet(st, input); (CustomV(p.0, g), p.1)
  }

  /** What visiting one flag yields: the flag afterwards, a failure on it, or a panic. */
  datatype Visit = Done(f: Flag) | Failed(f: Flag, value: ConfigValue) | Panic

  /** The body of ParseSet's VisitAll callback for a flag, once no error is latched. */
  function ApplyFlag(f: Flag, explicit: set<string>, values: map<string, ConfigValue>, ext: Externals): (r: Visit)
    ensures !r.Panic? ==> r.f.name == f.name && r.f.setByUser == f.setByUser && GetKind(r.f.value) == GetKind(f.value)
    ensures f.name in explicit || ConfigKey(f.name) !in values ==> r == Done(f)
    ensures r.Failed? ==> ConfigKey(f.name) in values && r.value == values[ConfigKey(f.name)]
    ensures r.Panic? <==>
      f.name !in explicit && ConfigKey(f.name) in values
      && (GetKind(f.value).None? || !Fits(GetKind(f.value).value, values[ConfigKey(f.name)]))
  {
    if f.name in explicit then Done(f)
    else
      var key := ConfigKey(f.name);
      if key !in values then Done(f)
      else
        var val := values[key];
        match GetKind(f.value)
        case None => Panic
        case Some(kind) =>
          match Coerce(kind, val, ext.formatFloat)
          case AssertionPanic => Panic
          case Unsupported => Failed(f, val)
          case SetInput(input) =>
            var p := SetValue(f.value, input, ext);
            var g := f.(value := p.0);
            if p.1 then Done(g) else Failed(g, val)
  }

  /**
   * The value a standard flag is meant to hold once it took a configured
   * value of the type its branch expects; None for the flags whose setters
   * are not part of this model (durations, floats, user-defined values).
   */
  function Configured(v: FlagValue, val: ConfigValue): Option<FlagValue> {
    match (v, val)
    case (StringV(_), Str(s)) => Some(StringV(s))
    case (IntV(_), Int(i)) => Some(IntV(i))
    case (Int64V(_), Int(i)) => Some(Int64V(i))
    case (UintV(_), Int(i)) => Some(UintV(ToUint64(i)))
    case (Uint64V(_), Int(i)) => Some(Uint64V(ToUint64(i)))
    case (BoolV(_), Bool(b)) => Some(BoolV(b))
    case _ => None
  }

  /**
   * A string, integer or boolean flag that is not set by the user and has a
   * key of the right type takes exactly the configured value: the text the
   * switch renders parses back to it, and an unsigned flag holds the int64
   * reinterpreted as 64 unsigned bits.
   */
  lemma ApplyFlagTakesValue(f: Flag, explicit: set<string>, values: map<string, ConfigValue>, ext: Externals)
    requires f.name !in explicit && ConfigKey(f.name) in values
    requires Configured(f.value, values[ConfigKey(f.name)]).Some?
    ensures ApplyFlag(f, explicit, values, ext) == Done(f.(value := Configured(f.value, values[ConfigKey(f.name)]).value))
  {
    SetConfigured(f.value, values[ConfigKey(f.name)], ext);
  }

  /** The switch's rendering of a configured value, handed to Set, yields that value. */
  lemma SetConfigured(v: FlagValue, val: ConfigValue, ext: Externals)
    requires Configured(v, val).Some?
    ensures Coerce(GetKind(v).value, val, ext.formatFloat).SetInput?
    ensures SetValue(v, Coerce(GetKind(v).value, val, ext.formatFloat).input, ext) == (Configured(v, val).value, true)
  {
    match v
    case IntV(_) => ParseFormatInt(val.i);
    case Int64V(_) => ParseFormatInt(val.i);
    case UintV(_) => ParseFormatUint(ToUint64(val.i));
    case Uint64V(_) => ParseFormatUint(ToUint64(val.i));
    case BoolV(_) => ParseFormatBool(val.b);
    case StringV(_) =>
  }

  /** A user-defined value whose Get falls into the `default` branch fails the run and is left as it was. */
  lemma UnsupportedValueFails(f: Flag, explicit: set<string>, values: map<string, ConfigValue>, ext: Externals)
    requires f.name !in explicit && ConfigKey(f.name) in values
    requires GetKind(f.value) == Some(KOther)
    ensures ApplyFlag(f, explicit, values, ext) == Failed(f, values[ConfigKey(f.name)])
  {
  }

  // ---------------------------------------------------------------------
  // The VisitAll loop
  // ---------------------------------------------------------------------

  /** The names of the flags the user set, as set.Visit collects them. */
  function ExplicitNames(flags: seq<Flag>): set<string>
    decreases |flags|
  {
    if flags == [] then {}
    else
      var last := flags[|flags| - 1];
      ExplicitNames(flags[..|flags| - 1]) + (if last.setByUser then {last.name} else {})
  }

  /** A name is collected exactly when some flag of that name was set by the user. */
  lemma {:induction false} ExplicitNamesSpec(flags: seq<Flag>)
    ensures forall name :: name in ExplicitNames(flags) <==> exists j :: 0 <= j < |flags| && flags[j].name == name && flags[j].setByUser
    decreases |flags|
  {
    if flags != [] {
      var init := flags[..|flags| - 1];
      ExplicitNamesSpec(init);
      forall name
        ensures name in ExplicitNames(flags) <==> exists j :: 0 <= j < |flags| && flags[j].name == name && flags[j].setByUser
      {
        if name in ExplicitNames(init) {
          var j :| 0 <= j < |init| && init[j].name == name && init[j].setByUser;
          assert flags[j] == init[j];
        }
        if exists j :: 0 <= j < |flags| && flags[j].name == name && flags[j].setByUser {
          var j :| 0 <= j < |flags| && flags[j].name == name && flags[j].setByUser;
          if j < |init| {
            assert init[j] == flags[j];
          }
        }
      }
    }
  }

  /**
   * The flags and the latched status after the VisitAll loop has visited the
   * first `n` flags: once the status is not Ok nothing changes any more.
   */
  function Run(flags: seq<Flag>, n: nat, explicit: set<string>, values: map<string, ConfigValue>, ext: Externals)
    : (r: (seq<Flag>, Status))
    requires n <= |flags|
    ensures |r.0| == |flags|
    ensures r.1 != DecodeError
    decreases n
  {
    if n == 0 then (flags, Ok)
    else
      var prev := Run(flags, n - 1, explicit, values, ext);
      if prev.1 != Ok then prev
      else
        match ApplyFlag(prev.0[n - 1], explicit, values, ext)
        case Done(f) => (prev.0[n - 1 := f], Ok)
        case Failed(f, val) => (prev.0[n - 1 := f], SetFailed(f.name, val))
        case Panic => (prev.0, Panicked(prev.0[n - 1].name))
  }

  /** The flags the loop has not reached yet are as they were. */
  lemma {:induction false} RunUnvisited(flags: seq<Flag>, n: nat, explicit: set<string>,
                                        values: map<string, ConfigValue>, ext: Externals)
    requires n <= |flags|
    ensures forall j :: n <= j < |flags| ==> Run(flags, n, explicit, values, ext).0[j] == flags[j]
    decreases n
  {
    if n > 0 {
      RunUnvisited(flags, n - 1, explicit, values, ext);
    }
  }

  /** ParseSet as a whole: the flags afterwards and the returned status. */
  function ParseSetSpec(tomlData: seq<byte>, flags: seq<Flag>, ext: Externals): (r: (seq<Flag>, Status))
    ensures |r.0| == |flags|
    ensures ext.decode(tomlData).None? ==> r == (flags, DecodeError)
    ensures r.1 == DecodeError ==> r.0 == flags
  {
    match ext.decode(tomlData)
    case None => (flags, DecodeError)
    case Some(values) => Run(flags, |flags|, ExplicitNames(flags), values, ext)
  }

  /** A latched status stays, and the flags stay as they were. */
  lemma {:induction false} RunLatched(flags: seq<Flag>, k: nat, n: nat, explicit: set<string>,
                                      values: map<string, ConfigValue>, ext: Externals)
    requires k <= n <= |flags|
    requires Run(flags, k, explicit, values, ext).1 != Ok
    ensures Run(flags, n, explicit, values, ext) == Run(flags, k, explicit, values, ext)
    decreases n - k
  {
    if k < n {
      RunLatched(flags, k, n - 1, explicit, values, ext);
    }
  }

  /**
   * The run over the first `n` flags failed at flag `k`: the flags before it
   * raised no error, the status names flag `k`, and nothing after it was
   * touched.
   */
  predicate FailedAt(flags: seq<Flag>, n: nat, k: nat, explicit: set<string>,
                     values: map<string, ConfigValue>, ext: Externals)
    requires n <= |flags|
  {
    var r := Run(flags, n, explicit, values, ext);
    k < n
    && Run(flags, k, explicit, values, ext).1 == Ok
    && r == Run(flags, k + 1, explicit, values, ext)
    && (r.1.SetFailed? || r.1.Panicked?)
    && r.1.flag == flags[k].name
    && forall j :: k < j < |flags| ==> r.0[j] == flags[j]
  }

  /** A failure comes from one flag, the first that failed. */
  lemma {:induction false} FirstFailure(flags: seq<Flag>, n: nat, explicit: set<string>,
                                        values: map<string, ConfigValue>, ext: Externals)
    requires n <= |flags|
    requires Run(flags, n, explicit, values, ext).1 != Ok
    ensures exists k :: FailedAt(flags, n, k, explicit, values, ext)
    decreases n
  {
    var prev := Run(flags, n - 1, explicit, values, ext);
    if prev.1 != Ok {
      FirstFailure(flags, n - 1, explicit, values, ext);
      var k :| FailedAt(flags, n - 1, k, explicit, values, ext);
      assert Run(flags, n, explicit, values, ext) == prev;
      assert FailedAt(flags, n, k, explicit, values, ext);
    } else {
      RunUnvisited(flags, n - 1, explicit, values, ext);
      assert FailedAt(flags, n, n - 1, explicit, values, ext);
    }
  }

  /**
   * A run without failure visits every flag on its own: each ends up as
   * ApplyFlag makes it from its original value.
   */
  lemma {:induction false} RunSucceeded(flags: seq<Flag>, n: nat, explicit: set<string>,
                                        values: map<string, ConfigValue>, ext: Externals)
    requires n <= |flags|
    requires Run(flags, n, explicit, values, ext).1 == Ok
    ensures forall j :: 0 <= j < n ==> ApplyFlag(flags[j], explicit, values, ext) == Done(Run(flags, n, explicit, values, ext).0[j])
    decreases n
  {
    if n > 0 {
      var prev := Run(flags, n - 1, explicit, values, ext);
      assert prev.1 == Ok;
      RunSucceeded(flags, n - 1, explicit, values, ext);
      RunUnvisited(flags, n - 1, explicit, values, ext);
    }
  }

  /** Conversely, when every flag visits without error, the run succeeds with every visited flag replaced. */
  lemma {:induction false} RunAllDone(flags: seq<Flag>, n: nat, explicit: set<string>,
                                      values: map<string, ConfigValue>, ext: Externals, after: seq<Flag>)
    requires n <= |flags| == |after|
    requires forall j :: 0 <= j < n ==> ApplyFlag(flags[j], explicit, values, ext) == Done(after[j])
    ensures Run(flags, n, explicit, values, ext).1 == Ok
    ensures forall j :: 0 <= j < n ==> Run(flags, n, explicit, values, ext).0[j] == after[j]
    decreases n
  {
    if n > 0 {
      RunAllDone(flags, n - 1, explicit, values, ext, after);
      var prev := Run(flags, n - 1, explicit, values, ext);
      RunUnvisited(flags, n - 1, explicit, values, ext);
    }
  }

  /** Visiting never renames a flag, never changes its set-by-user bit and never changes its kind. */
  lemma {:induction false} RunKeepsShape(flags: seq<Flag>, n: nat, explicit: set<string>,
                                         values: map<string, ConfigValue>, ext: Externals)
    requires n <= |flags|
    ensures forall j :: 0 <= j < |flags| ==>
      var g := Run(flags, n, explicit, values, ext).0[j];
      g.name == flags[j].name && g.setByUser == flags[j].setByUser && GetKind(g.value) == GetKind(flags[j].value)
    decreases n
  {
    if n > 0 {
      RunKeepsShape(flags, n - 1, explicit, values, ext);
    }
  }

  /** A flag whose key is not in the table keeps its value, and causes no error. */
  lemma {:induction false} RunKeepsUnlisted(flags: seq<Flag>, n: nat, explicit: set<string>,
                                            values: map<string, ConfigValue>, ext: Externals)
    requires n <= |flags|
    ensures forall j :: 0 <= j < |flags| && (flags[j].name in explicit || ConfigKey(flags[j].name) !in values) ==>
      Run(flags, n, explicit, values, ext).0[j] == flags[j]
    decreases n
  {
    if n > 0 {
      RunKeepsUnlisted(flags, n - 1, explicit, values, ext);
    }
  }

  /**
   * ParseSet leaves alone every flag the user set and every flag without a
   * key in the table; a decoding error leaves every flag alone.
   */
  lemma ParseSetFrame(tomlData: seq<byte>, flags: seq<Flag>, ext: Externals)
    ensures var r := ParseSetSpec(tomlData, flags, ext);
      forall j :: 0 <= j < |flags| && (flags[j].setByUser || ext.decode(tomlData).None?
                                       || ConfigKey(flags[j].name) !in ext.decode(tomlData).value) ==>
        r.0[j] == flags[j]
  {
    ExplicitNamesSpec(flags);
    if ext.decode(tomlData).Some? {
      var explicit := ExplicitNames(flags);
      RunKeepsUnlisted(flags, |flags|, explicit, ext.decode(tomlData).value, ext);
      forall j | 0 <= j < |flags| && flags[j].setByUser
        ensures flags[j].name in explicit
      {
      }
    }
  }

  // ---------------------------------------------------------------------
  // The flag set and the imperative ParseSet
  // ---------------------------------------------------------------------

  /** Strict lexicographic order on names, the order VisitAll visits flags in. */
  predicate NameLess(a: string, b: string)
    decreases |a|
  {
    |b| > 0 && (|a| == 0 || a[0] < b[0] || (a[0] == b[0] && NameLess(a[1..], b[1..])))
  }

  predicate SortedNames(flags: seq<Flag>) {
    forall i, j :: 0 <= i < j < |flags| ==> NameLess(flags[i].name, flags[j].name)
  }

  /** Keeping every name keeps the visiting order. */
  lemma SameNamesSorted(a: seq<Flag>, b: seq<Flag>)
    requires |a| == |b| && forall j :: 0 <= j < |a| ==> a[j].name == b[j].name
    requires SortedNames(a)
    ensures SortedNames(b)
  {
    forall i, j | 0 <= i < j < |b|
      ensures NameLess(b[i].name, b[j].name)
    {
      assert NameLess(a[i].name, a[j].name);
    }
  }

  /** ParseSet keeps every name, so it keeps the order VisitAll visits the flags in. */
  lemma ParseSetKeepsOrder(tomlData: seq<byte>, flags: seq<Flag>, ext: Externals)
    ensures SortedNames(flags) ==> SortedNames(ParseSetSpec(tomlData, flags, ext).0)
  {
    if ext.decode(tomlData).Some? && SortedNames(flags) {
      RunKeepsShape(flags, |flags|, ExplicitNames(flags), ext.decode(tomlData).value, ext);
      SameNamesSorted(flags, ParseSetSpec(tomlData, flags, ext).0);
    }
  }

  /** A flag.FlagSet: its registered flags, in the order VisitAll visits them. */
  class FlagSet {
    var flags: seq<Flag>

    /**
     * The flags are held in name order, so the order of the sequence is the
     * order VisitAll visits them in, and Run's "first" failure is the first
     * in that order.  No other contract depends on it.
     */
    predicate Valid()
      reads this
    {
      SortedNames(flags)
    }

    constructor(flags: seq<Flag>)
      requires SortedNames(flags)
      ensures this.flags == flags
      ensures Valid()
    {
      this.flags := flags;
    }
  }

  /** The set.Visit loop that records the flags the user set. */
  method Snapshot(fs: FlagSet) returns (explicit: set<string>)
    ensures explicit == ExplicitNames(fs.flags)
  {
    explicit := {};
    for i := 0 to |fs.flags|
      invariant explicit == ExplicitNames(fs.flags[..i])
    {
      assert fs.flags[..i + 1][..i] == fs.flags[..i];
      if fs.flags[i].setByUser {
        explicit := explicit + {fs.flags[i].name};
      }
    }
    assert fs.flags[..|fs.flags|] == fs.flags;
  }

  /**
   * ParseSet: snapshot the user-set flags, decode, then visit every flag in
   * order, skipping all of them once an error is latched.  A panic ends the
   * call on the spot.
   */
  method ParseSet(tomlData: seq<byte>, fs: FlagSet, ext: Externals) returns (st: Status)
    modifies fs
    ensures (fs.flags, st) == ParseSetSpec(tomlData, old(fs.flags), ext)
    ensures old(fs.Valid()) ==> fs.Valid()
  {
    ghost var flags0 := fs.flags;
    ParseSetKeepsOrder(tomlData, flags0, ext);
    var explicit := Snapshot(fs);
    var decoded := ext.decode(tomlData);
    if decoded.None? {
      return DecodeError;
    }
    var values := decoded.value;
    st := Ok;
    var i := 0;
    while i < |fs.flags|
      invariant i <= |fs.flags| == |flags0|
      invariant (fs.flags, st) == Run(flags0, i, explicit, values, ext)
    {
      if st == Ok {
        match ApplyFlag(fs.flags[i], explicit, values, ext)
        case Done(f) =>
          fs.flags := fs.flags[i := f];
        case Failed(f, val) =>
          fs.flags := fs.flags[i := f];
          st := SetFailed(f.name, val);
        case Panic =>
          st := Panicked(fs.flags[i].name);
          RunLatched(flags0, i + 1, |flags0|, explicit, values, ext);
          return;
      }
      i := i + 1;
    }
  }


  // ---------------------------------------------------------------------
  // The package-level locator and Parse
  // ---------------------------------------------------------------------

  /** Why Parse ends the program through log.Fatal. */
  datatype FatalReason = NoConfigFiles | ReadFailed(file: string) | BadConfig(status: Status)

  /** How Parse ends: it returns, it exits through log.Fatal, or a panic escapes while visiting a flag. */
  datatype ParseOutcome = Completed | Exited(reason: FatalReason) | Crashed(flag: string)

  /** What Parse makes of the error ParseSet returned. */
  function OutcomeOf(st: Status): (o: ParseOutcome)
    ensures o == Completed <==> st == Ok
    ensures o.Crashed? <==> st.Panicked?
  {
    match st
    case Ok => Completed
    case Panicked(name) => Crashed(name)
    case _ => Exited(BadConfig(st))
  }

  /**
   * The package's global state: the candidate files added so far and the
   * file Parse last settled on ("" when none existed).
   */
  class Package {
    var configFiles: seq<string>
    var parsedFilename: string

    /** The parsed file name, when there is one, is one of the candidates. */
    predicate Valid()
      reads this
    {
      parsedFilename == "" || parsedFilename in configFiles
    }

    /** The package's initial state: no candidates, nothing parsed. */
    constructor()
      ensures configFiles == [] && parsedFilename == ""
      ensures Valid()
    {
      configFiles := [];
      parsedFilename := "";
    }

    /** Append one candidate location, with no existence check and no deduplication. */
    method AddFile(fileName: string)
      modifies this
      ensures configFiles == old(configFiles) + [fileName]
      ensures parsedFilename == old(parsedFilename)
      ensures old(Valid()) ==> Valid()
    {
      configFiles := configFiles + [fileName];
    }

    /** The first candidate, in insertion order, that exists; "" when none does. */
    method FindConfig(statOk: string -> bool) returns (found: string)
      ensures found == FirstExisting(configFiles, statOk)
    {
      found := FindFirst(configFiles, statOk);
    }

    /**
     * Parse: exit when no candidate was added; otherwise record the first
     * existing candidate and, when there is one, read it and apply it to the
     * command-line flag set, exiting when it cannot be read or applied.
     */
    method Parse(statOk: string -> bool, readFile: string -> Option<seq<byte>>, commandLine: FlagSet, ext: Externals)
        returns (outcome: ParseOutcome)
      modifies this, commandLine
      ensures configFiles == old(configFiles)
      ensures old(configFiles) == [] ==>
        outcome == Exited(NoConfigFiles) && parsedFilename == old(parsedFilename) && commandLine.flags == old(commandLine.flags)
      ensures old(configFiles) != [] ==> parsedFilename == FirstExisting(configFiles, statOk)
      ensures old(configFiles) != [] && (parsedFilename == "" || readFile(parsedFilename).None?) ==>
        commandLine.flags == old(commandLine.flags)
        && outcome == (if parsedFilename == "" then Completed else Exited(ReadFailed(parsedFilename)))
      ensures old(configFiles) != [] && parsedFilename != "" && readFile(parsedFilename).Some? ==>
        var r := ParseSetSpec(readFile(parsedFilename).value, old(commandLine.flags), ext);
        commandLine.flags == r.0 && outcome == OutcomeOf(r.1)
      ensures old(Valid()) ==> Valid()
      ensures old(commandLine.Valid()) ==> commandLine.Valid()
    {
      if |configFiles| == 0 {
        return Exited(NoConfigFiles);
      }
      var found := FindConfig(statOk);
      parsedFilename := found;
      if parsedFilename == "" {
        return Completed;
      }
      var b := readFile(parsedFilename);
      if b.None? {
        return Exited(ReadFailed(parsedFilename));
      }
      var st := ParseSet(b.value, commandLine, ext);
      outcome := OutcomeOf(st);
    }

    /** The file Parse settled on, "" before Parse or when no candidate existed. */
    function Filename(): (name: string)
      reads this
      requires Valid()
      ensures name == "" || name in configFiles
    {
      parsedFilename
    }

    /**
     * Add the default candidates for the running executable: the variable
     * <STEM>_CONFIG and the file name <stem>.config.
     */
    method AddDefaults(host: Host)
      modifies this
      ensures var stem := ExePath(host).stem;
        configFiles == old(configFiles) + DefaultCandidates(EnvNameFor(stem), CfgNameFor(stem), host)
      ensures parsedFilename == old(parsedFilename)
      ensures old(Valid()) ==> Valid()
    {
      var exe := ExePath(host);
      AddDefaultFiles(EnvNameFor(exe.stem), CfgNameFor(exe.stem), host);
    }

    /** Append the default candidates for the given variable and file name, in priority order. */
    method AddDefaultFiles(envName: string, cfgName: string, host: Host)
      modifies this
      ensures configFiles == old(configFiles) + DefaultCandidates(envName, cfgName, host)
      ensures parsedFilename == old(parsedFilename)
      ensures old(Valid()) ==> Valid()
    {
      configFiles := AppendDefaults(configFiles, envName, cfgName, host);
    }
  }
}
