/**
 * Concrete runs of the model: the flag set and configuration of the
 * package's TestTypes, a configured value of the wrong type, a failure that
 * is latched, and the order in which the candidate files are searched.
 */
module Scenarios {
  import opened Optional
  import opened Decimal
  import opened Search
  import opened FlagCfg

  /** 1s and 10s as time.Duration nanosecond counts. */
  const SECOND: int64 := 1_000_000_000
  const TEN_SECONDS: int64 := 10_000_000_000

  /**
   * The flags TestTypes defines, in VisitAll's order, after the command line
   * `-anotherInt 55`; a float64 flag starts at +0.0, whose bits are all zero.
   */
  function TestFlags(): seq<Flag> {
    [ Flag("another.var", StringV(""), false),
      Flag("anotherInt", IntV(55), true),
      Flag("bool", BoolV(false), false),
      Flag("duration", DurationV(SECOND), false),
      Flag("float64", Float64V(0), false),
      Flag("int", IntV(0), false),
      Flag("int64", Int64V(0), false),
      Flag("some-var", StringV(""), false),
      Flag("string", StringV(""), false),
      Flag("uint", UintV(0), false),
      Flag("uint64", Uint64V(0), false) ]
  }

  /** The decoded TOML data of TestTypes; `x` stands for the bits of 64.32. */
  function TestTable(x: Float64): map<string, ConfigValue> {
    map[
      "string" := Str("hello"),
      "int" := Int(32),
      "uint" := Int(33),
      "int64" := Int(64),
      "uint64" := Int(65),
      "duration" := Str("10s"),
      "bool" := Bool(true),
      "float64" := Float(x),
      "anotherInt" := Int(44),
      "some_var" := Str("hello again"),
      "another_var" := Str("oh the pain")]
  }

  /** The flags TestTypes expects afterwards: all from the file except the one set on the command line. */
  function TestExpected(x: Float64): seq<Flag> {
    [ Flag("another.var", StringV("oh the pain"), false),
      Flag("anotherInt", IntV(55), true),
      Flag("bool", BoolV(true), false),
      Flag("duration", DurationV(TEN_SECONDS), false),
      Flag("float64", Float64V(x), false),
      Flag("int", IntV(32), false),
      Flag("int64", Int64V(64), false),
      Flag("some-var", StringV("hello again"), false),
      Flag("string", StringV("hello"), false),
      Flag("uint", UintV(33), false),
      Flag("uint64", Uint64V(65), false) ]
  }

  // The keys TestTypes looks its flags up under, one name at a time: the
  // two names with a separator are renamed, the others are their own key.

  lemma KeyAnotherVar()
    ensures ConfigKey("another.var") == "another_var"
  {
    ConfigKeyUnique("another.var", "another_var");
  }

  lemma KeyAnotherInt()
    ensures ConfigKey("anotherInt") == "anotherInt"
  {
    ConfigKeyPlain("anotherInt");
  }

  lemma KeyBool()
    ensures ConfigKey("bool") == "bool"
  {
    ConfigKeyPlain("bool");
  }

  lemma KeyDuration()
    ensures ConfigKey("duration") == "duration"
  {
    ConfigKeyPlain("duration");
  }

  lemma KeyFloat64()
    ensures ConfigKey("float64") == "float64"
  {
    ConfigKeyPlain("float64");
  }

  lemma KeyInt()
    ensures ConfigKey("int") == "int"
  {
    ConfigKeyPlain("int");
  }

  lemma KeyInt64()
    ensures ConfigKey("int64") == "int64"
  {
    ConfigKeyPlain("int64");
  }

  lemma KeySomeVar()
    ensures ConfigKey("some-var") == "some_var"
  {
    ConfigKeyUnique("some-var", "some_var");
  }

  lemma KeyString()
    ensures ConfigKey("string") == "string"
  {
    ConfigKeyPlain("string");
  }

  lemma KeyUint()
    ensures ConfigKey("uint") == "uint"
  {
    ConfigKeyPlain("uint");
  }

  lemma KeyUint64()
    ensures ConfigKey("uint64") == "uint64"
  {
    ConfigKeyPlain("uint64");
  }

  lemma TestExplicit()
    ensures ExplicitNames(TestFlags()) == {"anotherInt"}
  {
    var flags := TestFlags();
    ExplicitNamesSpec(flags);
    assert flags[1].setByUser;
  }

  // The TestTypes flags visited one at a time, with only `anotherInt` set on
  // the command line: each takes its expected value.

  lemma VisitAnotherVar(ext: Externals, x: Float64)
    ensures ApplyFlag(TestFlags()[0], {"anotherInt"}, TestTable(x), ext) == Done(TestExpected(x)[0])
  {
    KeyAnotherVar();
    ApplyFlagTakesValue(TestFlags()[0], {"anotherInt"}, TestTable(x), ext);
  }

  lemma VisitAnotherInt(ext: Externals, x: Float64)
    ensures ApplyFlag(TestFlags()[1], {"anotherInt"}, TestTable(x), ext) == Done(TestExpected(x)[1])
  {
  }

  lemma VisitBool(ext: Externals, x: Float64)
    ensures ApplyFlag(TestFlags()[2], {"anotherInt"}, TestTable(x), ext) == Done(TestExpected(x)[2])
  {
    KeyBool();
    ApplyFlagTakesValue(TestFlags()[2], {"anotherInt"}, TestTable(x), ext);
  }

  lemma VisitDuration(ext: Externals, x: Float64)
    requires ext.parseDuration("10s") == (TEN_SECONDS, true)
    ensures ApplyFlag(TestFlags()[3], {"anotherInt"}, TestTable(x), ext) == Done(TestExpected(x)[3])
  {
    KeyDuration();
  }

  lemma VisitFloat64(ext: Externals, x: Float64)
    requires ext.parseFloat(ext.formatFloat(x)) == (x, true)
    ensures ApplyFlag(TestFlags()[4], {"anotherInt"}, TestTable(x), ext) == Done(TestExpected(x)[4])
  {
    KeyFloat64();
  }

  lemma VisitInt(ext: Externals, x: Float64)
    ensures ApplyFlag(TestFlags()[5], {"anotherInt"}, TestTable(x), ext) == Done(TestExpected(x)[5])
  {
    KeyInt();
    ApplyFlagTakesValue(TestFlags()[5], {"anotherInt"}, TestTable(x), ext);
  }

  lemma VisitInt64(ext: Externals, x: Float64)
    ensures ApplyFlag(TestFlags()[6], {"anotherInt"}, TestTable(x), ext) == Done(TestExpected(x)[6])
  {
    KeyInt64();
    ApplyFlagTakesValue(TestFlags()[6], {"anotherInt"}, TestTable(x), ext);
  }

  lemma VisitSomeVar(ext: Externals, x: Float64)
    ensures ApplyFlag(TestFlags()[7], {"anotherInt"}, TestTable(x), ext) == Done(TestExpected(x)[7])
  {
    KeySomeVar();
    ApplyFlagTakesValue(TestFlags()[7], {"anotherInt"}, TestTable(x), ext);
  }

  lemma VisitString(ext: Externals, x: Float64)
    ensures ApplyFlag(TestFlags()[8], {"anotherInt"}, TestTable(x), ext) == Done(TestExpected(x)[8])
  {
    KeyString();
    ApplyFlagTakesValue(TestFlags()[8], {"anotherInt"}, TestTable(x), ext);
  }

  lemma VisitUint(ext: Externals, x: Float64)
    ensures ApplyFlag(TestFlags()[9], {"anotherInt"}, TestTable(x), ext) == Done(TestExpected(x)[9])
  {
    KeyUint();
    ApplyFlagTakesValue(TestFlags()[9], {"anotherInt"}, TestTable(x), ext);
  }

  lemma VisitUint64(ext: Externals, x: Float64)
    ensures ApplyFlag(TestFlags()[10], {"anotherInt"}, TestTable(x), ext) == Done(TestExpected(x)[10])
  {
    KeyUint64();
    ApplyFlagTakesValue(TestFlags()[10], {"anotherInt"}, TestTable(x), ext);
  }

  /**
   * TestTypes: with a decoder that yields the table, a duration parser that
   * reads "10s", and a float rendering that reads back, ParseSet succeeds and
   * every flag holds the expected value; the flag set on the command line
   * keeps 55.
   */
  lemma TestTypes(data: seq<byte>, ext: Externals, x: Float64)
    requires ext.decode(data) == Some(TestTable(x))
    requires ext.parseDuration("10s") == (TEN_SECONDS, true)
    requires ext.parseFloat(ext.formatFloat(x)) == (x, true)
    ensures ParseSetSpec(data, TestFlags(), ext) == (TestExpected(x), Ok)
  {
    var flags, table, after := TestFlags(), TestTable(x), TestExpected(x);
    TestExplicit();
    var explicit := ExplicitNames(flags);
    forall j | 0 <= j < |flags|
      ensures ApplyFlag(flags[j], explicit, table, ext) == Done(after[j])
    {
      if j == 0 {
        VisitAnotherVar(ext, x);
      } else if j == 1 {
        VisitAnotherInt(ext, x);
      } else if j == 2 {
        VisitBool(ext, x);
      } else if j == 3 {
        VisitDuration(ext, x);
      } else if j == 4 {
        VisitFloat64(ext, x);
      } else if j == 5 {
        VisitInt(ext, x);
      } else if j == 6 {
        VisitInt64(ext, x);
      } else if j == 7 {
        VisitSomeVar(ext, x);
      } else if j == 8 {
        VisitString(ext, x);
      } else if j == 9 {
        VisitUint(ext, x);
      } else {
        VisitUint64(ext, x);
      }
    }
    RunAllDone(flags, |flags|, explicit, table, ext, after);
    assert Run(flags, |flags|, explicit, table, ext).0 == after;
  }

  /**
   * A quoted number configured for an int flag fails the int64 type
   * assertion: the visit panics and names the flag.
   */
  lemma QuotedNumberPanics(data: seq<byte>, ext: Externals)
    requires ext.decode(data) == Some(map["n" := Str("32")])
    ensures ParseSetSpec(data, [Flag("n", IntV(0), false)], ext) == ([Flag("n", IntV(0), false)], Panicked("n"))
  {
    var flags := [Flag("n", IntV(0), false)];
    ConfigKeyPlain("n");
    assert ExplicitNames(flags) == {} by {
      assert flags[..0] == [];
    }
    var values := map["n" := Str("32")];
    assert ApplyFlag(flags[0], {}, values, ext) == Panic;
    assert Run(flags, 1, {}, values, ext) == (flags, Panicked("n"));
  }

  /**
   * The first failure is latched: a user-defined value whose Get falls into
   * the `default` branch fails, and the next flag keeps its value although
   * the table has a good value for it.
   */
  lemma FirstErrorLatched(data: seq<byte>, ext: Externals)
    requires ext.decode(data) == Some(map["a" := Str("x"), "b" := Int(1)])
    ensures var flags := [Flag("a", CustomV("s", Some(KOther)), false), Flag("b", IntV(0), false)];
      ParseSetSpec(data, flags, ext) == (flags, SetFailed("a", Str("x")))
  {
    var flags := [Flag("a", CustomV("s", Some(KOther)), false), Flag("b", IntV(0), false)];
    var values := map["a" := Str("x"), "b" := Int(1)];
    ConfigKeyPlain("a");
    assert ExplicitNames(flags) == {} by {
      assert flags[..1][..0] == [];
    }
    UnsupportedValueFails(flags[0], {}, values, ext);
    assert Run(flags, 0, {}, values, ext) == (flags, Ok);
    assert flags[0 := flags[0]] == flags;
    assert Run(flags, 1, {}, values, ext) == (flags, SetFailed("a", Str("x")));
    RunLatched(flags, 1, 2, {}, values, ext);
  }

  /**
   * A negative integer configured for an unsigned flag is not rejected: it
   * is reinterpreted as 64 unsigned bits, so -1 sets the flag to the largest
   * uint64.
   */
  lemma NegativeUnsignedWraps(data: seq<byte>, ext: Externals)
    requires ext.decode(data) == Some(map["u" := Int(-1)])
    ensures ParseSetSpec(data, [Flag("u", UintV(0), false)], ext) == ([Flag("u", UintV(UINT64_MAX), false)], Ok)
  {
    var flags := [Flag("u", UintV(0), false)];
    var values := map["u" := Int(-1)];
    ConfigKeyPlain("u");
    assert ExplicitNames(flags) == {} by {
      assert flags[..0] == [];
    }
    ApplyFlagTakesValue(flags[0], {}, values, ext);
    assert Run(flags, 1, {}, values, ext).0 == [Flag("u", UintV(UINT64_MAX), false)];
  }

  /** The search stops at the first candidate that exists, in the order they were added. */
  lemma FirstExistingWins(statOk: string -> bool)
    requires !statOk("a.config") && statOk("b.config") && statOk("c.config")
    ensures FirstExisting(["a.config", "b.config", "c.config"], statOk) == "b.config"
  {
    var files := ["a.config", "b.config", "c.config"];
    var k := FirstIndex(files, statOk);
    assert k != 0 && !(k > 1);
  }
}
