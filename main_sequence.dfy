/**
 * The two test-plan builders of main_sequence.py. Each turns the command-line
 * flags into the ordered list of test names that the television QA run
 * executes. The full plan starts from the tests `setup_tests` returns and
 * groups the lux-level tests by level; the simple plan starts from a fixed
 * calibration prefix and lists each picture setting's tests as one block.
 */
module MainSequence {
  import opened TestNames

  /**
   * The flags both builders read. `hdr` stands for the truthiness of the
   * `--hdr=pps` string (an HDR preset picture setting was named); the other
   * three are the `--defabc`, `--brabc` and `--hdrabc` switches.
   */
  datatype Flags = Flags(hdr: bool, defabc: bool, brabc: bool, hdrabc: bool)

  /** The picture settings a plan can test. */
  datatype Setting = Default | Brightest | Hdr10

  function Name(s: Setting): string {
    match s
    case Default => "default"
    case Brightest => "brightest"
    case Hdr10 => "hdr10"
  }

  /** The name of the test of `s` with the backlight at its lowest, run when ABC is off. */
  function LowBacklightName(s: Setting): string {
    Name(s) + "_low_backlight"
  }

  /** Whether the plan tests `s` at all: hdr10 only when an HDR setting was named. */
  predicate Included(f: Flags, s: Setting) {
    s != Hdr10 || f.hdr
  }

  /** Whether `s` is tested with automatic brightness control, i.e. at each lux level. */
  predicate Abc(f: Flags, s: Setting) {
    match s
    case Default => f.defabc
    case Brightest => f.brabc
    case Hdr10 => f.hdrabc
  }

  /** The lux levels the ABC tests run at, brightest room first. */
  const LuxLevels: seq<nat> := [100, 35, 12, 3]

  /** The standby tests that close the full plan. */
  const Standby: seq<string> := ["standby_active_low", "active_low_waketime"]

  /** The calibration tests that open the simple plan. */
  const SimpleHead: seq<string> := ["screen_config", "stabilization", "manual_ccf_default", "manual_ccf_brightest"]

  function Count(b: bool): nat {
    if b then 1 else 0
  }

  function When(c: bool, s: seq<string>): (r: seq<string>)
    ensures |r| == if c then |s| else 0
  {
    if c then s else []
  }

  /** The settings the plan tests, in the order default, brightest, hdr10. */
  function IncludedSettings(f: Flags): (r: seq<Setting>)
    ensures |r| == 2 + Count(f.hdr)
  {
    if f.hdr then [Default, Brightest, Hdr10] else [Default, Brightest]
  }

  /** The members of `ss` whose ABC switch is `abc`, in their order. */
  function SettingsWhere(f: Flags, ss: seq<Setting>, abc: bool): (r: seq<Setting>)
    ensures |r| <= |ss|
  {
    if ss == [] then []
    else (if Abc(f, ss[0]) == abc then [ss[0]] else []) + SettingsWhere(f, ss[1..], abc)
  }

  function Names(ss: seq<Setting>): (r: seq<string>)
    ensures |r| == |ss|
  {
    if ss == [] then [] else [Name(ss[0])] + Names(ss[1..])
  }

  function LowBacklightNames(ss: seq<Setting>): (r: seq<string>)
    ensures |r| == |ss|
  {
    if ss == [] then [] else [LowBacklightName(ss[0])] + LowBacklightNames(ss[1..])
  }

  // ---------------------------------------------------------------------
  // get_test_order

  /** The settings tested at each lux level in the full plan. */
  function AbcSettings(f: Flags): seq<Setting> {
    SettingsWhere(f, IncludedSettings(f), true)
  }

  /** The settings given a low-backlight test in the full plan. */
  function LowBacklightSettings(f: Flags): seq<Setting> {
    SettingsWhere(f, IncludedSettings(f), false)
  }

  /** The tests of every setting in `ss` at one lux level, in the order of `ss`. */
  function LevelTests(ss: seq<Setting>, lux: nat): (r: seq<string>)
    ensures |r| == |ss|
  {
    if ss == [] then [] else [LuxTest(Name(ss[0]), lux)] + LevelTests(ss[1..], lux)
  }

  /** The lux-level tests of the full plan: level by level, all settings of `ss` within a level. */
  function LuxSection(ss: seq<Setting>, levels: seq<nat>): seq<string> {
    if levels == [] then []
    else LuxSection(ss, levels[..|levels| - 1]) + LevelTests(ss, levels[|levels| - 1])
  }

  /** The tests of the full plan before the lux-level tests. */
  function Upfront(f: Flags): seq<string> {
    Names(IncludedSettings(f)) + LowBacklightNames(LowBacklightSettings(f))
  }

  /** The full plan, given the tests `setup_tests` returned. */
  function TestOrder(f: Flags, setupTests: seq<string>): seq<string> {
    setupTests + Upfront(f) + LuxSection(AbcSettings(f), LuxLevels) + Standby
  }

  /** The settings tested at each lux level, as the three guards of the lux loop pick them. */
  lemma AbcSettingsGuards(f: Flags)
    ensures AbcSettings(f)
         == (if f.defabc then [Default] else []) + (if f.brabc then [Brightest] else [])
          + (if f.hdr && f.hdrabc then [Hdr10] else [])
  {
    SettingsWhereUnfold(f, true);
  }

  /** The settings given a low-backlight test, as the three guards before the lux loop pick them. */
  lemma LowBacklightSettingsGuards(f: Flags)
    ensures LowBacklightSettings(f)
         == (if !f.defabc then [Default] else []) + (if !f.brabc then [Brightest] else [])
          + (if f.hdr && !f.hdrabc then [Hdr10] else [])
  {
    SettingsWhereUnfold(f, false);
  }

  lemma SettingsWhereUnfold(f: Flags, abc: bool)
    ensures SettingsWhere(f, IncludedSettings(f), abc)
         == (if f.defabc == abc then [Default] else []) + (if f.brabc == abc then [Brightest] else [])
          + (if f.hdr && f.hdrabc == abc then [Hdr10] else [])
  {
    var tail: seq<Setting> := if f.hdr then [Hdr10] else [];
    assert IncludedSettings(f) == [Default] + [Brightest] + tail;
    SettingsWhereAppend(f, [Default], [Brightest], abc);
    SettingsWhereAppend(f, [Default] + [Brightest], tail, abc);
    SettingsWhereOne(f, Default, abc);
    SettingsWhereOne(f, Brightest, abc);
    SettingsWhereOne(f, Hdr10, abc);
  }

  lemma SettingsWhereOne(f: Flags, s: Setting, abc: bool)
    ensures SettingsWhere(f, [s], abc) == if Abc(f, s) == abc then [s] else []
  {
    assert [s][1..] == [];
  }

  lemma {:induction false} SettingsWhereAppend(f: Flags, a: seq<Setting>, b: seq<Setting>, abc: bool)
    ensures SettingsWhere(f, a + b, abc) == SettingsWhere(f, a, abc) + SettingsWhere(f, b, abc)
  {
    if a != [] {
      var head := if Abc(f, a[0]) == abc then [a[0]] else [];
      assert (a + b)[0] == a[0];
      assert (a + b)[1..] == a[1..] + b;
      SettingsWhereAppend(f, a[1..], b, abc);
      Assoc(head, SettingsWhere(f, a[1..], abc), SettingsWhere(f, b, abc));
    } else {
      assert a + b == b;
    }
  }

  /** The first tests of the full plan, as the guards before the lux loop append them. */
  lemma UpfrontNames(f: Flags)
    ensures Upfront(f)
         == ["default", "brightest"] + When(f.hdr, ["hdr10"])
          + When(!f.defabc, ["default_low_backlight"])
          + When(!f.brabc, ["brightest_low_backlight"])
          + When(f.hdr && !f.hdrabc, ["hdr10_low_backlight"])
  {
    IncludedNames(f);
    LowBacklightGuardNames(f);
  }

  lemma IncludedNames(f: Flags)
    ensures Names(IncludedSettings(f)) == ["default", "brightest"] + When(f.hdr, ["hdr10"])
  {
    var tail: seq<Setting> := if f.hdr then [Hdr10] else [];
    assert IncludedSettings(f) == [Default] + [Brightest] + tail;
    NamesAppend([Default], [Brightest]);
    NamesAppend([Default] + [Brightest], tail);
  }

  lemma LowBacklightGuardNames(f: Flags)
    ensures LowBacklightNames(LowBacklightSettings(f))
         == When(!f.defabc, ["default_low_backlight"])
          + When(!f.brabc, ["brightest_low_backlight"])
          + When(f.hdr && !f.hdrabc, ["hdr10_low_backlight"])
  {
    LowBacklightSettingsGuards(f);
    var a: seq<Setting> := if !f.defabc then [Default] else [];
    var b: seq<Setting> := if !f.brabc then [Brightest] else [];
    var c: seq<Setting> := if f.hdr && !f.hdrabc then [Hdr10] else [];
    LowBacklightNamesAppend(a, b);
    LowBacklightNamesAppend(a + b, c);
    LowBacklightLiterals();
    if !f.defabc { LowBacklightNamesOne(Default); }
    if !f.brabc { LowBacklightNamesOne(Brightest); }
    if f.hdr && !f.hdrabc { LowBacklightNamesOne(Hdr10); }
  }

  /** The low-backlight test names, written out. */
  lemma LowBacklightLiterals()
    ensures LowBacklightName(Default) == "default_low_backlight"
    ensures LowBacklightName(Brightest) == "brightest_low_backlight"
    ensures LowBacklightName(Hdr10) == "hdr10_low_backlight"
  {
  }

  lemma LowBacklightNamesOne(s: Setting)
    ensures LowBacklightNames([s]) == [LowBacklightName(s)]
  {
    assert [s][1..] == [];
  }

  lemma {:induction false} NamesAppend(a: seq<Setting>, b: seq<Setting>)
    ensures Names(a + b) == Names(a) + Names(b)
  {
    if a != [] {
      assert (a + b)[0] == a[0];
      assert (a + b)[1..] == a[1..] + b;
      NamesAppend(a[1..], b);
      Assoc([Name(a[0])], Names(a[1..]), Names(b));
    } else {
      assert a + b == b;
    }
  }

  lemma {:induction false} LowBacklightNamesAppend(a: seq<Setting>, b: seq<Setting>)
    ensures LowBacklightNames(a + b) == LowBacklightNames(a) + LowBacklightNames(b)
  {
    if a != [] {
      assert (a + b)[0] == a[0];
      assert (a + b)[1..] == a[1..] + b;
      LowBacklightNamesAppend(a[1..], b);
      Assoc([LowBacklightName(a[0])], LowBacklightNames(a[1..]), LowBacklightNames(b));
    } else {
      assert a + b == b;
    }
  }

  lemma {:induction false} LevelTestsAppend(a: seq<Setting>, b: seq<Setting>, lux: nat)
    ensures LevelTests(a + b, lux) == LevelTests(a, lux) + LevelTests(b, lux)
  {
    if a != [] {
      assert (a + b)[0] == a[0];
      assert (a + b)[1..] == a[1..] + b;
      LevelTestsAppend(a[1..], b, lux);
      Assoc([LuxTest(Name(a[0]), lux)], LevelTests(a[1..], lux), LevelTests(b, lux));
    } else {
      assert a + b == b;
    }
  }

  /** One level's tests, as the three guards inside the lux loop append them. */
  lemma LevelTestsGuards(f: Flags, lux: nat)
    ensures LevelTests(AbcSettings(f), lux)
         == When(f.defabc, [LuxTest("default", lux)])
          + When(f.brabc, [LuxTest("brightest", lux)])
          + When(f.hdr && f.hdrabc, [LuxTest("hdr10", lux)])
  {
    AbcSettingsGuards(f);
    var a: seq<Setting> := if f.defabc then [Default] else [];
    var b: seq<Setting> := if f.brabc then [Brightest] else [];
    var c: seq<Setting> := if f.hdr && f.hdrabc then [Hdr10] else [];
    LevelTestsAppend(a, b, lux);
    LevelTestsAppend(a + b, c, lux);
  }

  /** Appending one level's tests extends the lux section by that level. */
  lemma LuxSectionSnoc(ss: seq<Setting>, levels: seq<nat>, i: nat)
    requires i < |levels|
    ensures LuxSection(ss, levels[..i + 1]) == LuxSection(ss, levels[..i]) + LevelTests(ss, levels[i])
  {
    assert levels[..i + 1][..i] == levels[..i];
  }

  /**
   * get_test_order: the setup tests, the tests before the lux loop, the
   * lux loop, then the two standby tests.
   */
  method GetTestOrder(args: Flags, setupTests: seq<string>) returns (testOrder: seq<string>)
    ensures testOrder == TestOrder(args, setupTests)
  {
    testOrder := setupTests;
    testOrder := AppendUpfrontTests(args, testOrder);
    testOrder := AppendLuxTests(args, testOrder);
    testOrder := testOrder + ["standby_active_low", "active_low_waketime"];
  }

  /**
   * The appends of get_test_order before the lux loop: every included
   * setting, then the low-backlight test of each included setting run
   * without ABC.
   */
  method AppendUpfrontTests(args: Flags, start: seq<string>) returns (testOrder: seq<string>)
    ensures testOrder == start + Upfront(args)
  {
    testOrder := start + ["default", "brightest"];
    // `planned` is what has been appended to `start` so far.
    ghost var planned: seq<string> := ["default", "brightest"];
    ghost var before := testOrder;
    if args.hdr {
      testOrder := testOrder + ["hdr10"];
    }
    AppendWhen(start, planned, before, testOrder, args.hdr, ["hdr10"]);
    planned, before := planned + When(args.hdr, ["hdr10"]), testOrder;
    if !args.defabc {
      testOrder := testOrder + ["default_low_backlight"];
    }
    AppendWhen(start, planned, before, testOrder, !args.defabc, ["default_low_backlight"]);
    planned, before := planned + When(!args.defabc, ["default_low_backlight"]), testOrder;
    if !args.brabc {
      testOrder := testOrder + ["brightest_low_backlight"];
    }
    AppendWhen(start, planned, before, testOrder, !args.brabc, ["brightest_low_backlight"]);
    planned, before := planned + When(!args.brabc, ["brightest_low_backlight"]), testOrder;
    if args.hdr && !args.hdrabc {
      testOrder := testOrder + ["hdr10_low_backlight"];
    }
    AppendWhen(start, planned, before, testOrder, args.hdr && !args.hdrabc, ["hdr10_low_backlight"]);
    planned := planned + When(args.hdr && !args.hdrabc, ["hdr10_low_backlight"]);
    UpfrontNames(args);
  }

  /** A guarded append extends what has been appended to `start` by `When(c, x)`. */
  lemma AppendWhen(start: seq<string>, planned: seq<string>, before: seq<string>, after: seq<string>,
                   c: bool, x: seq<string>)
    requires before == start + planned
    requires after == if c then before + x else before
    ensures after == start + (planned + When(c, x))
  {
  }

  /**
   * The lux loop of get_test_order: for each lux level in turn, the test of
   * every setting run with ABC, default before brightest before hdr10.
   */
  method AppendLuxTests(args: Flags, start: seq<string>) returns (testOrder: seq<string>)
    ensures testOrder == start + LuxSection(AbcSettings(args), LuxLevels)
  {
    testOrder := start;
    ghost var abcSettings := AbcSettings(args);
    assert LuxSection(abcSettings, LuxLevels[..0]) == [];
    for i := 0 to |LuxLevels|
      invariant testOrder == start + LuxSection(abcSettings, LuxLevels[..i])
    {
      var luxLevel := LuxLevels[i];
      // `level` is what this iteration has appended to `levelStart` so far.
      ghost var levelStart := testOrder;
      if args.defabc {
        testOrder := testOrder + [LuxTest("default", luxLevel)];
      }
      ghost var level := When(args.defabc, [LuxTest("default", luxLevel)]);
      assert testOrder == levelStart + level;
      ghost var before := testOrder;
      if args.brabc {
        testOrder := testOrder + [LuxTest("brightest", luxLevel)];
      }
      AppendWhen(levelStart, level, before, testOrder, args.brabc, [LuxTest("brightest", luxLevel)]);
      level, before := level + When(args.brabc, [LuxTest("brightest", luxLevel)]), testOrder;
      if args.hdr && args.hdrabc {
        testOrder := testOrder + [LuxTest("hdr10", luxLevel)];
      }
      AppendWhen(levelStart, level, before, testOrder, args.hdr && args.hdrabc, [LuxTest("hdr10", luxLevel)]);
      LevelTestsGuards(args, luxLevel);
      LuxSectionSnoc(abcSettings, LuxLevels, i);
      Assoc(start, LuxSection(abcSettings, LuxLevels[..i]), LevelTests(abcSettings, luxLevel));
    }
    assert LuxLevels[..|LuxLevels|] == LuxLevels;
  }

  lemma Assoc<T>(a: seq<T>, b: seq<T>, c: seq<T>)
    ensures a + b + c == a + (b + c)
  {
  }

  // ---------------------------------------------------------------------
  // get_simple_test_order

  /** The lux-level tests of one setting, at each level of `levels` in turn. */
  function LuxTests(s: Setting, levels: seq<nat>): (r: seq<string>)
    ensures |r| == |levels|
  {
    if levels == [] then [] else [LuxTest(Name(s), levels[0])] + LuxTests(s, levels[1..])
  }

  /** The block of one setting in the simple plan: the setting, then its ABC or low-backlight tests. */
  function Block(f: Flags, s: Setting): seq<string> {
    [Name(s)] + if Abc(f, s) then LuxTests(s, LuxLevels) else [LowBacklightName(s)]
  }

  function Blocks(f: Flags, ss: seq<Setting>): seq<string> {
    if ss == [] then [] else Block(f, ss[0]) + Blocks(f, ss[1..])
  }

  /** The tests before the blocks of the simple plan: calibration, then the luminance profile. */
  function SimpleFront(f: Flags): seq<string> {
    SimpleHead + When(f.hdr, ["manual_ccf_hdr"]) + ["lum_profile"]
  }

  /** The simple plan. */
  function SimpleTestOrder(f: Flags): seq<string> {
    SimpleFront(f) + Blocks(f, IncludedSettings(f))
  }

  /** The blocks of the simple plan: default, brightest, then hdr10 when it is included. */
  lemma IncludedBlocks(f: Flags)
    ensures Blocks(f, IncludedSettings(f))
         == Block(f, Default) + Block(f, Brightest) + When(f.hdr, Block(f, Hdr10))
  {
    var tail: seq<Setting> := if f.hdr then [Hdr10] else [];
    assert IncludedSettings(f) == [Default] + [Brightest] + tail;
    BlocksAppend(f, [Default], [Brightest]);
    BlocksAppend(f, [Default] + [Brightest], tail);
    BlocksOne(f, Default);
    BlocksOne(f, Brightest);
    if f.hdr {
      BlocksOne(f, Hdr10);
    }
  }

  lemma BlocksOne(f: Flags, s: Setting)
    ensures Blocks(f, [s]) == Block(f, s)
  {
    assert [s][1..] == [];
  }

  lemma {:induction false} BlocksAppend(f: Flags, a: seq<Setting>, b: seq<Setting>)
    ensures Blocks(f, a + b) == Blocks(f, a) + Blocks(f, b)
  {
    if a != [] {
      assert (a + b)[0] == a[0];
      assert (a + b)[1..] == a[1..] + b;
      BlocksAppend(f, a[1..], b);
      Assoc(Block(f, a[0]), Blocks(f, a[1..]), Blocks(f, b));
    } else {
      assert a + b == b;
    }
  }

  /** The ABC tests of one setting, level by level. */
  lemma LuxTestsAtLevels(s: Setting)
    ensures LuxTests(s, LuxLevels)
         == [LuxTest(Name(s), 100), LuxTest(Name(s), 35), LuxTest(Name(s), 12), LuxTest(Name(s), 3)]
  {
    var levels := LuxLevels;
    assert levels[1..] == [35, 12, 3];
    assert levels[1..][1..] == [12, 3];
    assert levels[1..][1..][1..] == [3];
    assert levels[1..][1..][1..][1..] == [];
  }

  /** The lux-level test names of the default setting, written out. */
  lemma DefaultLuxNames()
    ensures LuxTests(Default, LuxLevels) == ["default_100", "default_35", "default_12", "default_3"]
  {
    LuxTestsAtLevels(Default);
    assert LuxTest("default", 100) == "default_100";
    assert LuxTest("default", 35) == "default_35";
    assert LuxTest("default", 12) == "default_12";
    assert LuxTest("default", 3) == "default_3";
  }

  /** The lux-level test names of the brightest setting, written out. */
  lemma BrightestLuxNames()
    ensures LuxTests(Brightest, LuxLevels) == ["brightest_100", "brightest_35", "brightest_12", "brightest_3"]
  {
    LuxTestsAtLevels(Brightest);
    assert LuxTest("brightest", 100) == "brightest_100";
    assert LuxTest("brightest", 35) == "brightest_35";
    assert LuxTest("brightest", 12) == "brightest_12";
    assert LuxTest("brightest", 3) == "brightest_3";
  }

  /** The lux-level test names of the hdr10 setting, written out. */
  lemma Hdr10LuxNames()
    ensures LuxTests(Hdr10, LuxLevels) == ["hdr10_100", "hdr10_35", "hdr10_12", "hdr10_3"]
  {
    LuxTestsAtLevels(Hdr10);
    assert LuxTest("hdr10", 100) == "hdr10_100";
    assert LuxTest("hdr10", 35) == "hdr10_35";
    assert LuxTest("hdr10", 12) == "hdr10_12";
    assert LuxTest("hdr10", 3) == "hdr10_3";
  }

  /**
   * The block of each setting, with its test names written out as the
   * literal tables of get_simple_test_order give them: the names the
   * f-string of get_test_order renders are the same names.
   */
  lemma DefaultBlockNames(f: Flags)
    ensures Block(f, Default)
         == if f.defabc then ["default", "default_100", "default_35", "default_12", "default_3"]
            else ["default", "default_low_backlight"]
  {
    DefaultLuxNames();
    LowBacklightLiterals();
  }

  lemma BrightestBlockNames(f: Flags)
    ensures Block(f, Brightest)
         == if f.brabc then ["brightest", "brightest_100", "brightest_35", "brightest_12", "brightest_3"]
            else ["brightest", "brightest_low_backlight"]
  {
    BrightestLuxNames();
    LowBacklightLiterals();
  }

  lemma Hdr10BlockNames(f: Flags)
    ensures Block(f, Hdr10)
         == if f.hdrabc then ["hdr10", "hdr10_100", "hdr10_35", "hdr10_12", "hdr10_3"]
            else ["hdr10", "hdr10_low_backlight"]
  {
    Hdr10LuxNames();
    LowBacklightLiterals();
  }

  /**
   * get_simple_test_order: the calibration prefix, the HDR calibration when
   * an HDR setting was named, the luminance profile, then one block per
   * setting chosen from a two-entry table keyed by the setting's ABC switch.
   */
  method GetSimpleTestOrder(args: Flags) returns (testOrder: seq<string>)
    ensures testOrder == SimpleTestOrder(args)
  {
    testOrder := ["screen_config", "stabilization", "manual_ccf_default", "manual_ccf_brightest"];
    if args.hdr {
      testOrder := testOrder + ["manual_ccf_hdr"];
    }
    testOrder := testOrder + ["lum_profile"];
    ghost var front := testOrder;
    assert front == SimpleFront(args);

    var abcDefTests := map[
      true := ["default", "default_100", "default_35", "default_12", "default_3"],
      false := ["default", "default_low_backlight"]];
    DefaultBlockNames(args);
    ghost var before := testOrder;
    testOrder := testOrder + abcDefTests[args.defabc];
    TableAppend(before, testOrder, abcDefTests, args.defabc, Block(args, Default));

    var abcBrTests := map[
      true := ["brightest", "brightest_100", "brightest_35", "brightest_12", "brightest_3"],
      false := ["brightest", "brightest_low_backlight"]];
    BrightestBlockNames(args);
    before := testOrder;
    testOrder := testOrder + abcBrTests[args.brabc];
    TableAppend(before, testOrder, abcBrTests, args.brabc, Block(args, Brightest));

    before := testOrder;
    if args.hdr {
      var abcHdrTests := map[
        true := ["hdr10", "hdr10_100", "hdr10_35", "hdr10_12", "hdr10_3"],
        false := ["hdr10", "hdr10_low_backlight"]];
      Hdr10BlockNames(args);
      ghost var inner := testOrder;
      testOrder := testOrder + abcHdrTests[args.hdrabc];
      TableAppend(inner, testOrder, abcHdrTests, args.hdrabc, Block(args, Hdr10));
    }
    BlocksAppended(front, Block(args, Default), Block(args, Brightest), When(args.hdr, Block(args, Hdr10)),
      testOrder);
    IncludedBlocks(args);
  }

  /** Appending the entry a two-entry table holds for `key` appends `block` when that is the entry. */
  lemma TableAppend(before: seq<string>, after: seq<string>, table: map<bool, seq<string>>, key: bool,
                    block: seq<string>)
    requires true in table && false in table
    requires after == before + table[key]
    requires block == table[key]
    ensures after == before + block
  {
  }

  lemma BlocksAppended(front: seq<string>, d: seq<string>, b: seq<string>, h: seq<string>, r: seq<string>)
    requires r == front + d + b + h
    ensures r == front + (d + b + h)
  {
  }
}
