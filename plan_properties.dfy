/**
 * What the two plans promise: their fixed beginnings and ends, their
 * lengths, the order of the lux-level tests, which tests each picture
 * setting gets, and that both plans give every setting the same tests.
 */
module PlanProperties {
  import opened TestNames
  import opened MainSequence
  import opened SettingTests

  // ---------------------------------------------------------------------
  // Which settings are tested, and how

  lemma IncludedSettingsMembers(f: Flags, t: Setting)
    ensures t in IncludedSettings(f) <==> Included(f, t)
    ensures Distinct(IncludedSettings(f))
  {
  }

  lemma {:induction false} SettingsWhereMembers(f: Flags, ss: seq<Setting>, abc: bool, t: Setting)
    ensures t in SettingsWhere(f, ss, abc) <==> t in ss && Abc(f, t) == abc
  {
    if ss != [] {
      SettingsWhereMembers(f, ss[1..], abc, t);
      assert ss == [ss[0]] + ss[1..];
    }
  }

  lemma {:induction false} SettingsWhereDistinct(f: Flags, ss: seq<Setting>, abc: bool)
    requires Distinct(ss)
    ensures Distinct(SettingsWhere(f, ss, abc))
  {
    if ss != [] {
      var rest := SettingsWhere(f, ss[1..], abc);
      SettingsWhereDistinct(f, ss[1..], abc);
      if Abc(f, ss[0]) == abc {
        SettingsWhereMembers(f, ss[1..], abc, ss[0]);
        assert ss[0] !in ss[1..];
        var r := [ss[0]] + rest;
        forall i, j | 0 <= i < j < |r|
          ensures r[i] != r[j]
        {
          if i == 0 {
            assert r[j] == rest[j - 1];
          } else {
            assert r[i] == rest[i - 1] && r[j] == rest[j - 1];
          }
        }
      }
    }
  }

  /** A setting is tested at each lux level exactly when it is included and its ABC switch is on. */
  lemma AbcSettingsMembers(f: Flags, t: Setting)
    ensures Distinct(AbcSettings(f)) && Distinct(LowBacklightSettings(f))
    ensures t in AbcSettings(f) <==> Included(f, t) && Abc(f, t)
    ensures t in LowBacklightSettings(f) <==> Included(f, t) && !Abc(f, t)
  {
    IncludedSettingsMembers(f, t);
    SettingsWhereMembers(f, IncludedSettings(f), true, t);
    SettingsWhereMembers(f, IncludedSettings(f), false, t);
    SettingsWhereDistinct(f, IncludedSettings(f), true);
    SettingsWhereDistinct(f, IncludedSettings(f), false);
  }

  // ---------------------------------------------------------------------
  // The tests of each setting, plan by plan

  lemma {:induction false} NamesTestsOf(ss: seq<Setting>, t: Setting)
    requires Distinct(ss)
    ensures TestsOf(t, Names(ss)) == if t in ss then [Name(t)] else []
  {
    if ss != [] {
      var rest := ss[1..];
      assert Distinct(rest);
      NamesTestsOf(rest, t);
      TestsOfAppend(t, [Name(ss[0])], Names(rest));
      TestsOfOne(t, Name(ss[0]));
      NamesBelong(ss[0], t, 0);
      assert ss == [ss[0]] + rest;
      if ss[0] == t {
        assert t !in rest;
      }
    }
  }

  lemma {:induction false} LowBacklightNamesTestsOf(ss: seq<Setting>, t: Setting)
    requires Distinct(ss)
    ensures TestsOf(t, LowBacklightNames(ss)) == if t in ss then [LowBacklightName(t)] else []
  {
    if ss != [] {
      var rest := ss[1..];
      assert Distinct(rest);
      LowBacklightNamesTestsOf(rest, t);
      TestsOfAppend(t, [LowBacklightName(ss[0])], LowBacklightNames(rest));
      TestsOfOne(t, LowBacklightName(ss[0]));
      NamesBelong(ss[0], t, 0);
      assert ss == [ss[0]] + rest;
      if ss[0] == t {
        assert t !in rest;
      }
    }
  }

  /** Every test of a setting's simple-plan block is a test of that setting. */
  lemma BlockBelongs(f: Flags, s: Setting)
    ensures forall k :: 0 <= k < |Block(f, s)| ==> TestOf(s, Block(f, s)[k])
  {
    var block := Block(f, s);
    LuxTestsBelong(s, LuxLevels);
    NamesBelong(s, s, 0);
    forall k | 0 <= k < |block|
      ensures TestOf(s, block[k])
    {
      if k > 0 && Abc(f, s) {
        assert block[k] == LuxTests(s, LuxLevels)[k - 1];
      }
    }
  }

  /** A setting's block holds its own tests, and no other setting's. */
  lemma BlockTestsOf(f: Flags, s: Setting, t: Setting)
    ensures TestsOf(t, Block(f, s)) == if s == t then Block(f, s) else []
  {
    var block := Block(f, s);
    BlockBelongs(f, s);
    if s == t {
      TestsOfAll(t, block);
    } else {
      forall k | 0 <= k < |block|
        ensures !TestOf(t, block[k])
      {
        if TestOf(t, block[k]) {
          TestOfOne(s, t, block[k]);
        }
      }
      TestsOfNone(t, block);
    }
  }

  /** The calibration tests and the luminance profile belong to no setting. */
  lemma SimpleFrontTestsOf(f: Flags, t: Setting)
    ensures TestsOf(t, SimpleFront(f)) == []
  {
    var front := SimpleFront(f);
    if f.hdr {
      assert front == ["screen_config", "stabilization", "manual_ccf_default", "manual_ccf_brightest",
                       "manual_ccf_hdr", "lum_profile"];
    } else {
      assert front == ["screen_config", "stabilization", "manual_ccf_default", "manual_ccf_brightest",
                       "lum_profile"];
    }
    forall k | 0 <= k < |front|
      ensures !TestOf(t, front[k])
    {
      NotTestOf(t, front[k]);
    }
    TestsOfNone(t, front);
  }

  /** The standby tests belong to no setting. */
  lemma StandbyTestsOf(t: Setting)
    ensures TestsOf(t, Standby) == []
  {
    forall k | 0 <= k < |Standby|
      ensures !TestOf(t, Standby[k])
    {
      NotTestOf(t, Standby[k]);
    }
    TestsOfNone(t, Standby);
  }

  /** The simple plan is its front, then the blocks of default, brightest and (with HDR) hdr10. */
  lemma SimpleTestOrderBlocks(f: Flags)
    ensures SimpleTestOrder(f)
         == SimpleFront(f) + Block(f, Default) + Block(f, Brightest) + When(f.hdr, Block(f, Hdr10))
  {
    IncludedBlocks(f);
    var front, d, b, h := SimpleFront(f), Block(f, Default), Block(f, Brightest), When(f.hdr, Block(f, Hdr10));
    Assoc(front, d + b, h);
    Assoc(front, d, b);
  }

  /**
   * In the simple plan the tests of a setting are its block, in order, when
   * the setting is included, and there are none otherwise.
   */
  lemma SimpleTestsOf(f: Flags, t: Setting)
    ensures TestsOf(t, SimpleTestOrder(f)) == When(Included(f, t), Block(f, t))
  {
    SimpleTestOrderBlocks(f);
    TestsOfConcat4(t, SimpleFront(f), Block(f, Default), Block(f, Brightest), When(f.hdr, Block(f, Hdr10)));
    SimpleFrontTestsOf(f, t);
    BlockTestsOf(f, Default, t);
    BlockTestsOf(f, Brightest, t);
    BlockTestsOf(f, Hdr10, t);
    TestsOfWhen(t, f.hdr, Block(f, Hdr10));
    BlocksCombine(t, f.hdr, Block(f, Default), Block(f, Brightest), Block(f, Hdr10));
  }

  /** Exactly one of the three blocks survives filtering down to one setting. */
  lemma BlocksCombine(t: Setting, hdr: bool, d: seq<string>, b: seq<string>, h: seq<string>)
    ensures [] + (if Default == t then d else []) + (if Brightest == t then b else [])
              + When(hdr, if Hdr10 == t then h else [])
         == When(t != Hdr10 || hdr, match t case Default => d case Brightest => b case Hdr10 => h)
  {
  }

  /** The tests the full plan adds to the setup tests. */
  function Planned(f: Flags, setupTests: seq<string>): seq<string>
    requires |setupTests| <= |TestOrder(f, setupTests)|
  {
    TestOrder(f, setupTests)[|setupTests|..]
  }

  lemma PlannedParts(f: Flags, setupTests: seq<string>)
    ensures |setupTests| <= |TestOrder(f, setupTests)|
    ensures Planned(f, setupTests) == Upfront(f) + LuxSection(AbcSettings(f), LuxLevels) + Standby
  {
    DropPrefix(setupTests, Upfront(f), LuxSection(AbcSettings(f), LuxLevels), Standby);
  }

  lemma DropPrefix(p: seq<string>, a: seq<string>, b: seq<string>, c: seq<string>)
    ensures |p| <= |p + a + b + c|
    ensures (p + a + b + c)[|p|..] == a + b + c
  {
    assert p + a + b + c == p + (a + b + c);
  }

  /** Before the lux loop a setting gets its name and, without ABC, its low-backlight test. */
  lemma UpfrontTestsOf(f: Flags, t: Setting)
    ensures TestsOf(t, Upfront(f))
         == When(Included(f, t), [Name(t)]) + When(Included(f, t) && !Abc(f, t), [LowBacklightName(t)])
  {
    AbcSettingsMembers(f, t);
    IncludedSettingsMembers(f, t);
    NamesTestsOf(IncludedSettings(f), t);
    LowBacklightNamesTestsOf(LowBacklightSettings(f), t);
    TestsOfAppend(t, Names(IncludedSettings(f)), LowBacklightNames(LowBacklightSettings(f)));
  }

  /**
   * In the full plan, after the setup tests, the tests of a setting are
   * exactly its simple-plan block: its name, then either its lux-level
   * tests or its low-backlight test, when the setting is included, and
   * nothing otherwise.
   */
  lemma {:induction false} PlannedTestsOf(f: Flags, setupTests: seq<string>, t: Setting)
    ensures |setupTests| <= |TestOrder(f, setupTests)|
    ensures TestsOf(t, Planned(f, setupTests)) == When(Included(f, t), Block(f, t))
  {
    PlannedParts(f, setupTests);
    TestsOfConcat3(t, Upfront(f), LuxSection(AbcSettings(f), LuxLevels), Standby);
    StandbyTestsOf(t);
    UpfrontTestsOf(f, t);
    AbcSettingsMembers(f, t);
    LuxSectionTestsOf(AbcSettings(f), LuxLevels, t);
    FormsCombine(Included(f, t), Abc(f, t), Name(t), LowBacklightName(t), LuxTests(t, LuxLevels));
  }

  /** The name, the low-backlight test and the lux-level tests, put together as one block. */
  lemma FormsCombine(included: bool, abc: bool, name: string, low: string, lux: seq<string>)
    ensures When(included, [name]) + When(included && !abc, [low])
          + (if included && abc then lux else []) + []
         == When(included, [name] + if abc then lux else [low])
  {
  }

  /** Both plans give every setting the same tests in the same order. */
  lemma SamePerSettingTests(f: Flags, setupTests: seq<string>, t: Setting)
    ensures |setupTests| <= |TestOrder(f, setupTests)|
    ensures TestsOf(t, Planned(f, setupTests)) == TestsOf(t, SimpleTestOrder(f))
  {
    PlannedTestsOf(f, setupTests, t);
    SimpleTestsOf(f, t);
  }

  /** A lux-level test of a setting is in its simple-plan block exactly when the setting runs with ABC. */
  lemma LuxTestInBlock(f: Flags, t: Setting, lux: nat)
    requires lux in LuxLevels
    ensures LuxTest(Name(t), lux) in Block(f, t) <==> Abc(f, t)
  {
    LuxTestIn(t, LuxLevels, lux);
    LuxTestIsNoOtherName(t, lux);
  }

  /** A lux-level test is neither the setting's own test nor its low-backlight test. */
  lemma LuxTestIsNoOtherName(t: Setting, lux: nat)
    ensures LuxTest(Name(t), lux) != Name(t)
    ensures LuxTest(Name(t), lux) != LowBacklightName(t)
  {
    var name := LuxTest(Name(t), lux);
    LuxTestShape(Name(t), lux);
    LuxTestEndsInDigit(Name(t), lux);
    var low := LowBacklightName(t);
    assert low[|low| - 1] == 't';
  }

  /** The low-backlight test of a setting is in its simple-plan block exactly when it runs without ABC. */
  lemma LowBacklightInBlock(f: Flags, t: Setting)
    ensures LowBacklightName(t) in Block(f, t) <==> !Abc(f, t)
  {
    LowBacklightNotLuxTest(t, LuxLevels);
  }

  /**
   * Each setting gets exactly one of its two forms in the full plan: the
   * low-backlight test when it is included without ABC, its test at every
   * lux level when it is included with ABC, and neither when it is left out.
   */
  lemma OneFormPerSetting(f: Flags, setupTests: seq<string>, t: Setting)
    ensures |setupTests| <= |TestOrder(f, setupTests)|
    ensures Name(t) in Planned(f, setupTests) <==> Included(f, t)
    ensures LowBacklightName(t) in Planned(f, setupTests) <==> Included(f, t) && !Abc(f, t)
    ensures forall lux :: lux in LuxLevels ==>
              (LuxTest(Name(t), lux) in Planned(f, setupTests) <==> Included(f, t) && Abc(f, t))
  {
    var planned := Planned(f, setupTests);
    PlannedTestsOf(f, setupTests, t);
    NamesBelong(t, t, 0);
    TestsOfMembers(t, planned, Name(t));
    TestsOfMembers(t, planned, LowBacklightName(t));
    LowBacklightInBlock(f, t);
    forall lux | lux in LuxLevels
      ensures LuxTest(Name(t), lux) in planned <==> Included(f, t) && Abc(f, t)
    {
      NamesBelong(t, t, lux);
      TestsOfMembers(t, planned, LuxTest(Name(t), lux));
      LuxTestInBlock(f, t, lux);
    }
  }

  // ---------------------------------------------------------------------
  // get_simple_test_order: layout and length

  /** The length of one setting's block in the simple plan. */
  function BlockLength(abc: bool): nat {
    if abc then 5 else 2
  }

  /** The simple plan opens with the four calibration tests, then lum_profile and the blocks. */
  lemma SimpleTestOrderLayout(f: Flags)
    ensures var r := SimpleTestOrder(f);
      var h := 4 + Count(f.hdr);
      && |r| > h
      && r[..4] == ["screen_config", "stabilization", "manual_ccf_default", "manual_ccf_brightest"]
      && (f.hdr ==> r[4] == "manual_ccf_hdr")
      && r[h] == "lum_profile"
      && r[h + 1..] == Block(f, Default) + Block(f, Brightest) + When(f.hdr, Block(f, Hdr10))
  {
    var r := SimpleTestOrder(f);
    var h := 4 + Count(f.hdr);
    var front := SimpleFront(f);
    IncludedBlocks(f);
    assert r == front + Blocks(f, IncludedSettings(f));
    assert |front| == h + 1;
    assert r[h + 1..] == Blocks(f, IncludedSettings(f));
  }

  /** How long the simple plan is. */
  lemma SimpleTestOrderLength(f: Flags)
    ensures |SimpleTestOrder(f)|
         == 5 + Count(f.hdr) + BlockLength(f.defabc) + BlockLength(f.brabc)
          + (if f.hdr then BlockLength(f.hdrabc) else 0)
  {
    SimpleTestOrderLayout(f);
    DefaultBlockNames(f);
    BrightestBlockNames(f);
    Hdr10BlockNames(f);
    var r := SimpleTestOrder(f);
    var h := 4 + Count(f.hdr);
    assert |r| == h + 1 + |r[h + 1..]|;
  }

  /** The simple plan holds the HDR calibration exactly when an HDR setting was named. */
  lemma SimpleCalibrationIffHdr(f: Flags)
    ensures "manual_ccf_hdr" in SimpleTestOrder(f) <==> f.hdr
  {
    SimpleTestOrderBlocks(f);
    var name := "manual_ccf_hdr";
    forall s: Setting
      ensures name !in Block(f, s)
    {
      BlockBelongs(f, s);
      if name in Block(f, s) {
        var k :| 0 <= k < |Block(f, s)| && Block(f, s)[k] == name;
        NotTestOf(s, name);
      }
    }
    assert name in SimpleFront(f) <==> f.hdr;
  }

  /** The simple plan holds a test of the HDR setting only when one was named, and then its whole block. */
  lemma SimpleHdr10TestsIffHdr(f: Flags)
    ensures forall k :: 0 <= k < |SimpleTestOrder(f)| && TestOf(Hdr10, SimpleTestOrder(f)[k]) ==> f.hdr
    ensures f.hdr ==> forall name :: name in Block(f, Hdr10) ==> name in SimpleTestOrder(f)
  {
    var r := SimpleTestOrder(f);
    SimpleTestsOf(f, Hdr10);
    BlockBelongs(f, Hdr10);
    forall k | 0 <= k < |r| && TestOf(Hdr10, r[k])
      ensures f.hdr
    {
      TestsOfMembers(Hdr10, r, r[k]);
    }
    forall name | f.hdr && name in Block(f, Hdr10)
      ensures name in r
    {
      TestsOfMembers(Hdr10, r, name);
    }
  }

  // ---------------------------------------------------------------------
  // get_test_order: layout, length and the order of the lux-level tests

  /** The setup tests come first, unchanged, then default, brightest and, with HDR, hdr10. */
  lemma TestOrderStart(f: Flags, setupTests: seq<string>)
    ensures var r := TestOrder(f, setupTests);
      var n := |setupTests|;
      && |r| > n + 2
      && r[..n] == setupTests
      && r[n] == "default" && r[n + 1] == "brightest"
      && (r[n + 2] == "hdr10" <==> f.hdr)
  {
    var n := |setupTests|;
    PlannedParts(f, setupTests);
    var planned := Planned(f, setupTests);
    PlanSplit(setupTests, Upfront(f), LuxSection(AbcSettings(f), LuxLevels), Standby);
    UpfrontStart(f);
    if !f.hdr {
      // no test of the HDR setting is planned, and "hdr10" would be one
      PlannedTestsOf(f, setupTests, Hdr10);
      NamesBelong(Hdr10, Hdr10, 0);
      TestsOfMembers(Hdr10, planned, "hdr10");
      assert planned[2] in planned;
    }
  }

  /** The upfront tests open with default, brightest and, with HDR, hdr10. */
  lemma UpfrontStart(f: Flags)
    ensures |Upfront(f)| >= 2 + Count(f.hdr)
    ensures Upfront(f)[0] == "default" && Upfront(f)[1] == "brightest"
    ensures f.hdr ==> Upfront(f)[2] == "hdr10"
  {
    IncludedNames(f);
  }

  /** A plan is its prefix followed by the rest, and no longer than both. */
  lemma PlanSplit(p: seq<string>, a: seq<string>, b: seq<string>, c: seq<string>)
    ensures var r := p + a + b + c;
      && |r| == |p| + |a| + |b| + |c|
      && r[..|p|] == p
      && (forall i :: 0 <= i < |a| + |b| + |c| ==> r[|p| + i] == (a + b + c)[i])
  {
  }

  /** The full plan always ends with the two standby tests. */
  lemma TestOrderEnd(f: Flags, setupTests: seq<string>)
    ensures var r := TestOrder(f, setupTests);
      |r| >= 2 && r[|r| - 2..] == ["standby_active_low", "active_low_waketime"]
  {
  }

  /** The number of tests a setting gets after its name in the full plan. */
  function FormLength(abc: bool): nat {
    if abc then 4 else 1
  }

  /** How long the full plan is. */
  lemma TestOrderLength(f: Flags, setupTests: seq<string>)
    ensures |TestOrder(f, setupTests)|
         == |setupTests| + 2 + Count(f.hdr) + FormLength(f.defabc) + FormLength(f.brabc)
          + (if f.hdr then FormLength(f.hdrabc) else 0) + 2
  {
    AbcSettingsGuards(f);
    LowBacklightSettingsGuards(f);
    LuxSectionLength(AbcSettings(f), LuxLevels);
  }

  /**
   * The lux-level tests follow the upfront tests level by level, 100, 35,
   * 12, 3: the test of the `a`-th setting run with ABC (default before
   * brightest before hdr10) at the `i`-th level sits at `i * w + a` past
   * them, `w` being the number of settings run with ABC.
   */
  lemma TestOrderLuxPosition(f: Flags, setupTests: seq<string>, i: nat, a: nat)
    requires i < |LuxLevels| && a < |AbcSettings(f)|
    ensures |setupTests| + |Upfront(f)| + LuxSlot(i, |AbcSettings(f)|, a) < |TestOrder(f, setupTests)|
    ensures TestOrder(f, setupTests)[|setupTests| + |Upfront(f)| + LuxSlot(i, |AbcSettings(f)|, a)]
         == LuxTest(Name(AbcSettings(f)[a]), LuxLevels[i])
  {
    var ss := AbcSettings(f);
    LuxSectionPosition(ss, LuxLevels, i, a);
    IndexInThird(setupTests, Upfront(f), LuxSection(ss, LuxLevels), Standby, LuxSlot(i, |ss|, a));
  }

  lemma IndexInThird(p: seq<string>, a: seq<string>, b: seq<string>, c: seq<string>, j: nat)
    requires j < |b|
    ensures |p| + |a| + j < |p + a + b + c|
    ensures (p + a + b + c)[|p| + |a| + j] == b[j]
  {
  }

  // ---------------------------------------------------------------------
  // Both plans

  /** --hdrabc changes neither plan when no HDR setting was named. */
  lemma HdrAbcIgnoredWithoutHdr(f: Flags, setupTests: seq<string>)
    requires !f.hdr
    ensures SimpleTestOrder(f.(hdrabc := true)) == SimpleTestOrder(f.(hdrabc := false))
    ensures TestOrder(f.(hdrabc := true), setupTests) == TestOrder(f.(hdrabc := false), setupTests)
  {
    var t, u := f.(hdrabc := true), f.(hdrabc := false);
    IncludedBlocks(t);
    IncludedBlocks(u);
    UpfrontNames(t);
    UpfrontNames(u);
    AbcSettingsGuards(t);
    AbcSettingsGuards(u);
  }
}
