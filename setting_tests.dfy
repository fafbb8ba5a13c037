/**
 * The tests of one picture setting within a plan. Every test name that
 * belongs to a setting begins with the setting's name ("default",
 * "brightest", "hdr10"), and those three names begin with different
 * letters, so a name belongs to at most one setting. Filtering a plan down
 * to one setting's tests is how both plans are compared below.
 */
module SettingTests {
  import opened TestNames
  import opened MainSequence

  /** A test of setting `s`: its name starts with the setting's name. */
  predicate TestOf(s: Setting, name: string) {
    |name| >= |Name(s)| && name[..|Name(s)|] == Name(s)
  }

  /** The tests of setting `s` in `names`, in their order. */
  function TestsOf(s: Setting, names: seq<string>): seq<string> {
    if names == [] then []
    else (if TestOf(s, names[0]) then [names[0]] else []) + TestsOf(s, names[1..])
  }

  /** No test belongs to two settings. */
  lemma TestOfOne(s: Setting, t: Setting, name: string)
    requires TestOf(s, name) && TestOf(t, name)
    ensures s == t
  {
    assert name[0] == name[..|Name(s)|][0] == name[..|Name(t)|][0];
  }

  /** A name whose first letter starts no setting name is no setting's test. */
  lemma NotTestOf(t: Setting, name: string)
    requires |name| > 0 && name[0] != 'd' && name[0] != 'b' && name[0] != 'h'
    ensures !TestOf(t, name)
  {
  }

  /** Setting names, low-backlight names and lux-level names belong to their own setting only. */
  lemma NamesBelong(s: Setting, t: Setting, lux: nat)
    ensures TestOf(t, Name(s)) <==> s == t
    ensures TestOf(t, LowBacklightName(s)) <==> s == t
    ensures TestOf(t, LuxTest(Name(s), lux)) <==> s == t
  {
    assert TestOf(s, Name(s));
    assert LowBacklightName(s)[..|Name(s)|] == Name(s);
    LuxTestShape(Name(s), lux);
    if TestOf(t, Name(s)) { TestOfOne(s, t, Name(s)); }
    if TestOf(t, LowBacklightName(s)) { TestOfOne(s, t, LowBacklightName(s)); }
    if TestOf(t, LuxTest(Name(s), lux)) { TestOfOne(s, t, LuxTest(Name(s), lux)); }
  }

  // ---------------------------------------------------------------------
  // Filtering

  lemma {:induction false} TestsOfAppend(s: Setting, a: seq<string>, b: seq<string>)
    ensures TestsOf(s, a + b) == TestsOf(s, a) + TestsOf(s, b)
  {
    if a != [] {
      var head := if TestOf(s, a[0]) then [a[0]] else [];
      assert (a + b)[0] == a[0];
      assert (a + b)[1..] == a[1..] + b;
      TestsOfAppend(s, a[1..], b);
      Assoc(head, TestsOf(s, a[1..]), TestsOf(s, b));
    } else {
      assert a + b == b;
    }
  }

  lemma TestsOfConcat3(s: Setting, a: seq<string>, b: seq<string>, c: seq<string>)
    ensures TestsOf(s, a + b + c) == TestsOf(s, a) + TestsOf(s, b) + TestsOf(s, c)
  {
    TestsOfAppend(s, a, b);
    TestsOfAppend(s, a + b, c);
  }

  lemma TestsOfConcat4(s: Setting, a: seq<string>, b: seq<string>, c: seq<string>, d: seq<string>)
    ensures TestsOf(s, a + b + c + d) == TestsOf(s, a) + TestsOf(s, b) + TestsOf(s, c) + TestsOf(s, d)
  {
    TestsOfConcat3(s, a, b, c);
    TestsOfAppend(s, a + b + c, d);
  }

  lemma {:induction false} TestsOfNone(s: Setting, names: seq<string>)
    requires forall k :: 0 <= k < |names| ==> !TestOf(s, names[k])
    ensures TestsOf(s, names) == []
  {
    if names != [] {
      TestsOfNone(s, names[1..]);
    }
  }

  lemma {:induction false} TestsOfAll(s: Setting, names: seq<string>)
    requires forall k :: 0 <= k < |names| ==> TestOf(s, names[k])
    ensures TestsOf(s, names) == names
  {
    if names != [] {
      TestsOfAll(s, names[1..]);
    }
  }

  lemma TestsOfOne(s: Setting, name: string)
    ensures TestsOf(s, [name]) == if TestOf(s, name) then [name] else []
  {
    assert [name][1..] == [];
  }

  lemma TestsOfWhen(s: Setting, c: bool, names: seq<string>)
    ensures TestsOf(s, When(c, names)) == When(c, TestsOf(s, names))
  {
  }

  /** Whatever is left after filtering was in the plan; a test of `s` in the plan survives. */
  lemma {:induction false} TestsOfMembers(s: Setting, names: seq<string>, name: string)
    requires TestOf(s, name)
    ensures name in TestsOf(s, names) <==> name in names
  {
    if names != [] {
      TestsOfMembers(s, names[1..], name);
      assert names == [names[0]] + names[1..];
    }
  }

  // ---------------------------------------------------------------------
  // The lux-level tests of one setting

  lemma {:induction false} LuxTestsAt(s: Setting, levels: seq<nat>, j: nat)
    requires j < |levels|
    ensures LuxTests(s, levels)[j] == LuxTest(Name(s), levels[j])
  {
    if j > 0 {
      LuxTestsAt(s, levels[1..], j - 1);
    }
  }

  /** Adding a level at the end adds that level's test at the end. */
  lemma {:induction false} LuxTestsSnoc(s: Setting, levels: seq<nat>)
    requires levels != []
    ensures LuxTests(s, levels)
         == LuxTests(s, levels[..|levels| - 1]) + [LuxTest(Name(s), levels[|levels| - 1])]
  {
    if |levels| > 1 {
      LuxTestsSnoc(s, levels[1..]);
      assert levels[1..][..|levels| - 2] == levels[..|levels| - 1][1..];
    }
  }

  /** A setting's lux-level tests all belong to it. */
  lemma LuxTestsBelong(s: Setting, levels: seq<nat>)
    ensures forall k :: 0 <= k < |levels| ==> TestOf(s, LuxTests(s, levels)[k])
  {
    forall k | 0 <= k < |levels|
      ensures TestOf(s, LuxTests(s, levels)[k])
    {
      LuxTestsAt(s, levels, k);
      NamesBelong(s, s, levels[k]);
    }
  }

  /** A lux-level test name is never a low-backlight name: it ends in a digit. */
  lemma LowBacklightNotLuxTest(s: Setting, levels: seq<nat>)
    ensures LowBacklightName(s) !in LuxTests(s, levels)
  {
    var low := LowBacklightName(s);
    if low in LuxTests(s, levels) {
      var k :| 0 <= k < |levels| && LuxTests(s, levels)[k] == low;
      LuxTestsAt(s, levels, k);
      LuxTestEndsInDigit(Name(s), levels[k]);
      assert false;
    }
  }

  /** A setting's test at a level in `levels` is among its lux-level tests. */
  lemma LuxTestIn(s: Setting, levels: seq<nat>, lux: nat)
    requires lux in levels
    ensures LuxTest(Name(s), lux) in LuxTests(s, levels)
  {
    var k :| 0 <= k < |levels| && levels[k] == lux;
    LuxTestsAt(s, levels, k);
  }

  // ---------------------------------------------------------------------
  // The lux section of the full plan

  /** No setting listed twice. */
  predicate Distinct(ss: seq<Setting>) {
    forall i, j :: 0 <= i < j < |ss| ==> ss[i] != ss[j]
  }

  /** One level's tests hold the test of `t` at that level exactly when `t` is run with ABC. */
  lemma {:induction false} LevelTestsOf(ss: seq<Setting>, lux: nat, t: Setting)
    requires Distinct(ss)
    ensures TestsOf(t, LevelTests(ss, lux)) == if t in ss then [LuxTest(Name(t), lux)] else []
  {
    if ss != [] {
      var rest := ss[1..];
      assert Distinct(rest);
      LevelTestsOf(rest, lux, t);
      assert LevelTests(ss, lux) == [LuxTest(Name(ss[0]), lux)] + LevelTests(rest, lux);
      TestsOfAppend(t, [LuxTest(Name(ss[0]), lux)], LevelTests(rest, lux));
      TestsOfOne(t, LuxTest(Name(ss[0]), lux));
      NamesBelong(ss[0], t, lux);
      assert ss == [ss[0]] + rest;
      if ss[0] == t {
        assert t !in rest;
      }
    }
  }

  /**
   * The tests of `t` in the lux section are its lux-level tests, level by
   * level, when `t` is run with ABC, and there are none otherwise.
   */
  lemma {:induction false} LuxSectionTestsOf(ss: seq<Setting>, levels: seq<nat>, t: Setting)
    requires Distinct(ss)
    ensures TestsOf(t, LuxSection(ss, levels)) == if t in ss then LuxTests(t, levels) else []
  {
    if levels != [] {
      var init := levels[..|levels| - 1];
      var last := levels[|levels| - 1];
      LuxSectionTestsOf(ss, init, t);
      TestsOfAppend(t, LuxSection(ss, init), LevelTests(ss, last));
      LevelTestsOf(ss, last, t);
      LuxTestsSnoc(t, levels);
    }
  }

  // ---------------------------------------------------------------------
  // The lux section, by position

  lemma {:induction false} LuxSectionLength(ss: seq<Setting>, levels: seq<nat>)
    ensures |LuxSection(ss, levels)| == |levels| * |ss|
  {
    if levels != [] {
      LuxSectionLength(ss, levels[..|levels| - 1]);
      assert |levels| * |ss| == (|levels| - 1) * |ss| + |ss|;
    }
  }

  lemma {:induction false} LevelTestsAt(ss: seq<Setting>, lux: nat, j: nat)
    requires j < |ss|
    ensures LevelTests(ss, lux)[j] == LuxTest(Name(ss[j]), lux)
  {
    if j > 0 {
      LevelTestsAt(ss[1..], lux, j - 1);
    }
  }

  /** Every test of the lux section is the test of one of the settings at one of the levels. */
  lemma {:induction false} LuxSectionElement(ss: seq<Setting>, levels: seq<nat>, k: nat)
    requires k < |LuxSection(ss, levels)|
    ensures exists i, j :: 0 <= i < |levels| && 0 <= j < |ss|
                        && LuxSection(ss, levels)[k] == LuxTest(Name(ss[j]), levels[i])
  {
    var init := levels[..|levels| - 1];
    var n := |init|;
    if k < |LuxSection(ss, init)| {
      LuxSectionElement(ss, init, k);
      var i, j :| 0 <= i < |init| && 0 <= j < |ss| && LuxSection(ss, init)[k] == LuxTest(Name(ss[j]), init[i]);
      assert init[i] == levels[i];
    } else {
      var j := k - |LuxSection(ss, init)|;
      LevelTestsAt(ss, levels[n], j);
    }
  }

  /** The lux section of some levels is that of the first `m` of them, then that of the rest. */
  lemma {:induction false} LuxSectionSplit(ss: seq<Setting>, levels: seq<nat>, m: nat)
    requires m <= |levels|
    ensures LuxSection(ss, levels) == LuxSection(ss, levels[..m]) + LuxSection(ss, levels[m..])
  {
    if |levels| == m {
      assert levels[..m] == levels;
      assert LuxSection(ss, levels[m..]) == [];
    } else {
      var init := levels[..|levels| - 1];
      var last := levels[|levels| - 1];
      LuxSectionSplit(ss, init, m);
      assert init[..m] == levels[..m];
      DropThenInit(levels, m);
      Assoc(LuxSection(ss, levels[..m]), LuxSection(ss, init[m..]), LevelTests(ss, last));
    }
  }

  lemma DropThenInit(levels: seq<nat>, m: nat)
    requires m < |levels|
    ensures var tail := levels[m..];
      && tail[..|tail| - 1] == levels[..|levels| - 1][m..]
      && tail[|tail| - 1] == levels[|levels| - 1]
  {
    var tail := levels[m..];
    var init := levels[..|levels| - 1];
    assert |tail[..|tail| - 1]| == |init[m..]|;
    forall k | 0 <= k < |tail| - 1
      ensures tail[..|tail| - 1][k] == init[m..][k]
    {
      assert tail[k] == levels[m + k] == init[m + k];
    }
  }

  /** Where the test of the `a`-th of `w` settings at the `i`-th level sits in the lux section. */
  function LuxSlot(i: nat, w: nat, a: nat): nat {
    i * w + a
  }

  /**
   * The lux section lists level by level: the test of the `a`-th ABC
   * setting at the `i`-th lux level sits at position `i * w + a`, where `w`
   * is the number of settings run with ABC.
   */
  lemma LuxSectionPosition(ss: seq<Setting>, levels: seq<nat>, i: nat, a: nat)
    requires i < |levels| && a < |ss|
    ensures LuxSlot(i, |ss|, a) < |LuxSection(ss, levels)|
    ensures LuxSection(ss, levels)[LuxSlot(i, |ss|, a)] == LuxTest(Name(ss[a]), levels[i])
  {
    var rest := levels[i..];
    LuxSectionSplit(ss, levels, i);
    LuxSectionSplit(ss, rest, 1);
    assert rest[..1][..0] == [];
    LuxSectionLength(ss, levels[..i]);
    LevelTestsAt(ss, levels[i], a);
    IndexAfter(LuxSection(ss, levels[..i]), LevelTests(ss, rest[0]), LuxSection(ss, rest[1..]), a);
  }

  lemma IndexAfter(p: seq<string>, a: seq<string>, b: seq<string>, j: nat)
    requires j < |a|
    ensures |p| + j < |p + (a + b)|
    ensures (p + (a + b))[|p| + j] == a[j]
  {
  }
}
