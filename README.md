# Television QA test plans

`src/main_sequence.py` decides which tests a television calibration and QA
run executes, and in what order. Two builders turn the command-line flags
into an ordered list of test names:

- `get_test_order` starts from the tests `setup_tests` returns. It then lists
  the picture settings `default`, `brightest` and, when an HDR preset was
  named with `--hdr=pps`, `hdr10`. Next comes the low-backlight test of every
  included setting run without automatic brightness control (ABC). The ABC
  tests follow level by level, at 100, 35, 12 and 3 lux. Two standby tests
  close the plan.
- `get_simple_test_order` starts from four calibration tests, adds the HDR
  calibration when an HDR preset was named, then the luminance profile. After
  that it lists one block per setting. A block is the setting's name followed
  by either its four lux-level tests or its low-backlight test, taken from a
  two-entry table keyed by the setting's ABC switch.

The model is in four modules:

- `TestNames` (`test_names.dfy`) renders a lux-level test name as the
  f-string `f'{setting}_{lux}'` does, with a decimal rendering of the level
  that is proved to read back as the level.
- `MainSequence` (`main_sequence.dfy`) holds the flags, the settings and
  both builders. Each builder is an imperative method that appends to a
  sequence as the source does. Each is proved equal to a functional
  specification (`TestOrder`, `SimpleTestOrder`).
- `SettingTests` (`setting_tests.dfy`) gives the tests of one setting within
  a plan (`TestsOf`) and the layout of the lux-level section.
- `PlanProperties` (`plan_properties.dfy`) proves what the plans promise:
  their fixed starts and ends, their lengths, and the level-by-level order of
  the lux tests. It also proves that each setting gets exactly one of its two
  forms, and that both builders give every setting the same tests in the same
  order.

The flags are a record `Flags(hdr, defabc, brabc, hdrabc)`. `hdr` stands for
the truthiness of the `--hdr=pps` string, and the other three are the
`--defabc`, `--brabc` and `--hdrabc` switches. The tests `setup_tests`
returns are a parameter of the full builder, and nothing is assumed about
them.

`get_test_order` is one function in the source. Its appends before the lux
loop (`MainSequence.AppendUpfrontTests`) and its lux loop
(`MainSequence.AppendLuxTests`) are separate methods here. They perform the
same appends in the same order. The split keeps each proof small.

## Model

| member | source | states |
|---|---|---|
| MainSequence.GetTestOrder | src/main_sequence.py:26-60 | the plan is the setup tests, then the upfront tests, then the lux section, then `standby_active_low`, `active_low_waketime` (`TestOrder`) |
| MainSequence.AppendUpfrontTests | src/main_sequence.py:30-38 | appends each included setting's name, then the low-backlight test of each included setting whose ABC switch is off (`Upfront`) |
| MainSequence.AppendLuxTests | src/main_sequence.py:40-46 | appends, for each lux level in turn, the test of each setting run with ABC at that level; after `i` iterations the appended part is the section of the first `i` levels |
| MainSequence.UpfrontNames | src/main_sequence.py:30-38 | the upfront tests are `default`, `brightest`, `hdr10` only with HDR, then `default_low_backlight` without `--defabc`, `brightest_low_backlight` without `--brabc`, and `hdr10_low_backlight` with HDR and without `--hdrabc` |
| MainSequence.AbcSettingsGuards | src/main_sequence.py:41-46 | the settings tested at each lux level are default if `--defabc`, brightest if `--brabc`, hdr10 if HDR and `--hdrabc`, in that order |
| MainSequence.LowBacklightSettingsGuards | src/main_sequence.py:33-38 | the settings given a low-backlight test are default without `--defabc`, brightest without `--brabc`, hdr10 with HDR and without `--hdrabc`, in that order |
| MainSequence.LevelTestsGuards | src/main_sequence.py:41-46 | one iteration of the lux loop appends `default_L`, `brightest_L`, `hdr10_L` under the same three guards, in that order |
| MainSequence.GetSimpleTestOrder | src/main_sequence.py:63-89 | the simple plan is the calibration tests, `manual_ccf_hdr` only with HDR, `lum_profile`, then the block of each included setting (`SimpleTestOrder`) |
| MainSequence.DefaultBlockNames | src/main_sequence.py:71-75 | the default block is `default, default_100, default_35, default_12, default_3` with `--defabc` and `default, default_low_backlight` without it |
| MainSequence.BrightestBlockNames | src/main_sequence.py:77-81 | the brightest block is `brightest` and its four lux tests with `--brabc`, `brightest, brightest_low_backlight` without it |
| MainSequence.Hdr10BlockNames | src/main_sequence.py:83-88 | the hdr10 block is `hdr10` and its four lux tests with `--hdrabc`, `hdr10, hdr10_low_backlight` without it |
| MainSequence.IncludedBlocks | src/main_sequence.py:71-88 | the blocks come in the order default, brightest, then hdr10 only with HDR |
| MainSequence.LuxSectionSnoc | src/main_sequence.py:40-46 | one more level of the loop extends the lux section by that level's tests, at the end |
| TestNames.DecimalRoundTrip | src/main_sequence.py:42 | reading back the decimal rendering of a lux level gives the level |
| TestNames.DecimalStringInjective | src/main_sequence.py:40-46 | different lux levels render differently |
| TestNames.LuxTestShape | src/main_sequence.py:42 | a lux-level test name is the setting name, `_`, and digits that read back as the level |
| TestNames.LuxTestEndsInDigit | src/main_sequence.py:42 | a lux-level test name ends in a digit |
| SettingTests.NamesBelong | src/main_sequence.py:30-46 | a setting's name, low-backlight test and lux-level tests belong to that setting and to no other |
| SettingTests.LuxSectionTestsOf | src/main_sequence.py:40-46 | in the lux section a setting's tests are its tests at 100, 35, 12, 3 lux in that order if it runs with ABC, and none otherwise |
| SettingTests.LuxSectionLength | src/main_sequence.py:40-46 | the lux section has one test per level per setting run with ABC |
| SettingTests.LuxSectionElement | src/main_sequence.py:40-46 | every test of the lux section is the test of a setting run with ABC at one of the levels |
| SettingTests.LuxSectionPosition | src/main_sequence.py:40-46 | the test of the `a`-th setting run with ABC at the `i`-th level sits at position `i * w + a`, `w` being the number of settings run with ABC |
| PlanProperties.AbcSettingsMembers | src/main_sequence.py:33-46 | a setting is tested at each level iff it is included with its ABC switch on, and gets a low-backlight test iff it is included with the switch off; neither list repeats a setting |
| PlanProperties.UpfrontTestsOf | src/main_sequence.py:30-38 | before the lux loop a setting gets its name iff it is included, and its low-backlight test iff it is included without ABC |
| PlanProperties.PlannedTestsOf | src/main_sequence.py:30-59 | after the setup tests, the tests of a setting are its name and then either its four lux tests or its low-backlight test, if it is included, and none otherwise |
| PlanProperties.OneFormPerSetting | src/main_sequence.py:33-46 | after the setup tests a setting's name is present iff it is included; its low-backlight test iff it is included without ABC; each of its lux tests iff it is included with ABC |
| PlanProperties.SamePerSettingTests | src/main_sequence.py:26-89 | both builders give every setting the same tests in the same order (the full plan counted after its setup tests) |
| PlanProperties.TestOrderStart | src/main_sequence.py:28-32 | the full plan starts with the setup tests unchanged, then `default`, `brightest`, and `hdr10` is next iff an HDR preset was named |
| PlanProperties.TestOrderEnd | src/main_sequence.py:48-59 | the full plan ends with `standby_active_low`, `active_low_waketime` |
| PlanProperties.TestOrderLength | src/main_sequence.py:28-59 | the full plan has (number of setup tests) + 2 + [hdr] + (defabc ? 4 : 1) + (brabc ? 4 : 1) + (hdr ? (hdrabc ? 4 : 1) : 0) + 2 tests |
| PlanProperties.TestOrderLuxPosition | src/main_sequence.py:40-46 | in the full plan the lux tests follow the upfront tests level by level (100, 35, 12, 3) and, within a level, default before brightest before hdr10 |
| PlanProperties.SimpleTestOrderLayout | src/main_sequence.py:65-88 | the simple plan begins with `screen_config, stabilization, manual_ccf_default, manual_ccf_brightest`, then `manual_ccf_hdr` with HDR, then `lum_profile`, then the default, brightest and (with HDR) hdr10 blocks |
| PlanProperties.SimpleTestOrderLength | src/main_sequence.py:65-88 | the simple plan has 5 + [hdr] + (defabc ? 5 : 2) + (brabc ? 5 : 2) + (hdr ? (hdrabc ? 5 : 2) : 0) tests |
| PlanProperties.SimpleTestsOf | src/main_sequence.py:69-88 | in the simple plan the tests of a setting are its block if it is included and none otherwise |
| PlanProperties.SimpleCalibrationIffHdr | src/main_sequence.py:66-67 | `manual_ccf_hdr` is in the simple plan iff an HDR preset was named |
| PlanProperties.SimpleHdr10TestsIffHdr | src/main_sequence.py:83-88 | the simple plan holds a test of the HDR setting only if an HDR preset was named, and then every test of the hdr10 block |
| PlanProperties.HdrAbcIgnoredWithoutHdr | src/main_sequence.py:83-88 | without an HDR preset, `--hdrabc` changes neither plan (both builders read it only under the `--hdr` guard, lines 37, 45 and 83) |

## Left out

- `main` in `src/main_sequence.py` is left out. It sets up logging and picks the builder by whether `simple.txt` exists (line 100). It parses `--qsoff` as a float (line 114) and hands the plan to `core.sequence`, `core.report` and `core.logfuncs`. All of this is I/O or calls into code that is not part of this model.
- `setup_tests`, `create_test_seq_df`, `create_command_df`, `save_sequences` and `get_status_df` are not part of this model. The tests `setup_tests` returns are a parameter of the full builder.
- `MainSequence.GetTestOrder`: Python's `+=` extends the list that `setup_tests` returned in place. The model treats that list as a value, so it does not capture that the caller's list is changed as well.
- The `--hdr=pps` option is a string in the source and is only tested for truthiness here. The model keeps only that truth value, so the preset name itself plays no part.
- `src/ccf.py` (`get_trendline`, `get_final_trendline` and its `main`) is not part of this model. It is floating-point curve fitting through `scipy.optimize.minimize`, with CSV reading and writing.
- `test_tv_test_sequence.py` tests a different module, `tv_test_sequence`, which is not part of this model.
