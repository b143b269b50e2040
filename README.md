# tsp size report, CLI decisions and test harness — a Dafny model

This project models the computational core of `tsp`, a command-line tool that builds, tests and publishes TypeScript packages:

- **The size report** (`size_report.dfy`, module `SizeReport`). `sizeReport` walks the package's export paths in order. For each path it lists the bundle directory and keeps the script files, those whose first extension lower-cased is `js`. It measures each file as a `[raw, minified, compressed]` triple and sums the triples element-wise into the bundle's `sizes`. The filesystem listing, `statSync`, terser and brotli are an oracle, the `Disk` datatype: one function lists a bundle directory, the other measures one file. Either may fail, and a failure aborts the whole report. `generateSVGs` and `generateTextSVG` become the list of badge files with their exact text. The SVG width is a float computation, so it is a parameter `widthOf`. `generateJSON` becomes the `size-report.json` artefact, proved to decode back to the report.
- **JSON** (`json.dfy`, module `Json`). This is the part of `JSON.stringify` the program relies on: compact output, and string escaping as in section 7 of RFC 8259. A `JObj` lists an object's own keys in property order (integer-like keys first, ascending, then the others in insertion order), which is the order `JSON.stringify` writes them. A decoder for the same text comes with the round trip `Parse(Stringify(v)) == Some(v)`.
- **Byte formatting** (`utils.dfy`, module `Utils`; `numbers.dfy`, module `Numbers`). `naiveHumanFileSize` is modelled with JavaScript's `~~` written out as ToInt32, and with JavaScript's printing of `q / 100` written out as a decimal with at most two fractional digits and no trailing zeros.
- **Command-line decisions** (`cli.dfy`, module `Cli`). This covers three things: the `before` hook's intro guard, the grid of rows the `build` command prints, and the git/npm steps of `publish` for each increment choice, with the commit-message sanitisation.
- **Test harness** (`tests.dfy`, module `TestHarness`). The three module-level counters are the fields of a class `TestRun`, updated by `StartTest`, `It`, `Describe` and `End`. A callback's outcome is the datatype `Outcome` (`Returned` or `Threw`) instead of an exception. The `expect` matchers are functions returning an `Outcome`.
- **Configuration** (`config.dfy`, module `Config`). `getConfig` is the defaults map overridden by the spread of the user package's `tsp` section. The process working directory is a parameter.

Facts about the code that the model keeps:

- Above 1000 bytes the suffix is `kb`, because `'b'` is appended after `'k'` (src/utils.js:49-50).
- The test is `size > 1000`, so 1000 prints as `1000b` (src/utils.js:48).
- Any listing or measuring failure propagates out of `sizeReport` and aborts the whole report (src/commands/size-report.js:58, 76-83).
- `tmp` is deleted only on the success path, because there is no `finally` (src/commands/size-report.js:95-96). The deletion itself is not modelled.
- `process.exit(failed)` leaves the shell the failure count modulo 256 (src/tests.js:13).

## Model

| member | source | states |
|---|---|---|
| `Numbers.NatToString` | src/utils.js:50 | The decimal text of a byte count is non-empty and all digits, starts with `0` only for 0, and is one digit long exactly below 10 |
| `Numbers.NatToStringRoundTrip` | src/utils.js:50 | The printed decimal reads back as the same number, so distinct counts print differently |
| `Numbers.HundredthsText` | src/utils.js:49 | The printing of `q / 100` never ends in `0` or `.` once it has a fractional part (trailing zeros dropped) |
| `Numbers.HundredthsRoundTrip` | src/utils.js:49 | The printing of `q / 100` for `q >= 0` reads back as exactly `q` hundredths |
| `Numbers.SignedHundredthsRoundTrip` | src/utils.js:49 | The same holds for negative `q`, the case `~~` produces after wrapping |
| `Utils.ToInt32` | src/utils.js:49 | `~~` lands in [-2^31, 2^31), is congruent to its argument modulo 2^32, and is the identity inside that range |
| `Utils.HumanFileSize` | src/utils.js:47-51 | Every result ends in `b`, and the letter before it is `k` exactly when the size exceeds 1000 |
| `Utils.HumanFileSizeBytes` | src/utils.js:48-50 | Up to 1000 bytes, the text before `b` is the decimal integer of the size |
| `Utils.KilobyteText` | src/utils.js:49-50 | Above 1000 bytes, the text is the printed hundredths followed by `kb` |
| `Utils.HumanFileSizeKilobytes` | src/utils.js:48-50 | Above 1000 bytes, and while `size / 10 < 2^31`, the printed value `v` satisfies `10v <= size < 10(v + 1)`: it truncates and does not round |
| `Utils.HumanFileSizeWrapped` | src/utils.js:49 | For every size above 1000, the text reads back as `ToInt32(floor(size / 10))` hundredths |
| `Utils.HumanFileSizeWrapsAt` | src/utils.js:49 | At `10 * 2^31` bytes, `~~` wraps and the text is `-21474836.48kb` |
| `Utils.HumanFileSizeWrapsBack` | src/utils.js:49 | At `10 * 2^32` bytes `~~` has wrapped round to 0 and the text is `0kb` |
| `Utils.HumanFileSizeByteExamples` | src/utils.js:47-51 | 999 gives `999b` and 1000 gives `1000b` |
| `Utils.HumanFileSizeKilobyteExamples` | src/utils.js:47-51 | 1001 gives `1kb`, 1100 gives `1.1kb`, 2000 gives `2kb` and 123456 gives `123.45kb` |
| `Config.Defaults` | src/config.js:4-14 | The defaults have exactly the ten keys of the object literal |
| `Config.GetConfig` | src/config.js:2-18 | The keys are the defaults' keys plus the user's keys; every user key takes the user's value; every other default keeps its value |
| `Config.IndexEntries` | src/config.js:16 | Spreading an array or string contributes exactly the keys `"0"`, `"1"`, …, each with its element |
| `Config.MembersToMapLast` | src/config.js:16 | An object's key maps to the value of its last member with that key |
| `Config.MembersToMapKeys` | src/config.js:16 | A key is present exactly when some member of the object has it |
| `Config.TspSection` | src/config.js:16 | A `tsp` section exists exactly when the package is an object with a member keyed `tsp` |
| `Config.Spread` | src/config.js:16 | No section, `null`, a boolean or a number spreads nothing; an array or string spreads its elements under index-named keys |
| `Config.NoUserSettings` | src/config.js:2-16 | With no package, no `tsp` section, or a `null` one, the configuration is exactly the defaults with the given `cwd` |
| `Config.TspOverrides` | src/config.js:16 | Every key of a `tsp` object overrides the default, with its last value |
| `Config.TspKeepsDefaults` | src/config.js:5-16 | A default key that `tsp` does not mention keeps its default value |
| `Config.ConfigCwd` | src/config.js:4-16 | `cwd` is the working directory unless the `tsp` section itself sets `cwd` |
| `Config.TspArraySpread` | src/config.js:16 | An array `tsp` section spreads as index-named settings over the defaults |
| `Json.Stringify` | src/commands/size-report.js:110 | The compact text of any value is non-empty and starts with a character that starts a JSON value; its decoder partner is `Json.ParseStringify` |
| `Json.ParseStringify` | src/commands/size-report.js:110 | The compact text of any JSON value decodes back to that value |
| `Json.RoundTrip` | src/commands/size-report.js:110 | Any value's text, followed by text that may follow a value, decodes to the value and leaves the rest unread |
| `Json.EscapeRoundTrip` | src/commands/size-report.js:110 | A string escaped as in section 7 of RFC 8259 and closed by a quote reads back as the same string |
| `Json.StringifyInjective` | src/tests.js:43 | Two values have the same compact text exactly when they are the same value |
| `SizeReport.LowerCase` | src/commands/size-report.js:60 | The lower-cased extension has the same length and no capital ASCII letter; every capital becomes its lower-case letter (code point + 32) and every other character is kept |
| `SizeReport.IsScript` | src/commands/size-report.js:60 | An entry is kept exactly when it is a file whose first extension is `js` in any letter case |
| `SizeReport.ScriptPaths` | src/commands/size-report.js:59-61 | The filter never yields more paths than entries |
| `SizeReport.ScriptPathsAppend` | src/commands/size-report.js:59-61 | Filtering distributes over concatenation, so listing order is kept |
| `SizeReport.ScriptPathsMembers` | src/commands/size-report.js:59-61 | A path is kept exactly when some script entry of the listing has it |
| `SizeReport.BundleName` | src/commands/size-report.js:62-64 | `.` and `./.` are named `main`; every other name is a suffix of the declaration |
| `SizeReport.BundleNames` | src/commands/size-report.js:62-64 | `.` is named `main`, and `./x` is named `x` (or `main` when `x` is `.`) |
| `SizeReport.BundleNameUnprefixed` | src/commands/size-report.js:62-64 | A declaration without a leading `./`, other than `.`, keeps its name unchanged |
| `SizeReport.Relative` | src/commands/size-report.js:69 | The result is the path itself or the remainder after the root and a `/` |
| `SizeReport.RelativeInside` | src/commands/size-report.js:69 | A file under the dist root is reported by its path relative to that root |
| `SizeReport.SumSizesColumns` | src/commands/size-report.js:86-88 | The running triple equals, in each column i, the sum of the files' `sizes[i]` |
| `SizeReport.MeasureFiles` | src/commands/size-report.js:68-91 | On success there is one file report per path; a failure names one of the paths |
| `SizeReport.Bundle` | src/commands/size-report.js:55-92 | A listing failure is reported for the bundle; on success the bundle has its display name and one file per script entry of its listing |
| `SizeReport.ReportOf` | src/commands/size-report.js:53-98 | On success the report has one bundle per declaration |
| `SizeReport.MeasureFilesAborts` | src/commands/size-report.js:68-91 | Once one file fails to measure, the bundle's result is that failure |
| `SizeReport.ReportAborts` | src/commands/size-report.js:54-93 | Once one bundle fails, the report's result is that failure |
| `SizeReport.MeasureBundle` | src/commands/size-report.js:68-91 | The inner loop yields the measured file list, and on success its running sums equal the element-wise sum of the file triples |
| `SizeReport.SizeReport` | src/commands/size-report.js:48-99 | The outer loop yields exactly the report of the bundle list, or the first failure |
| `SizeReport.MeasureFilesShape` | src/commands/size-report.js:68-91 | Measuring succeeds exactly when every path can be measured, and then gives one report per path, in order, with its relative path and its own triple |
| `SizeReport.BundleShape` | src/commands/size-report.js:55-92 | A bundle carries its display name and one file per script path, in listing order, each with its measured triple, and satisfies the sum invariant |
| `SizeReport.EmptyBundle` | src/commands/size-report.js:63-68 | A directory without script files gives a valid bundle with no files and sizes `[0, 0, 0]` |
| `SizeReport.ReportSucceeds` | src/commands/size-report.js:53-98 | The report exists exactly when every declared bundle can be listed and measured |
| `SizeReport.ReportShape` | src/commands/size-report.js:53-98 | The report has one bundle per declared path, in declaration order |
| `SizeReport.ReportConsistent` | src/commands/size-report.js:53-98 | Every bundle of a report satisfies the sum invariant and carries its declaration's display name |
| `SizeReport.SchemeFill` | src/commands/size-report.js:122 | The fill is `white` exactly for the `dark` scheme and `black` otherwise |
| `SizeReport.TextSvg` | src/commands/size-report.js:115-128 | The badge keeps its file name and is one SVG with the printed width, height 15 and a single text node at `y` 14 holding the text verbatim, in the scheme's fill |
| `SizeReport.SchemePair` | src/commands/size-report.js:136-139 | Each name gets exactly two badges |
| `SizeReport.Badges` | src/commands/size-report.js:132-140 | The bundle badges number two per bundle |
| `SizeReport.BadgesAt` | src/commands/size-report.js:132-140 | Bundle i owns badge 2i, `<name>-light.svg`, and badge 2i+1, `<name>-dark.svg`, both showing its compressed size |
| `SizeReport.WriteSchemes` | src/commands/size-report.js:136-139 | The scheme loop appends the light badge, then the dark badge, to what was written |
| `SizeReport.GenerateSVGs` | src/commands/size-report.js:130-148 | The badges are the per-bundle pairs in report order, then, only when there is more than one bundle, a `total` pair showing the sum of all compressed sizes |
| `SizeReport.FilesJsonRoundTrip` | src/commands/size-report.js:70-73 | The `{path, sizes}` objects of a bundle's files read back as the files |
| `SizeReport.BundlesJsonRoundTrip` | src/commands/size-report.js:63-66 | The `{name, files, sizes}` objects of a report read back as the report |
| `SizeReport.GenerateJSON` | src/commands/size-report.js:107-113 | The artefact is `size-report.json`, and its text decodes back to exactly the report, with keys in the source's order |
| `Cli.Intro` | src/cli.js:22-25 | The intro is shown exactly when the command is not `publish` and `--noIntro` is off; its `noThrow` flag, which lets `showIntroMessage` (src/utils.js:32-36) tolerate a missing package.json, is set exactly for no command or `init` |
| `Cli.IntroPerCommand` | src/cli.js:22-25 | Gives the decision for each registered command and for no command: `init` and no command tolerate a missing package.json, `build` and `test` do not, `publish` shows no intro |
| `Cli.Label` | src/cli.js:106-108 | The label is the bare package name exactly for `main`; otherwise it is the package name, `/`, then the bundle name |
| `Cli.LabelIsPackage` | src/cli.js:106-108 | A bundle row shows the bare package name exactly for declarations that name the `main` bundle; all others show `<package>/<bundle>` |
| `Cli.Glyph` | src/cli.js:116 | The corner glyph marks exactly the last file; every other file gets the tee |
| `Cli.Block` | src/cli.js:100-120 | A bundle's block has two rows plus one row per file |
| `Cli.Blocks` | src/cli.js:100-121 | All blocks together take the sum of the blocks' row counts |
| `Cli.Table` | src/cli.js:89-130 | The grid starts with the header and has one row, plus the blocks' rows, plus two more exactly when there is more than one bundle |
| `Cli.PushFileRows` | src/cli.js:113-120 | The file loop appends one row per file, in file order |
| `Cli.PushBlock` | src/cli.js:100-120 | The `forEach` body appends a blank row, the bundle row, then the file rows |
| `Cli.BuildTable` | src/cli.js:89-130 | The table-building statements, with their running totals, produce exactly the grid of the report |
| `Cli.TableLayout` | src/cli.js:89-121 | The header comes first; each bundle's blank row, bundle row (`sizes[0]` and `sizes[2]`) and file rows follow the earlier bundles, and the last file carries the corner glyph |
| `Cli.BundleRowCells` | src/cli.js:107-111 | A bundle row's size cells print `{b}` and `{c/b}` followed by `Utils.HumanFileSize` of the bundle's `sizes[0]` and `sizes[2]`; `Cli.TableLayout` places that row in the table |
| `Cli.FileRowCells` | src/cli.js:114-118 | A file row's size cells print `{d}` followed by `Utils.HumanFileSize` of the file's `sizes[0]` and `sizes[2]`; `Cli.TableLayout` places those rows in the table |
| `Cli.TableTotals` | src/cli.js:122-130 | The table ends with a blank row and a Total row of the summed raw and compressed sizes exactly when there is more than one bundle |
| `Cli.EmptyBundleBlock` | src/cli.js:113-120 | A bundle with no files shows only its blank row and its bundle row |
| `Cli.Sanitize` | src/cli.js:197 | Every `"` and `'` becomes `'`, every other character is kept, and the length is unchanged |
| `Cli.SanitizeClean` | src/cli.js:197 | A sanitised message has no `"`, and sanitising twice changes nothing more |
| `Cli.Publish` | src/cli.js:192-215 | `skip` runs nothing; `npm version` runs exactly for patch, minor and major; every other choice runs git add, commit and push, in that order, with the sanitised message; `npm publish` runs exactly when the choice is neither `push` nor `skip`; when the package name, the version and the bumped version hold no `"`, no step holds one either |
| `Cli.CommandHead` | src/cli.js:200-204 | The command text before the `-m` argument's opening quote holds no `"` |
| `Cli.MessageArg` | src/cli.js:200-204 | The `-m` argument of a step whose fields hold no `"` holds none either |
| `Cli.CommandLine` | src/cli.js:200-210 | Every step but the two closing notices runs a shell command |
| `Cli.CommandQuotes` | src/cli.js:197-205 | For a step whose fields hold no `"`, the only `"` characters of its command are the two around the `-m` argument, right after the head and at the very end, so nothing in the message closes the argument early; the other commands hold none |
| `TestHarness.CaseLines` | src/tests.js:24-35 | `describe` logs one line per `it` |
| `TestHarness.CasesSplit` | src/tests.js:24-35 | Every case is counted once, as a success or as a failure |
| `TestHarness.SummaryPlural` | src/tests.js:12 | The summary ends in `errors.` exactly when more than one test failed |
| `TestHarness.TestRun.constructor` | src/tests.js:3-5 | The counters start at zero |
| `TestHarness.TestRun.StartTest` | src/tests.js:7-10 | Resets `total`, `success` and `failed` to 0 |
| `TestHarness.TestRun.It` | src/tests.js:24-35 | Adds exactly one to `total`, and one to `success` when the callback returns or to `failed` when it throws; `total == success + failed` is kept |
| `TestHarness.TestRun.Describe` | src/tests.js:19-22 | Logs the name, then runs the cases in order; the counters grow by the numbers of cases, passes and failures |
| `TestHarness.ExitStatus` | src/tests.js:13 | The status the shell sees is below 256, zero exactly when the code is a multiple of 256, and the code itself below 256 |
| `TestHarness.ManyFailuresLookLikeSuccess` | src/tests.js:13 | A run whose failure count is a positive multiple of 256, such as 256, exits with status 0 |
| `TestHarness.TestRun.End` | src/tests.js:11-14 | Keeps `total == success + failed`, logs the summary, calls `process.exit` with the failure count, and the shell sees that count modulo 256; the counters are unchanged |
| `TestHarness.ToBe` | src/tests.js:38-41 | `toBe` returns exactly for equal values other than `NaN`, and throws otherwise |
| `TestHarness.ToBeSymmetric` | src/tests.js:38-41 | `toBe` gives the same outcome with the two values swapped |
| `TestHarness.ToBeTruthy` | src/tests.js:46-49 | `toBeTruthy` throws exactly on the falsy values among the modelled values (`undefined`, `null`, `false`, `0`, `NaN`, `""`) |
| `TestHarness.ToBeFalsy` | src/tests.js:50-53 | `toBeFalsy` passes exactly on the falsy values among the modelled values (`undefined`, `null`, `false`, `0`, `NaN`, `""`) |
| `TestHarness.TruthyFalsy` | src/tests.js:46-53 | Exactly one of `toBeTruthy` and `toBeFalsy` throws |
| `TestHarness.ToEqual` | src/tests.js:42-45 | `toEqual` throws exactly when the two values differ structurally (via the injectivity of `Stringify`) |
| `TestHarness.ToThrowAsWritten` | src/tests.js:54-61 | As written, `toThrow` returns whatever the callback does |
| `TestHarness.ToThrowDiscrepancy` | src/tests.js:54-61 | A callback that returns normally passes `toThrow` as written and fails it as intended |
| `TestHarness.ToThrow` | src/tests.js:54-61 | As intended, `toThrow` throws exactly when the callback returns normally |

## Left out

- Filesystem, terser and brotli: the directory listing, `statSync`, the minifier run and the compressed size are the `Disk` oracle. The writes into the scratch directory, its deletion, and `cleanSizeReports` clearing the reports directory are not modelled. The scratch output path is hard-coded as `tmp/` (src/commands/size-report.js:74), while the deletion uses `config.tmp` (line 95).
- `@zouloux/files` semantics: whether `children('file')` recurses, and what `extensions[0]` is for names with several dots. Both come from the oracle's `Entry` values.
- SizeReport.LowerCase: lower-cases ASCII letters only. No other character lower-cases to `j` or `s`, so the script test is exact.
- SizeReport.Relative: strips the root followed by `/`. It does not normalise `..` or `.` segments as `path.relative` does.
- The SVG width `text.length * 14 * 0.6 + 1` is floating point. It is the parameter `widthOf`, applied to the text length.
- Json.Stringify: numbers are non-negative integers, the only numbers a report holds. Fractional and negative numbers, `undefined` and functions are not modelled.
- TestHarness.ToEqual: compares values in the `Json` datatype only, so it inherits the limits of Json.Stringify. A `JObj` must list its members in property order (integer-like keys first, ascending, then insertion order). Two object literals that differ only in the order of their keys are distinct `Json` values, even when `JSON.stringify` writes them identically: `{a:1, 1:2}` and `{1:2, a:1}` both print as `{"1":2,"a":1}`.
- TestHarness.ToBe: objects are compared by an identity number, and numbers as reals. IEEE floating point is not modelled, and `NaN` is its own value. BigInt values are not modelled, so `0n === 0` being false is not expressed.
- TestHarness.ToBeTruthy: BigInt is not modelled, so the falsy `0n` is outside the contracts of `ToBeTruthy` and `ToBeFalsy`; `-0` is the same value as `0`.
- Utils.HumanFileSize: takes `size / 10` as an exact floor. This is exact for every size below 2^53, the safe integers; larger sizes are not modelled.
- The console output: `nicePrint` markup, colours and the `table()` layout. Cells stay as markup (`Printed`, `PrintedSize`).
- Publish side effects: the `execSync` calls, `npm whoami`, and the version string `npm version` returns (the parameter `bumped`). The model returns the sequence of steps instead of running them.
- The unimported `chalk` on the `npm whoami` error path (src/cli.js:157) is not modelled.
- The order of `Object.keys(userPackage.exports)` (src/cli.js:67) is engine semantics. The bundle list is an input.
- TestHarness.TestRun.Describe: models a `describe` body as the sequence of `it` calls it makes. A body that throws outside an `it`, or nests `describe`, is not modelled. The error printed to standard error and `process.exit` are not modelled; `End` returns the exit code instead.
- Config.GetConfig: the `Json` values of package.json have non-negative integer numbers only; a negative or fractional number is not represented. Spreading a string section gives one entry per Unicode scalar value of the `string`, where JavaScript gives one per UTF-16 code unit, so the two differ for characters outside the Basic Multilingual Plane.
- Cli.CommandLine: the shell's reading of the double-quoted argument is not modelled. Sanitising replaces only `"` and `'`, so a `\`, a `$(…)` or a backtick in the commit message is still interpreted by the shell inside the quotes; `Cli.CommandQuotes` states only that the quotes themselves delimit the argument.
- src/commands/init.js, src/commands/build.js and src/commands/test.js are shell-out and prompt glue. They are not part of this model, and neither are the other I/O helpers of src/utils.js.

## Findings

| source | as written | input that shows it | evidently intended | confidence | as-written member | corrected member |
|---|---|---|---|---|---|---|
| src/tests.js:54-61 | The `Error('Expected function to throw')` raised inside the `try` is caught by the matcher's own `catch`, which returns `true`. | A callback that returns normally: `expect(() => 1).toThrow()` passes. | The matcher throws when the callback returns normally, and passes when it throws. | high (not executed) | `TestHarness.ToThrowAsWritten` | `TestHarness.ToThrow` |
