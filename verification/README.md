# flagcfg in Dafny

A model of the Go package `flagcfg`, which fills command-line flags from a
TOML configuration file. It has two parts.

- **The coercion engine `ParseSet`.**
  - It records which flags the user already set on the command line.
  - It decodes the TOML data into a table.
  - It visits every registered flag in name order. A flag the user did not set is looked up under its name with each `.` and `-` turned into `_`.
  - The configured value is rendered as text and passed to the flag's own `Set`. The flag's `Get` result type selects how: string, duration, float64, int/int64, uint/uint64, bool, a `flag.Value`, or anything else.
  - The first failure is latched, and every later flag is skipped.
  - A configured value of the wrong type fails an unchecked Go type assertion, which panics. So does a flag without `flag.Getter`.
- **The configuration-file locator.** This is an ordered list of candidate paths that only grows. It comes twice: the package globals (`AddFile`, `FindConfig`, `Parse`, `Filename`, `AddDefaults`, `AddDefaultFiles`) and the `Locator` type.
  - `FindConfig` returns the first candidate that exists.
  - `AddDefaultFiles` appends up to seven candidates in a fixed priority order:
    1. the file named by an environment variable;
    2. the working directory;
    3. `$HOME/.config/<exe>`;
    4. a `bin`→`etc` sibling of the executable's directory;
    5. `/etc/<exe>`;
    6. `/etc`;
    7. the executable's own directory.
  - `AddDefaults` derives the variable `<EXE>_CONFIG` and the file `<exe>.config` from the executable's name.

Files:

- `optional.dfy`: the `Option` type.
- `decimal.dfy`: the base-10 and boolean rendering (`strconv.FormatInt`/`FormatUint`/`FormatBool`) and the parsers the standard flags' `Set` uses to read them back.
- `search.dfy`: the logic both locator copies share.
  - `getExePath` splitting.
  - The default candidate list, given as a specification function with the imperative appender proved against it.
  - The `FindConfig` loop.
- `locator.dfy`: the `Locator` class.
- `flagcfg.dfy`: the engine and the package globals.
  - `ParseSet` as a method over a `FlagSet` class, proved equal to the specification `ParseSetSpec`/`Run`, with lemmas about that specification.
  - The globals as the class `Package`.
- `scenarios.dfy`: concrete runs.
  - The test file's `TestTypes` as a whole.
  - A quoted number given to an int flag.
  - A latched failure.
  - A negative value given to an unsigned flag.
  - The search order.

The host is passed in as parameters: `Host` for the locator, and `Externals` plus a `statOk` predicate and a `readFile` function for the engine and `Parse`. That covers the program arguments, `exec.LookPath`, `filepath.Abs`, `os.Getenv`, `os.Getwd`, `filepath.Join`, `os.Stat`, `ioutil.ReadFile`, the TOML decoder, `strconv.FormatFloat`, the float and duration parsers, and user-defined `Set` methods.

## Model

| member | source | states |
|---|---|---|
| Decimal.ToUint64 | flagcfg.go:70 | `uint64(v)` of an int64 is `v mod 2^64`, and lies above INT64_MAX exactly when `v` is negative |
| Decimal.ParseBool | flagcfg.go:71-72 | the bool flag's parser succeeds exactly on the twelve spellings strconv accepts, and yields true only on success |
| Decimal.ParseFormatInt | flagcfg.go:67-68 | the int flag's parser reads the base-10 rendering of any int64 back to that int64, without error |
| Decimal.ParseFormatUint | flagcfg.go:69-70 | the uint flag's parser reads the base-10 rendering of any uint64 back to it, without error |
| Decimal.ParseFormatBool | flagcfg.go:71-72 | the bool flag's parser reads "true"/"false" back to the boolean, without error |
| Search.IndexOfSpec | flagcfg.go:182-183 | `strings.Index` finds an occurrence of the pattern, and no occurrence starts before it; -1 only when there is none |
| Search.ContainsSpec | flagcfg.go:182 | `strings.Contains` holds exactly when the pattern occurs at some position |
| Search.ReplaceFirst | locator.go:106 | `strings.Replace(s, pat, rep, 1)`: a string without the pattern comes back unchanged; otherwise only the first occurrence is replaced and the rest is kept |
| Search.ToUpper | flagcfg.go:151 | every character is upper-cased on its own (ASCII letters), so the length is kept and no lower-case letter remains |
| Search.SplitPath | flagcfg.go:140 | `filepath.Split`: the two parts concatenate to the path, the file part has no '/', the directory is empty or ends in '/' |
| Search.Ext | flagcfg.go:141 | `filepath.Ext`: a suffix of the name that is empty or starts at its last '.', contains no '/', and is empty only when the last element has no '.' |
| Search.TrimExt | flagcfg.go:141-142 | trimming the extension leaves a stem that, with the extension, gives back the name; the stem has no '/', and no '.' when there is no extension |
| Search.SplitExe | flagcfg.go:140-143 | directory + stem + extension rebuild the path; stem and extension hold no '/'; the extension is empty or one leading '.'; no extension means a stem without '.' |
| Search.ResolveExe | flagcfg.go:129-139 | the path is the PATH lookup of the invocation name, or the name itself when the lookup fails, made absolute when `Abs` succeeds and kept as it is when `Abs` fails |
| Search.ExePath | flagcfg.go:128-144 | the three parts of getExePath rebuild the resolved executable path, and the directory is empty or ends in '/' |
| Search.BinGuardAlwaysPasses | flagcfg.go:181-184 | as written, the test `exePath != "/bin"` never excludes a directory getExePath returns; "/bin/" passes and its sibling is "/etc/" |
| Search.BinSiblingNotEtc | flagcfg.go:181-184 | with the intended test, the bin-to-etc sibling directory is never "/etc/" itself |
| Search.BinDirGuards | locator.go:104-106 | the directory "/bin/" passes the test as written, fails the intended test, and is rewritten to "/etc/" |
| Search.DirGuard | locator.go:105-107 | a directory that is empty or ends in '/' is never "/bin", and "/bin/" is rewritten to "/etc/" |
| Search.ExtendSorted | flagcfg.go:157-191 | appending a source of higher priority than the last keeps the sources in strictly increasing priority |
| Search.OriginsSpec | flagcfg.go:157-191 | the contributing sources number 3 to 7, in strictly increasing priority; a source is present exactly when its condition holds; the last three are /etc/exe, /etc and the executable's directory; the variable's file comes first when set |
| Search.OriginsSorted | flagcfg.go:157-191 | the contributing sources are in strictly increasing priority |
| Search.SwitchedSorted | flagcfg.go:159-184 | the four optional sources appear in priority order |
| Search.FirstTwoSorted | flagcfg.go:159-173 | the variable's file and the working-directory file appear in priority order |
| Search.OriginsMembers | flagcfg.go:157-191 | a source contributes exactly when its condition holds |
| Search.Candidates | flagcfg.go:157-191 | the candidate list has one path per source, position by position |
| Search.CandidatesExtend | flagcfg.go:157-191 | adding an optional source adds its path at the end, exactly when it is on |
| Search.DefaultsFor | flagcfg.go:157-191 | the appended list, with the bin test as written, is the paths of the contributing sources, in their priority order |
| Search.DefaultsShape | locator.go:80-117 | AddDefaultFiles appends 3 to 7 paths, ending with join(/etc, exe, cfg), join(/etc, cfg) and join(exeDir, cfg); it starts with the variable's value when the name and the value are non-empty; the bin-to-etc path comes just before the last three whenever the bin test passes |
| Search.OriginsBinSplit | flagcfg.go:181-187 | switching the bin-to-etc source on inserts it just before the three unconditional sources and changes nothing else |
| Search.DefaultsBinSplit | flagcfg.go:181-187 | switching the bin-to-etc source on inserts its path just before join(/etc, exe, cfg) and changes no other path |
| Search.BinDirExtraCandidate | locator.go:104-110 | as written, an executable directly in /bin gets the extra path join("/etc/", cfg) just before join(/etc, exe, cfg); the list with the intended test is the same without it |
| Search.IntendedSiblingNotEtc | flagcfg.go:181-184 | with the intended test, the bin-to-etc path is present exactly when the executable is under a bin directory other than /bin, never for /bin itself, and its directory is never "/etc/" |
| Search.EnvNameFor | flagcfg.go:151 | the variable name is the stem upper-cased character by character, followed by `_CONFIG` |
| Search.CfgNameFor | flagcfg.go:151 | the file name splits, as getExePath splits names, into the stem and the extension `.config` |
| Search.ExtOfSuffix | flagcfg.go:141 | a name ending in '.' followed by characters other than '.' and '/' has that ending as its extension |
| Search.AppendDefaults | flagcfg.go:157-194 | AddDefaultFiles leaves the list as it was followed by the default candidates for this host |
| Search.AppendDefaultsFor | locator.go:80-117 | the appending steps, once the executable's parts are known and with the bin test as written, add exactly DefaultsFor in order |
| Search.FirstIndex | flagcfg.go:93-101 | the position of the first candidate that exists: none before it exists, and it exists unless it is past the end |
| Search.FirstExisting | flagcfg.go:93-101 | FindConfig's answer, when not "", is a candidate that exists; "" when no candidate exists |
| Search.FirstIndexAppend | locator.go:39-49 | adding a candidate at the end does not change an earlier first hit |
| Search.FirstExistingAppend | locator.go:39-49 | adding a candidate at the end keeps an earlier answer; otherwise the answer is the new candidate when it exists, else "" |
| Search.FindFirst | flagcfg.go:93-101 | the loop with early return yields FirstExisting |
| Locator.Locator.constructor | locator.go:12-14 | a zero Locator has no candidates and length 0 |
| Locator.Locator.Len | locator.go:17-22 | the length is 0 exactly when the list is empty |
| Locator.Locator.Reset | locator.go:25-27 | after Reset the list is empty and the length 0 |
| Locator.Locator.AddFile | locator.go:30-36 | the list is the old list followed by the file, and the length grows by one |
| Locator.Locator.FindConfig | locator.go:39-49 | the answer is FirstExisting of the list, and the list is not changed |
| Locator.Locator.AddDefaults | locator.go:72-75 | the list grows by the default candidates for `<STEM>_CONFIG` and `<stem>.config` |
| Locator.Locator.AddDefaultFiles | locator.go:80-117 | the list grows by exactly the default candidates, in priority order, with the bin test as written |
| FlagCfg.ConfigKey | flagcfg.go:53-54 | the key has the name's length, maps each '.' and '-' to '_' and keeps every other character, so it holds no '.' or '-' |
| FlagCfg.ConfigKeyUnique | flagcfg.go:53-54 | any string that maps the name character by character in that way is its key |
| FlagCfg.ConfigKeyPlain | flagcfg.go:53-54 | a name without '.' or '-' is its own key |
| FlagCfg.Coerce | flagcfg.go:59-77 | the switch panics exactly when the value has the wrong type, and fails exactly in the default branch; strings and durations pass the text verbatim; bools pass "true" or "false"; ints pass a rendering that parses back to the int64, and uints one that parses back to it modulo 2^64 |
| FlagCfg.SetValue | flagcfg.go:60-74 | Set keeps the flag's kind, and a string flag always takes the input |
| FlagCfg.ApplyFlag | flagcfg.go:52-80 | a visit keeps the name, the set-by-user bit and the kind; a flag that is set by the user or has no key is left unchanged; a failure reports the configured value; it panics exactly when the key is present and there is no Getter or the value has the wrong type |
| FlagCfg.ApplyFlagTakesValue | flagcfg.go:60-72 | a string, int, int64, uint, uint64 or bool flag with a key of the right type ends up holding the configured value (modulo 2^64 for unsigned flags) |
| FlagCfg.SetConfigured | flagcfg.go:60-72 | the text the switch renders, handed to Set, yields the configured value with no error |
| FlagCfg.UnsupportedValueFails | flagcfg.go:75-80 | a value in the default branch fails with its configured value and is left unchanged |
| FlagCfg.ExplicitNamesSpec | flagcfg.go:35-38 | a name is in the snapshot exactly when some flag of that name was set by the user |
| FlagCfg.Run | flagcfg.go:48-83 | the visited prefix keeps the number of flags and never yields a decoding error |
| FlagCfg.RunUnvisited | flagcfg.go:48-83 | flags the loop has not reached are unchanged |
| FlagCfg.ParseSetSpec | flagcfg.go:34-85 | the number of flags is kept; a decoding failure returns an error and changes no flag |
| FlagCfg.RunLatched | flagcfg.go:49-51 | once an error is latched, later visits change neither the flags nor the error |
| FlagCfg.FirstFailure | flagcfg.go:48-83 | a failed run failed at one flag k: no error before k, nothing changes after k's visit, the error names flag k, and every flag after k is untouched |
| FlagCfg.RunSucceeded | flagcfg.go:48-83 | in a run without error, each flag is what its own visit makes of its original |
| FlagCfg.RunAllDone | flagcfg.go:48-83 | conversely, when every visit succeeds the run succeeds with each flag replaced by its visit |
| FlagCfg.RunKeepsShape | flagcfg.go:48-83 | no flag is renamed, has its set-by-user bit changed or changes kind |
| FlagCfg.RunKeepsUnlisted | flagcfg.go:52-57 | flags set by the user or without a key keep their values |
| FlagCfg.ParseSetFrame | flagcfg.go:35-57 | ParseSet leaves alone every flag the user set and every flag without a key, and every flag when decoding fails |
| FlagCfg.SameNamesSorted | flagcfg.go:48 | keeping every name keeps the name order |
| FlagCfg.ParseSetKeepsOrder | flagcfg.go:48 | a flag list in VisitAll's name order stays in that order |
| FlagCfg.FlagSet.constructor | flagcfg.go:34 | a flag set holds the given flags, in name order |
| FlagCfg.Snapshot | flagcfg.go:35-38 | the Visit loop collects ExplicitNames of the flags |
| FlagCfg.ParseSet | flagcfg.go:34-85 | the imperative ParseSet leaves the flags and returns the status ParseSetSpec gives, and keeps the name order |
| FlagCfg.OutcomeOf | flagcfg.go:117-119 | Parse completes exactly when ParseSet returned no error, and crashes exactly when a visit panicked |
| FlagCfg.Package.constructor | flagcfg.go:28-31 | the globals start with no candidates and no parsed file |
| FlagCfg.Package.AddFile | flagcfg.go:88-90 | the candidate list grows by the file at the end, and the parsed name is unchanged |
| FlagCfg.Package.FindConfig | flagcfg.go:93-101 | the answer is FirstExisting of the candidates |
| FlagCfg.Package.Parse | flagcfg.go:105-121 | Parse exits when no candidate was added; otherwise it records FindConfig's answer, does nothing more when that is "", exits when the file cannot be read, and otherwise applies ParseSetSpec to the command-line flags |
| FlagCfg.Package.Filename | flagcfg.go:124-126 | the recorded file name is "" or one of the candidates |
| FlagCfg.Package.AddDefaults | flagcfg.go:149-152 | the candidates grow by the defaults for `<STEM>_CONFIG` and `<stem>.config` |
| FlagCfg.Package.AddDefaultFiles | flagcfg.go:157-194 | the candidates grow by exactly the default candidates, in priority order, with the bin test as written |
| Scenarios.KeyAnotherVar | flagcfg_test.go:37 | the flag `another.var` is looked up as `another_var` |
| Scenarios.KeySomeVar | flagcfg_test.go:36 | the flag `some-var` is looked up as `some_var` |
| Scenarios.TestExplicit | flagcfg_test.go:39 | after `-anotherInt 55` the snapshot is exactly {anotherInt} |
| Scenarios.TestTypes | flagcfg_test.go:25-80 | on the test's data ParseSet succeeds; every flag holds the configured value, and `anotherInt` keeps 55 |
| Scenarios.QuotedNumberPanics | flagcfg.go:67-68 | a quoted number configured for an int flag panics |
| Scenarios.FirstErrorLatched | flagcfg.go:49-51 | after a failure, the next flag keeps its value although the table holds a good one |
| Scenarios.NegativeUnsignedWraps | flagcfg.go:69-70 | -1 configured for a uint flag sets it to 2^64-1 |
| Scenarios.FirstExistingWins | flagcfg.go:93-101 | the search stops at the first existing candidate in insertion order |

## Left out

- The TOML decoder is an input function (`Externals.decode`) that yields a table or fails. TOML syntax, and the decoder's mapping of arrays, tables and dates, are not modelled. Those values are all `Other`, which lands in the `default` branch or fails a type assertion.
- Floating point is not modelled. A float is its 64 bits; `strconv.FormatFloat` and the float flag's parser are inputs. So are `time.ParseDuration` and the `Set` of user-defined values.
- Decimal.ParseInt: accepts plain decimal only, an optional sign and canonical digits. strconv's base-0 prefixes (`0x`, `0o`, `0b`, a leading `0`) and underscores are not modelled. The engine only hands this parser canonical decimal text.
- Decimal.ParseUint: accepts canonical digits only, for the same reason.
- Search.ToUpper: ASCII letters only. Unicode case mapping is not modelled.
- `filepath.Join` is an input function (`Host.join`) and is not interpreted. Path cleaning is not modelled, so neither is the fact that two joins name the same file.
- The host is Unix with 64-bit `int`: `filepath.FromSlash` is the identity, `int`/`uint` flags are 64 bits wide, and `/` is the only separator.
- `log.Fatal`, `log.Print` and panics are not modelled as process effects.
  - `log.Fatal` is the outcome `Exited`.
  - A panic escaping a visit is the status `Panicked`, and Parse's outcome `Crashed`.
  - The logged warnings of getExePath are dropped: a failed lookup or `Abs` keeps the previous path.
- The error texts are not modelled. A failure is `SetFailed(name, value)`, the two arguments of the message. A decoding failure is `DecodeError`.
- Go's `nil` slice and an empty slice are both the empty sequence. That is why Locator.Len and Locator.FindConfig have no separate `nil` branch.
- `flag.FlagSet` internals are not modelled: the registration of flags, usage output, and the `actual` map beyond the set-by-user bit.
- The TOML value behind a `flag.Value` case (`val.(flag.Value)`) is the `Custom` value, carrying the text its `String()` returns.
- The duplicated `getExePath` and `AddDefaultFiles` of `locator.go` are modelled once, in `Search`, and used by both `Locator.Locator` and `FlagCfg.Package`.

## Findings

| source | as written | input that shows it | evidently intended | confidence | as-written member | corrected member |
|---|---|---|---|---|---|---|
| flagcfg.go:182 (also locator.go:105) | the bin-to-etc candidate is skipped when `exePath == "/bin"`, but getExePath's directory always ends in '/', so the test never skips anything | an executable at `/bin/app` has directory `/bin/`, which passes the test, and its candidate lands directly in `/etc/`, ahead of `/etc/app/app.config` | skip an executable directly in /bin, as the comment on the line above says: test against `/bin/` | not executed; high | Search.BinDirExtraCandidate | Search.IntendedSiblingNotEtc |

The model follows the code. `ConditionsOf`, `DefaultsFor` and `AppendDefaultsFor` keep the test as written, and so do both `AddDefaultFiles`. `Search.BinGuardAlwaysPasses` shows that this test never excludes a directory getExePath returns. The corrected list is `DefaultsForIntended`, built from `IntendedConditionsOf`, which tests against `/bin/`.
