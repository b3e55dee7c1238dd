# one_header_logger in Dafny

A model of the `log` macro of `logger.hpp`, the single header of a small
C++ logging facility. A call to `log(level, fmt, ...)`:

1. writes nothing unless `level >= LOG_LEVEL_THRESHOLD` (the threshold
   defaults to 0, DEBUG);
2. picks a colour-wrapped tag by comparing the level with ERROR (3), WARN (2)
   and INFO (1) in turn, every other integer taking the DEBUG tag;
3. writes the tag and one space for INFO and DEBUG, and the tag followed by
   `file:line func(): ` for every other level;
4. writes the printf-rendered message.

The model is a pure function `Logger.Log(level, threshold, site, msg)` that
returns `None` when nothing is written and `Some(record)` with the exact
bytes otherwise. The GNU branch (lines 33-53) and the standard branch
(lines 56-76) differ only in how the variadic arguments reach `fprintf`, so
one function models both. Around it:

- `Levels`: the level macros, the default threshold and the threshold test.
- `Decimal`: `%d` rendering of `__LINE__` and its inverse.
- `Logger`: colours, tags, the locator, the prefix, `Log` and the four
  `log_debug`/`log_info`/`log_warn`/`log_error` wrappers.
- `RecordParse`: readers that recover the severity from a record's tag and
  the call site from a locator. They are the inverses the formatter is
  proved against.
- `Stream`: a sequence of calls and the records they leave on standard error.
- `Scenarios`: the two driver programs `main.cpp` and `example/main.cpp`.

Levels and thresholds are unbounded integers: the macro compares `int`
values, and any integer may be passed as a level. A line number is a
`nat`, because `__LINE__` is always a positive constant. Two points of the
header's behaviour deserve mention:

- Only INFO (1) and DEBUG (0) are written without a locator. Every other
  level gets one, so an out-of-range level such as 5 gets the DEBUG tag
  together with a locator (logger.hpp:39-50).
- The comment beside the default threshold says INFO. The value is 0,
  DEBUG, and the model follows the value.

## Model

| member | source | states |
|---|---|---|
| Levels.Code | logger.hpp:3-6 | each severity has a macro value in 0..3, and the tag selection maps that value back to the same severity |
| Levels.SeverityOf | logger.hpp:39-42 | the DEBUG tag is chosen exactly when the level is outside 1..3, including 0, negatives and values above 3 |
| Levels.CodeOfSeverityOf | logger.hpp:39-42 | level and chosen severity agree exactly when the level is one of the four macro values |
| Levels.EmittedSeverities | logger.hpp:36 | a severity is in the emitted list if and only if its value reaches the threshold |
| Levels.FilterDebug | logger.hpp:36 | under threshold DEBUG all four severities are emitted, in order |
| Levels.FilterInfo | logger.hpp:36 | under threshold INFO exactly INFO, WARN and ERROR are emitted |
| Levels.FilterWarn | logger.hpp:36 | under threshold WARN exactly WARN and ERROR are emitted |
| Levels.FilterError | logger.hpp:36 | under threshold ERROR only ERROR is emitted |
| Levels.FilterTable | logger.hpp:36 | the exhaustive 4x4 table: under threshold DEBUG, INFO, WARN, ERROR, exactly the severities at or above it are emitted, in order |
| Levels.ThresholdMonotone | logger.hpp:36 | a level emitted under a threshold stays emitted under every lower threshold, and every higher level is emitted too |
| Levels.DefaultEmitsAll | logger.hpp:8-11 | with no configured threshold all four levels are emitted |
| Decimal.FromNat | logger.hpp:49 | the `%d` text of a line number is a non-empty digit string with no leading zero, one digit exactly below 10 |
| Decimal.ToNatFromNat | logger.hpp:49 | reading the rendered line number gives the number back |
| Decimal.FromNatToNat | logger.hpp:49 | every canonical digit string is the rendering of its own value |
| Decimal.FromNatInjective | logger.hpp:49 | distinct line numbers are rendered differently |
| Logger.ColourDigitsDiffer | logger.hpp:14-17 | the four colour codes differ in the digit after `[1;3`, so distinct severities' tags differ at that position |
| Logger.ErrorTagText | logger.hpp:14 | the ERROR tag is `[`, ESC `[1;31m`, `ERROR`, ESC `[0m`, `]` |
| Logger.WarnTagText | logger.hpp:15 | the WARN tag is `[`, ESC `[1;33m`, `WARN`, ESC `[0m`, `]` |
| Logger.InfoTagText | logger.hpp:16 | the INFO tag is `[`, ESC `[1;32m`, `INFO`, ESC `[0m`, `]` |
| Logger.DebugTagText | logger.hpp:17 | the DEBUG tag is `[`, ESC `[1;34m`, `DEBUG`, ESC `[0m`, `]` |
| Logger.Tag | logger.hpp:13-18 | a tag is the bracketed colour code, name and reset, starting with `[` and ending with `]` |
| Logger.LevelTag | logger.hpp:39-42 | the DEBUG tag is chosen if and only if the level is outside 1..3 |
| Logger.TagsDistinct | logger.hpp:39-42 | two severities get the same tag if and only if they are the same severity |
| Logger.TagCases | logger.hpp:39-42 | the exact tag with its ANSI escapes for 3, 2, 1 and every other integer |
| Logger.LocatorLayout | logger.hpp:49 | the locator is the file name, a colon, the decimal line number, a space, the function name and `(): `, each at its fixed position |
| Logger.Prefix | logger.hpp:43-50 | the prefix is the level's tag and one space, followed by the locator when the level is neither INFO nor DEBUG and by nothing otherwise |
| Logger.Log | logger.hpp:33-76 | a record is written if and only if level >= threshold, and it ends with the message |
| Logger.LogDebug | logger.hpp:80 | written iff threshold <= 0, as the DEBUG tag, a space and the message |
| Logger.LogInfo | logger.hpp:81 | written iff threshold <= 1, as the INFO tag, a space and the message |
| Logger.LogWarn | logger.hpp:82 | written iff threshold <= 2, as the WARN tag, a space, the locator and the message |
| Logger.LogError | logger.hpp:83 | written iff threshold <= 3, as the ERROR tag, a space, the locator and the message |
| Logger.PlainRecord | logger.hpp:43-46 | an emitted INFO or DEBUG record is tag, space and message, and does not depend on the call site at all |
| Logger.LocatedRecord | logger.hpp:47-51 | every other emitted level writes tag, space, file, colon, line, space, function, `(): ` and the message, in that order |
| Logger.OutOfRangeLevel | logger.hpp:39-50 | a level outside 0..3 gets the DEBUG tag but, unlike DEBUG, also the locator |
| Logger.LogThresholdMonotone | logger.hpp:36 | a record written under a threshold is written identically under every lower threshold |
| Logger.DefaultThresholdEmitsAll | logger.hpp:9-11 | under the default threshold each of the four levels writes a record |
| Logger.MessageRecoverable | logger.hpp:45-51 | nothing follows the message: for a fixed level and call site, equal records mean equal messages |
| RecordParse.DecodeTagPrefix | logger.hpp:39-42 | whatever follows a tag, the tag alone identifies its severity |
| RecordParse.DecodeRecord | logger.hpp:36-51 | the severity read off an emitted record is the one the level selects |
| RecordParse.LocatorRoundTrip | logger.hpp:49 | a locator whose file name has no colon parses back to its file, line and function |
| RecordParse.LocatorInjective | logger.hpp:49 | two such call sites with equal locators are the same call site |
| Stream.Records | logger.hpp:36-51 | the number of records written equals the number of calls at or above the threshold |
| Stream.RecordsAppend | logger.hpp:33-53 | calls are independent: running two stretches of calls writes the first stretch's records followed by the second's |
| Stream.RecordsAllEmit | logger.hpp:36-51 | when every call reaches the threshold there is one record per call, the k-th being what the k-th call writes |
| Stream.SuppressedCallsSilent | logger.hpp:36 | calls all below the threshold write nothing |
| Scenarios.MainLocator13 | main.cpp:13 | the error call's locator reads `main.cpp:13 main(): ` |
| Scenarios.MainLocator14 | main.cpp:14 | the warn call's locator reads `main.cpp:14 main(): ` |
| Scenarios.MainScenario | main.cpp:2-15 | under threshold WARN, info and debug write nothing; error and warn write located records for lines 13 and 14 |
| Scenarios.ExampleScenario | example/main.cpp:8-11 | under the default threshold all four calls write: info and debug plain, error and warn with locators |
| Scenarios.ExampleLocator9 | example/main.cpp:9 | the error call's locator reads `example/main.cpp:9 main(): ` |
| Scenarios.ExampleLocator10 | example/main.cpp:10 | the warn call's locator reads `example/main.cpp:10 main(): ` |
| Scenarios.ExampleLoop | example/main.cpp:13-15 | after the four records of the first calls, the loop writes nine records in all, the record of iteration i being the INFO tag, a space and `log_info i` |

## Left out

- printf expansion of the format string and its arguments: the message is taken as already rendered.
- Writing to standard error: the record is returned as a value. The code writes it with exactly two `fprintf` calls, the prefix (logger.hpp:45 or :49) and then the message (:51), not as one write.
- The optional `std::mutex` guard (`ENABLE_LOG_MUTEX`): it only serialises concurrent writers, and the model has no concurrency.
- Preprocessor mechanics: `#undef log`, `##__VA_ARGS__`, the compiler test between the two branches, and the capture of `__FILE__`, `__LINE__` and `__func__`. The call site is a plain parameter.
- The `log_once_*` variants used in `example/main.cpp` lines 16-19: they are not defined in `logger.hpp`, so there is no behaviour to model. `Scenarios.ExampleLoop` leaves those calls out.
- Log: takes the level as one evaluated integer. The macro pastes the argument text unparenthesised into the `==` tests of logger.hpp:39-43 and evaluates it up to six times, so a conditional expression such as `c ? LOG_LEVEL_ERROR : LOG_LEVEL_DEBUG` with `c` true gets the ERROR tag but no locator, and side effects in the level expression repeat. Only evaluated integer levels are modelled.
- Log: file names, function names and messages are Unicode `string`s, whereas C writes bytes; lengths and encoding of non-ASCII text are not modelled.
- Decimal.FromNat: renders only non-negative line numbers, because `__LINE__` is always positive; `%d` of a negative `int` is not modelled.
- RecordParse.LocatorRoundTrip: assumes the file name contains no colon; with a colon in the path the written locator is ambiguous.
