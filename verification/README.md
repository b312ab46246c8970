# ezLogger in Dafny

A model of ezLogger, a small Java logger. It writes each log line to a console stream and to a log file. The model covers four parts:

- **`EzLogger`** (`logger.dfy`) is `com.limelion.logger.Logger` version 2.2. It includes:
  - the parameter-map factory `newLogger`;
  - the 12-, 4- and 2-argument constructors;
  - `info`, `err` and `debug` with and without format arguments;
  - `log`, `setDebug`, `getLogFile` and `close`;
  - the line-descriptor pieces `getPrintedName`, `getPrintedDate`, `getPrintedLevel` and `formatArgs`.
- **`LoggerParams`** (`params.dfy`) covers the `LogParams` keys, the casts `newLogger` applies to each value, and its loop over the map.
- **`LegacyLogger`** (`legacy_logger.dfy`) is the 1.x `Logger`. It has fixed line formats and writes to the file before the console.
- **`LoggerBuilder`** (`builder.dfy`) is `Builder`, the fluent option record, and `Levels` (`levels.dfy`) is the `LogLevel` enum.

Supporting modules:
- `Io` (`io.dfy`) models streams and writers as `Sink(attached, text)`. `attached == false` is a null reference. `text` is everything that reached the destination; it stays there after the reference is dropped.
- `Formatter` (`formatter.dfy`) models the part of `java.util.Formatter` the logger relies on: `%s`, `%d`, `%n` and `%%`.
  - The whole format string is parsed first, so an unknown conversion prints nothing.
  - Output is then printed piece by piece, so a missing argument raises after the text before it.
- Java exceptions are `Option<Fault>` results named `thrown`. A constructor that can throw becomes a static `Create` returning `Result<Logger, Fault>`.

Each logger class keeps the Java fields and exposes `State()`. Every method is proved against a pure specification of the whole new state and the exception:
- `LevelSpec`, `ArgsSpec` and `LogArgsSpec` specify the log calls;
- `CloseSpec` specifies `close()`;
- `Opened` specifies construction.

The lemmas state what those specifications mean. A line-without-arguments is name, date, level, text and a line separator. The line goes to the console of its level and to the file, in the source's order. Headers come first, and closed loggers fail.

Some behaviour of the code worth knowing up front:
- A closed logger fails with `NullPointerException`.
- A failed file creation is swallowed.
- `close()` on a logger without file output throws.

## Model

| member | source | states |
|---|---|---|
| Levels.LogLevel.ToString | src/main/java/com/limelion/logger/LogLevel.java:12-17 | `toString()` is the declared constant name: the name `valueOf` maps back to the same constant |
| Levels.ValueOf | src/main/java/com/limelion/logger/LogLevel.java:12-13 | `valueOf` recognises exactly the three declared names `INFO`, `DEBUG`, `ERR`, each mapped to its own constant |
| Levels.ExactlyThreeLevels | src/main/java/com/limelion/logger/LogLevel.java:12-13 | there are exactly three levels, INFO, DEBUG, ERR, each once |
| Levels.ToStringValueOf | src/main/java/com/limelion/logger/LogLevel.java:12-17 | a name is recognised as a level exactly when it is that level's `toString()` |
| Levels.ToStringInjective | src/main/java/com/limelion/logger/LogLevel.java:12-17 | distinct levels have distinct names |
| LoggerParams.CastBool | src/main/java/com/limelion/logger/Logger.java:208-230 | unboxing succeeds exactly on a Boolean; null raises NullPointerException, other types ClassCastException |
| LoggerParams.CastStream | src/main/java/com/limelion/logger/Logger.java:202-206 | the stream cast accepts a stream or null (a null stream) and raises ClassCastException otherwise |
| LoggerParams.CastFile | src/main/java/com/limelion/logger/Logger.java:226-227 | the file cast accepts a file or null (no file) and raises ClassCastException otherwise |
| LoggerParams.ResolveParams | src/main/java/com/limelion/logger/Logger.java:188-240 | the loop over the keys, in any iteration order, succeeds exactly when every value has its key's type; it then yields the settings the map stands for, otherwise the exception of an ill-typed entry |
| LoggerParams.AbsentKeysKeepDefaults | src/main/java/com/limelion/logger/Logger.java:189-198 | a key absent from the map keeps its default (debug off, every other flag on, no log file); the empty map gives exactly the defaults |
| LoggerParams.KeyOverridesOnlyItsSetting | src/main/java/com/limelion/logger/Logger.java:201-231 | adding a well-typed entry changes that key's setting to the value and no other setting |
| LoggerParams.StreamKeyOverrides | src/main/java/com/limelion/logger/Logger.java:202-207 | an `OUT` or `ERR` entry sets that stream and leaves the other one as it was |
| LoggerParams.FlagKeyOverrides | src/main/java/com/limelion/logger/Logger.java:208-231 | a Boolean entry sets its own flag and leaves the other six as they were |
| LoggerParams.StoreOverrides | src/main/java/com/limelion/logger/Logger.java:201-231 | one arm of the `switch` does to the settings exactly what adding the entry to the map does |
| LoggerParams.KeysAsWritten | src/main/java/com/limelion/logger/Logger.java:200 | `params.keySet()`: a map's key set is taken as it is; a null map raises NullPointerException |
| LoggerParams.ParamsOrEmpty | src/main/java/com/limelion/logger/Logger.java:172-174 | a null map is read as the empty map; any other map is kept |
| LoggerParams.NullParamsGiveDefaults | src/main/java/com/limelion/logger/Logger.java:172-174 | corrected, a null map yields exactly the default settings |
| Formatter.ParsePlainPrefix | src/main/java/com/limelion/logger/Logger.java:429-430 | text without `%` in a format string parses to its own characters |
| Formatter.PrintLits | src/main/java/com/limelion/logger/Logger.java:429-430 | literal characters print as themselves, before whatever follows |
| Formatter.PlainTextVerbatim | src/main/java/com/limelion/logger/Logger.java:429-430 | a format without `%` prints verbatim and consumes no argument |
| Formatter.HoleThen | src/main/java/com/limelion/logger/Logger.java:151 | `%s` prints its string argument and passes the rest on |
| Formatter.HoleMissing | src/main/java/com/limelion/logger/Logger.java:151 | `%s` with no argument left raises MissingFormatArgumentException |
| Formatter.DecimalThen | src/main/java/com/limelion/logger/Logger.java:429-430 | `%d` prints an integer argument in decimal and refuses a string with IllegalFormatConversionException |
| Formatter.TextThen | src/main/java/com/limelion/logger/Logger.java:429-430 | text without `%` before a well-formed format prints first |
| Formatter.NewlineOnly | src/main/java/com/limelion/logger/Logger.java:150 | `%n` prints the line separator |
| Formatter.EscapedPercentThenN | src/main/java/com/limelion/logger/Logger.java:429-430 | `%%n` prints the two characters `%n` and no line separator |
| Formatter.FormatTemplate | src/main/java/com/limelion/logger/Logger.java:150-151 | a template of texts and `%s` holes with string arguments prints texts and arguments in turn; arguments are never read as formats, extra ones are ignored, and a missing one stops the output |
| Formatter.HolesThen | src/main/java/com/limelion/logger/Logger.java:151 | a run of `%s` prints its string arguments one after the other, then the rest |
| EzLogger.Opened | src/main/java/com/limelion/logger/Logger.java:285-346 | construction fails, with NullPointerException, exactly in three cases: a log file path without a parent, a header for a file that could not be created, or a header for a null `out`. Otherwise the file holds the header iff file output and header are on, `out` gets it appended iff console output and header are on, and the date is on only with the descriptor |
| EzLogger.PrintedName | src/main/java/com/limelion/logger/Logger.java:561-565 | `getPrintedName()` is `[name] ` exactly when the descriptor and names are on, and empty otherwise |
| EzLogger.PrintedDate | src/main/java/com/limelion/logger/Logger.java:535-543 | `getPrintedDate()` is `- time ` exactly when the descriptor and dates are on, and empty otherwise |
| EzLogger.PrintedLevel | src/main/java/com/limelion/logger/Logger.java:545-559 | `getPrintedLevel(level)` is `: ` for INFO or without the descriptor, `[Debug]: ` and `[Error]: ` otherwise |
| EzLogger.DescriptorParts | src/main/java/com/limelion/logger/Logger.java:535-565 | in a constructed logger (dates are turned off without the descriptor) the date part `- time ` appears exactly when dates are on, with the time as given |
| EzLogger.LevelTokensDistinct | src/main/java/com/limelion/logger/Logger.java:545-559 | with the descriptor on, the level tokens `: `, `[Debug]: `, `[Error]: ` tell the levels apart |
| EzLogger.BaseLineIsConcatenation | src/main/java/com/limelion/logger/Logger.java:407-416 | a line without arguments is name part, date part, level token, text and line separator; the text is never read as a format |
| EzLogger.NoDescriptorLine | src/main/java/com/limelion/logger/Logger.java:535-565 | with the descriptor off a line is `: `, the text and the line separator |
| EzLogger.DescriptorThen | src/main/java/com/limelion/logger/Logger.java:151 | the descriptor prefix of a line with arguments prints the three descriptor parts |
| EzLogger.ArgsLineWithoutPlaceholders | src/main/java/com/limelion/logger/Logger.java:427-436 | a text without `%` prints the same line with arguments as without, ignoring the arguments |
| EzLogger.ArgsLineSubstitutes | src/main/java/com/limelion/logger/Logger.java:427-436 | a `%s` in the text is replaced by the first argument; later arguments are ignored |
| EzLogger.ArgsLineDecimal | src/main/java/com/limelion/logger/Logger.java:427-436 | a `%d` in the text is replaced by the integer argument in decimal |
| EzLogger.DecimalLine | src/main/java/com/limelion/logger/Logger.java:429-430 | text, `%d`, text, `%n` prints the two texts around the decimal and a line separator |
| EzLogger.CountExample | src/main/java/com/limelion/logger/Logger.java:427-436 | `info("count=%d", 3)` prints `count=3` after the descriptor |
| EzLogger.ArgsLineMissingArgument | src/main/java/com/limelion/logger/Logger.java:427-436 | a `%s` without an argument prints the line up to it and raises MissingFormatArgumentException |
| EzLogger.TrailingPercentSwallowsNewline | src/main/java/com/limelion/logger/Logger.java:429-430 | a text ending in `%` ends the line in `%n` without a line separator |
| EzLogger.DeliverRoutes | src/main/java/com/limelion/logger/Logger.java:407-456 | errors never reach `out` and other levels never reach `err`; every sink only grows and no setting changes |
| EzLogger.DeliverSucceeds | src/main/java/com/limelion/logger/Logger.java:407-416 | a line succeeds exactly when each enabled sink is attached and formatting raises nothing; the console of the level and the file then each receive it once |
| EzLogger.DebugOffIsSilent | src/main/java/com/limelion/logger/Logger.java:490-527 | with debugging off both debug forms change nothing and raise nothing |
| EzLogger.NullArgsArray | src/main/java/com/limelion/logger/Logger.java:379-480 | `info(text, null)` raises NullPointerException without output once a sink is enabled; `err`, `debug` and `log` with a null array print the plain line |
| EzLogger.ConsoleOnlyLoggerCannotClose | src/main/java/com/limelion/logger/Logger.java:604-609 | without file output `close()` raises NullPointerException and closes nothing |
| EzLogger.ClosedLoggerFails | src/main/java/com/limelion/logger/Logger.java:597-609 | after `close()`, closing again and every enabled line without arguments raise NullPointerException; an enabled line with arguments raises too (its format may raise MissingFormatArgumentException at the console first), and the file receives nothing |
| EzLogger.ClosedLoggerStillWritesErrors | src/main/java/com/limelion/logger/Logger.java:447-456 | `close()` leaves `err` open: an error line still reaches it before the file raises |
| EzLogger.ErrStreamReceivesErrorLine | src/main/java/com/limelion/logger/Logger.java:447-456 | an error line reaches an attached `err` whatever then happens at the file |
| EzLogger.UnopenedFileFailsEveryLine | src/main/java/com/limelion/logger/Logger.java:319-339 | a log file that could not be created (possible only without a header) makes every later enabled line without arguments raise NullPointerException; an enabled line with arguments raises too, perhaps at the console through its format, and the file receives nothing |
| EzLogger.FileWrittenLastFails | src/main/java/com/limelion/logger/Logger.java:425-435 | with file output on and no print writer, a line raises, at the console or at the file written last, and the file receives nothing |
| EzLogger.ReportedLogFileIsTheGivenOne | src/main/java/com/limelion/logger/Logger.java:588-595 | `getLogFile()` reports the file given at construction while file output is on, never the generated name |
| EzLogger.HasParent | src/main/java/com/limelion/logger/Logger.java:328 | `logfile.getParent()` is non-null exactly when the path, without its trailing separators, still holds a separator |
| EzLogger.StripTrailingSeparators | src/main/java/com/limelion/logger/Logger.java:328 | the normalised path is a prefix of the path and drops only trailing separators |
| EzLogger.ParentOfPaths | src/main/java/com/limelion/logger/Logger.java:326-331 | a file inside a directory has a parent; a bare name, a bare directory `name/` and the root `/` have none, so the constructor raises NullPointerException for them |
| EzLogger.GeneratedLogFileNotReported | src/main/java/com/limelion/logger/Logger.java:588-595 | as written, a logger writing to the file it generated reports no log file |
| EzLogger.LogFileCorrected | src/main/java/com/limelion/logger/Logger.java:588-595 | corrected, `getLogFile()` reports a file exactly when file output is on, the given one when there is one |
| EzLogger.CorrectedLogFileIsWritten | src/main/java/com/limelion/logger/Logger.java:305-313 | corrected, every logger writing to a file reports it, the generated `logs\name_date.log` included, and agrees with the written version wherever that reports a file |
| EzLogger.Logger.Init | src/main/java/com/limelion/logger/Logger.java:287-302 | the constructor's field assignments; the date is forced off without the descriptor |
| EzLogger.Logger.Create | src/main/java/com/limelion/logger/Logger.java:285-346 | the 12-argument constructor yields exactly `Opened`'s logger or exception, with the headers at the head of file and `out` |
| EzLogger.Logger.CreateWithStreams | src/main/java/com/limelion/logger/Logger.java:252-266 | the 4- and 2-argument constructors use the default settings |
| EzLogger.Logger.FromMap | src/main/java/com/limelion/logger/Logger.java:188-240 | `newLogger` on a map, for any iteration order: a map with an ill-typed entry raises that entry's cast exception; a well-typed one yields exactly the logger, or the exception, of the 12-argument constructor on the map's settings |
| EzLogger.Logger.NewLoggerAsWritten | src/main/java/com/limelion/logger/Logger.java:188-240 | `newLogger` as written: a null map raises NullPointerException at `params.keySet()`; any other map behaves as in `FromMap` |
| EzLogger.Logger.NewLoggerCorrected | src/main/java/com/limelion/logger/Logger.java:172-240 | `newLogger` as documented: a null map gives exactly the logger of the default settings; any other map behaves as in `FromMap` |
| EzLogger.Logger.Write | src/main/java/com/limelion/logger/Logger.java:407-416 | console of the level first, then the file, each under its switch |
| EzLogger.Logger.FormatArgs | src/main/java/com/limelion/logger/Logger.java:567-576 | the list has `3 + |args|` items: name, date and level parts, then the arguments in order; a null array raises NullPointerException |
| EzLogger.Logger.WriteArgs | src/main/java/com/limelion/logger/Logger.java:427-436 | a line with arguments is formatted from `formatArgs`' list and written like any line |
| EzLogger.Logger.Info | src/main/java/com/limelion/logger/Logger.java:407-416 | `info(text)` |
| EzLogger.Logger.Err | src/main/java/com/limelion/logger/Logger.java:447-456 | `err(text)` |
| EzLogger.Logger.Debug | src/main/java/com/limelion/logger/Logger.java:490-501 | `debug(text)`, only while debugging is on |
| EzLogger.Logger.InfoArgs | src/main/java/com/limelion/logger/Logger.java:427-436 | `info(text, args)`, without a null check on the array |
| EzLogger.Logger.ErrArgs | src/main/java/com/limelion/logger/Logger.java:467-480 | `err(text, args)`; a null array falls back to `err(text)` |
| EzLogger.Logger.DebugArgs | src/main/java/com/limelion/logger/Logger.java:512-527 | `debug(text, args)`; a null array falls back to `debug(text)` |
| EzLogger.Logger.Log | src/main/java/com/limelion/logger/Logger.java:355-369 | `log(text, level)` behaves exactly like the method of its level |
| EzLogger.Logger.LogArgs | src/main/java/com/limelion/logger/Logger.java:379-397 | `log(text, level, args)` behaves like the method of its level; a null array falls back to `log(text, level)` |
| EzLogger.Logger.SetDebug | src/main/java/com/limelion/logger/Logger.java:584-586 | only the debug switch changes |
| EzLogger.Logger.LogFile | src/main/java/com/limelion/logger/Logger.java:593-595 | the given log file while file output is on, otherwise none |
| EzLogger.Logger.Close | src/main/java/com/limelion/logger/Logger.java:604-609 | closes and drops the print writer, then `out`; a null one raises NullPointerException where it is met |
| LegacyLogger.Opened | src/com/limelion/logger/Logger.java:51-90 | construction fails, with NullPointerException, exactly when file output is on but the file could not be created, or console output is on with a null `out`. Otherwise the header is the file's first line iff file output is on and is appended to `out` iff console output is on |
| LegacyLogger.FormatAsWritten | src/com/limelion/logger/Logger.java:96-157 | as written, `err` and `debug` pass the dated format whether or not dates are on |
| LegacyLogger.LineFormat | src/com/limelion/logger/Logger.java:124-128 | the corrected format differs from the written one exactly for undated `err` and `debug` |
| LegacyLogger.LineAsWritten | src/com/limelion/logger/Logger.java:96-157 | a line as written raises, with MissingFormatArgumentException, exactly for undated `err` and `debug` |
| LegacyLogger.Line | src/com/limelion/logger/Logger.java:96-157 | a corrected line never raises |
| LegacyLogger.FormatsFill | src/com/limelion/logger/Logger.java:96-157 | every hole of a corrected format has its argument; the written undated `err` and `debug` formats have one hole too many |
| LegacyLogger.DatedLines | src/com/limelion/logger/Logger.java:96-157 | dated lines are `[name] - time : text`, `[name] time [Error]: text` and `[name] time [Debug]: text` plus a line separator |
| LegacyLogger.UndatedInfoLine | src/com/limelion/logger/Logger.java:103-108 | undated `info` prints `[name] : text` |
| LegacyLogger.UndatedErrorAsWritten | src/com/limelion/logger/Logger.java:124-128 | as written, undated `err` and `debug` print `[name] text [Error]: ` (or `[Debug]: `) and raise MissingFormatArgumentException |
| LegacyLogger.UndatedErrorSkipsConsoleAsWritten | src/com/limelion/logger/Logger.java:124-128 | as written, with file output on, that exception is raised at the file and the console receives nothing |
| LegacyLogger.UndatedErrorCorrected | src/com/limelion/logger/Logger.java:124-128 | corrected, undated `err` and `debug` print `[name] [Error]: text` (or `[Debug]: `) and raise nothing |
| LegacyLogger.LinesSucceed | src/com/limelion/logger/Logger.java:96-157 | with the undated `err` and `debug` formats corrected, a line succeeds exactly when the enabled sinks are attached; the file and the console of the level each receive it once, and errors never reach `out` |
| LegacyLogger.DebugOffIsSilent | src/com/limelion/logger/Logger.java:136-138 | with debugging off `debug` changes nothing |
| LegacyLogger.ClosedLoggerFails | src/com/limelion/logger/Logger.java:169-172 | `close()` drops only the print writer; afterwards every enabled line raises NullPointerException at the file before reaching the console, and so does a second `close()` |
| LegacyLogger.ConsoleOnlyLoggerCannotClose | src/com/limelion/logger/Logger.java:169-172 | without file output `close()` raises NullPointerException |
| LegacyLogger.Logger.Init | src/com/limelion/logger/Logger.java:51-61 | the constructor's field assignments |
| LegacyLogger.Logger.Create | src/com/limelion/logger/Logger.java:51-90 | the 8-argument constructor yields exactly `Opened`'s logger or exception, with the headers at the head of file and `out` |
| LegacyLogger.Logger.CreateWithStreams | src/com/limelion/logger/Logger.java:92-94 | the 4-argument constructor: no debug, dated, console and file output |
| LegacyLogger.Logger.Write | src/com/limelion/logger/Logger.java:96-114 | the file first, then the console stream of the level |
| LegacyLogger.Logger.Info | src/com/limelion/logger/Logger.java:96-114 | `info(text)` |
| LegacyLogger.Logger.Err | src/com/limelion/logger/Logger.java:116-134 | `err(text)` with the undated format corrected |
| LegacyLogger.Logger.Debug | src/com/limelion/logger/Logger.java:136-157 | `debug(text)` with the undated format corrected, only while debugging is on |
| LegacyLogger.Logger.SetDebug | src/com/limelion/logger/Logger.java:165-167 | only the debug switch changes |
| LegacyLogger.Logger.Close | src/com/limelion/logger/Logger.java:169-172 | closes and drops the print writer; a null one raises NullPointerException |
| LoggerBuilder.Defaults | src/main/java/com/limelion/logger/Builder.java:35-49 | every option on, base file name `ezLogger`, empty name and header |
| LoggerBuilder.Build | src/main/java/com/limelion/logger/Builder.java:66-73 | `build()` never propagates an IOException: it returns null instead; other exceptions propagate and a constructed logger is returned |
| LoggerBuilder.Builder.constructor | src/main/java/com/limelion/logger/Builder.java:56-58 | a fresh builder holds the defaults |
| LoggerBuilder.Builder.SetBaseLogFileName | src/main/java/com/limelion/logger/Builder.java:79-82 | returns the same builder; only `baseLogFileName` changes, which the getter then returns |
| LoggerBuilder.Builder.SetDoPrintLineHeading | src/main/java/com/limelion/logger/Builder.java:88-91 | returns the same builder; only `doPrintLineHeading` changes |
| LoggerBuilder.Builder.SetDoPrintTime | src/main/java/com/limelion/logger/Builder.java:97-100 | returns the same builder; only `doPrintTime` changes |
| LoggerBuilder.Builder.SetDoPrintName | src/main/java/com/limelion/logger/Builder.java:106-109 | returns the same builder; only `doPrintName` changes |
| LoggerBuilder.Builder.SetDoPrintDebug | src/main/java/com/limelion/logger/Builder.java:115-118 | returns the same builder; only `doPrintDebug` changes |
| LoggerBuilder.Builder.SetDoPrintInfo | src/main/java/com/limelion/logger/Builder.java:124-127 | returns the same builder; only `doPrintInfo` changes |
| LoggerBuilder.Builder.SetDoPrintErr | src/main/java/com/limelion/logger/Builder.java:133-136 | returns the same builder; only `doPrintErr` changes |
| LoggerBuilder.Builder.SetDoPrintToConsole | src/main/java/com/limelion/logger/Builder.java:142-145 | returns the same builder; only `doPrintToConsole` changes |
| LoggerBuilder.Builder.SetDoPrintToFile | src/main/java/com/limelion/logger/Builder.java:151-154 | returns the same builder; only `doPrintToFile` changes |
| LoggerBuilder.Builder.SetName | src/main/java/com/limelion/logger/Builder.java:160-163 | returns the same builder; only `name` changes |
| LoggerBuilder.Builder.SetHeader | src/main/java/com/limelion/logger/Builder.java:169-172 | returns the same builder; only `header` changes |
| LoggerBuilder.Builder.BaseLogFileName | src/main/java/com/limelion/logger/Builder.java:75-77 | returns the current `baseLogFileName`, the value its setter last wrote |
| LoggerBuilder.Builder.DoPrintLineHeading | src/main/java/com/limelion/logger/Builder.java:84-86 | returns the current `doPrintLineHeading`, the value its setter last wrote |
| LoggerBuilder.Builder.DoPrintTime | src/main/java/com/limelion/logger/Builder.java:93-95 | returns the current `doPrintTime`, the value its setter last wrote |
| LoggerBuilder.Builder.DoPrintName | src/main/java/com/limelion/logger/Builder.java:102-104 | returns the current `doPrintName`, the value its setter last wrote |
| LoggerBuilder.Builder.DoPrintDebug | src/main/java/com/limelion/logger/Builder.java:111-113 | returns the current `doPrintDebug`, the value its setter last wrote |
| LoggerBuilder.Builder.DoPrintInfo | src/main/java/com/limelion/logger/Builder.java:120-122 | returns the current `doPrintInfo`, the value its setter last wrote |
| LoggerBuilder.Builder.DoPrintErr | src/main/java/com/limelion/logger/Builder.java:129-131 | returns the current `doPrintErr`, the value its setter last wrote |
| LoggerBuilder.Builder.DoPrintToConsole | src/main/java/com/limelion/logger/Builder.java:138-140 | returns the current `doPrintToConsole`, the value its setter last wrote |
| LoggerBuilder.Builder.DoPrintToFile | src/main/java/com/limelion/logger/Builder.java:147-149 | returns the current `doPrintToFile`, the value its setter last wrote |
| LoggerBuilder.Builder.Name | src/main/java/com/limelion/logger/Builder.java:156-158 | returns the current `name`, the value its setter last wrote |
| LoggerBuilder.Builder.Header | src/main/java/com/limelion/logger/Builder.java:165-167 | returns the current `header`, the value its setter last wrote |
| LoggerBuilder.Chain | src/main/java/com/limelion/logger/Builder.java:75-172 | an example of chaining: a fresh builder after `setName`, `setDoPrintTime` and `setName` again holds the defaults, the last name and the time set (the general per-setter facts are the setter rows) |

## Left out

- File system work is not modelled: directory creation, file creation and the diagnostic `System.out.println` of the path. Whether creating the log file succeeds is a parameter `fileOpens`, and the date marker of a generated file name is a parameter `dateMarker`.
- EzLogger.HasParent: `File.getParent()` is modelled for Unix paths only: the separator is `/`, and a path is normalised only by dropping its trailing separators. Windows paths, drive letters and the `\` separator are not modelled.
- The line separator (`Io.NL`) that `println` and `%n` write (`System.lineSeparator()`) is the Unix `"\n"`; the Windows `"\r\n"` is not modelled.
- A null key in the parameter map, which a `HashMap` allows, makes `switch (key)` raise NullPointerException; `LogParam` has no null, so this case is not modelled.
- Clock: `getFDate()` becomes a `time` parameter, one reading per call. The source reads the clock separately for the console and the file write, so the two times could differ by a second.
- Formatter: only `%s`, `%d`, `%n` and `%%` are interpreted. Flags, widths, indices and other conversions give the fault `OutsideModel` instead of Java's output. Arguments are strings, integers or null. `%d` always writes ASCII digits and `-`: the digits and minus sign of the default format locale are not modelled.
- Stream errors and buffering are not modelled. `flush()` and `PrintStream`'s swallowed `IOException`s are out, and each sink keeps what was written.
- Aliasing is not modelled: `out` and `err` are independent values, even if the caller passed the same stream for both, or `System.out`. Output the constructor sends to the process's own streams is left out with it: the diagnostic `System.out.println` and the `printStackTrace()` of a swallowed `IOException`, which goes to `System.err` and so may land in `err`.
- A null text, a null level and a null name or header are not modelled. The `default` branches of the `switch` statements, only reachable with unrecognised enum constants, are left out too.
- The side effects of a constructor that raises are not kept: a header already written to a file or a stream is lost along with the logger.
- `Builder.build()` calls a `Logger(Builder)` constructor that is not part of this model. Its outcome is the parameter of `LoggerBuilder.Build`.
- EzLogger.Logger.LogFile: the class keeps `getLogFile()` as written; the corrected `LogFileCorrected` needs the date marker of the generated file name, which the class does not store.
- The legacy `allowColors` field is unused by the code and is left out.
- Concurrency is left out; the code has no synchronisation.

## Findings

| source | as written | input that shows it | evidently intended | confidence | as-written member | corrected member |
|---|---|---|---|---|---|---|
| src/main/java/com/limelion/logger/Logger.java:172-200 | `newLogger` iterates `params.keySet()` unconditionally, although its documentation says a null map means the defaults | `newLogger("n", "", null)` raises NullPointerException | a null map yields the logger of the default settings | high; not executed | EzLogger.Logger.NewLoggerAsWritten | EzLogger.Logger.NewLoggerCorrected |
| src/com/limelion/logger/Logger.java:124-128 | undated `err` (and `debug`, lines 145-149) passes two arguments to the dated three-hole format | a logger with `printDate == false` calling `err("x")` prints `[name] x [Error]: ` and raises MissingFormatArgumentException | the dated format without the date hole, `[name] [Error]: x` | high; not executed | LegacyLogger.UndatedErrorAsWritten | LegacyLogger.UndatedErrorCorrected |
| src/main/java/com/limelion/logger/Logger.java:588-595 | `getLogFile()` returns the `logfile` argument, which stays null when the constructor generates the file it writes to | a logger built with file output and no log file writes `logs\name_date.log`, yet `getLogFile()` returns null | the file this logger writes to, as its documentation says, or null without file output | high; not executed | EzLogger.GeneratedLogFileNotReported | EzLogger.CorrectedLogFileIsWritten |
