/** `com.limelion.logger.Logger` (version 2.2): a logger that writes each
    line to a console stream and to a log file, with an optional line
    descriptor made of the logger's name, the time and the level. */
module EzLogger {
  import opened Wrappers
  import opened Io
  import opened Formatter
  import opened Levels
  import P = LoggerParams

  /** The format of a line without arguments: name, date, level, text. */
  const BaseLineDescriptor: string := "%s%s%s%s%n"
  /** The prefix of a line with arguments; the text and `%n` follow it. */
  const FormatLineDescriptor: string := "%s%s%s"

  /** The fields of a logger that its methods read or write. `pw` is the
      log file's `PrintWriter`; `logfile` is the file given at construction
      (None for null). */
  datatype LoggerState = LoggerState(
    name: string, header: string,
    out: Sink, err: Sink, pw: Sink,
    printDate: bool, printName: bool, printDebug: bool,
    printToConsole: bool, printToFile: bool, printLineDescriptor: bool,
    logfile: Option<string>)

  /** A logger's state after a call, and the exception the call raised. */
  datatype Outcome = Outcome(state: LoggerState, thrown: Option<Fault>)

  /** What every constructed logger keeps: the date only ever appears
      inside a line descriptor, and a print writer exists only when file
      output was asked for. */
  predicate Coherent(s: LoggerState)
  {
    (!s.printLineDescriptor ==> !s.printDate) && (!s.printToFile ==> !s.pw.attached)
  }

  /** `getPrintedName()`. */
  function PrintedName(s: LoggerState): (r: string)
    ensures r != "" <==> s.printLineDescriptor && s.printName
    ensures r != "" ==> r == "[" + s.name + "] "
  {
    if s.printLineDescriptor && s.printName then "[" + s.name + "] " else ""
  }

  /** `getPrintedDate()`, with the clock reading `time` (`HH:mm:ss`). */
  function PrintedDate(s: LoggerState, time: string): (r: string)
    ensures r != "" <==> s.printLineDescriptor && s.printDate
    ensures r != "" ==> r == "- " + time + " "
  {
    if s.printLineDescriptor then (if s.printDate then "- " + time + " " else "") else ""
  }

  /** `getPrintedLevel(level)`. */
  function PrintedLevel(s: LoggerState, level: LogLevel): (r: string)
    ensures !s.printLineDescriptor || level == INFO ==> r == ": "
    ensures s.printLineDescriptor && level == DEBUG ==> r == "[Debug]: "
    ensures s.printLineDescriptor && level == ERR ==> r == "[Error]: "
  {
    if s.printLineDescriptor then
      match level
      case INFO => ": "
      case DEBUG => "[Debug]: "
      case ERR => "[Error]: "
    else ": "
  }

  /** The arguments of a line without arguments. */
  function BaseArgs(s: LoggerState, level: LogLevel, text: string, time: string): seq<Arg>
  {
    Strs([PrintedName(s), PrintedDate(s, time), PrintedLevel(s, level), text])
  }

  /** The list `formatArgs` builds: the three descriptor parts, then the
      caller's arguments. */
  function FormatArgList(s: LoggerState, level: LogLevel, args: seq<Arg>, time: string): seq<Arg>
  {
    Strs([PrintedName(s), PrintedDate(s, time), PrintedLevel(s, level)]) + args
  }

  /** What `printf(baseLineDescriptor, ...)` prints for a line without
      arguments. */
  function BaseLine(s: LoggerState, level: LogLevel, text: string, time: string): Printed
  {
    Format(BaseLineDescriptor, BaseArgs(s, level, text, time))
  }

  /** What `printf(formatLineDescriptor + text + "%n", formatArgs(level,
      args))` prints; a null argument array makes `formatArgs` raise
      NullPointerException before anything is printed. */
  function ArgsLine(s: LoggerState, level: LogLevel, text: string, args: Option<seq<Arg>>, time: string): Printed
  {
    if args.None? then Printed("", Some(NullPointer))
    else Format(FormatLineDescriptor + text + "%n", FormatArgList(s, level, args.value, time))
  }

  /** The console stream of a level: `err` for errors, `out` otherwise. */
  function Console(s: LoggerState, level: LogLevel): Sink
  {
    if level == ERR then s.err else s.out
  }

  function WithConsole(s: LoggerState, level: LogLevel, h: Sink): LoggerState
  {
    if level == ERR then s.(err := h) else s.(out := h)
  }

  /** One line printed to the console (if enabled) and then to the file (if
      enabled); an exception on the console skips the file. */
  function Deliver(s: LoggerState, level: LogLevel, p: Printed): Outcome
  {
    var c := Emit(Console(s, level), s.printToConsole, p);
    var s1 := WithConsole(s, level, c.sink);
    if c.thrown.Some? then Outcome(s1, c.thrown)
    else
      var f := Emit(s1.pw, s1.printToFile, p);
      Outcome(s1.(pw := f.sink), f.thrown)
  }

  /** `info(text)`, `err(text)` and `debug(text)`: debug lines are printed
      only while debugging is on. */
  function LevelSpec(s: LoggerState, level: LogLevel, text: string, time: string): Outcome
  {
    if level == DEBUG && !s.printDebug then Outcome(s, None)
    else Deliver(s, level, BaseLine(s, level, text, time))
  }

  /** `info(text, args)`, `err(text, args)` and `debug(text, args)`: the
      text is a format string. `err` and `debug` fall back to the form
      without arguments when the array is null; `info` does not. */
  function ArgsSpec(s: LoggerState, level: LogLevel, text: string, args: Option<seq<Arg>>, time: string): Outcome
  {
    if args.None? && level != INFO then LevelSpec(s, level, text, time)
    else if level == DEBUG && !s.printDebug then Outcome(s, None)
    else Deliver(s, level, ArgsLine(s, level, text, args, time))
  }

  /** `log(text, level, args)`: a null array falls back to `log(text,
      level)` for every level. */
  function LogArgsSpec(s: LoggerState, level: LogLevel, text: string, args: Option<seq<Arg>>, time: string): Outcome
  {
    if args.None? then LevelSpec(s, level, text, time) else ArgsSpec(s, level, text, args, time)
  }

  /** `close()`: close and drop the print writer, then the output stream;
      a null reference raises NullPointerException where it is met. */
  function CloseSpec(s: LoggerState): Outcome
  {
    if !s.pw.attached then Outcome(s, Some(NullPointer))
    else
      var s1 := s.(pw := Sink(false, s.pw.text));
      if !s1.out.attached then Outcome(s1, Some(NullPointer))
      else Outcome(s1.(out := Sink(false, s1.out.text)), None)
  }

  /** `getLogFile()`: the file given at construction while file output is
      on. */
  function ReportedLogFile(s: LoggerState): Option<string>
  {
    if s.printToFile then s.logfile else None
  }

  /** A `File`'s path drops its trailing separators (the root `/` aside,
      which has no parent either). */
  function StripTrailingSeparators(path: string): (r: string)
    ensures r <= path
    ensures r == [] || r[|r| - 1] != '/'
    ensures forall i :: |r| <= i < |path| ==> path[i] == '/'
  {
    if path != [] && path[|path| - 1] == '/' then StripTrailingSeparators(path[..|path| - 1]) else path
  }

  /** `logfile.getParent() != null` on Unix: the normalised path has a
      separator that is not its last character, so a bare file name, the
      root `/` and a bare directory `logs/` have no parent, and
      `new File(null)` raises NullPointerException. */
  predicate HasParent(path: string)
  {
    '/' in StripTrailingSeparators(path)
  }

  /** A file inside a directory has that directory as parent; a bare name,
      a bare directory and the root have none. */
  lemma ParentOfPaths(dir: string, file: string)
    requires file != [] && '/' !in file
    ensures HasParent(dir + "/" + file)
    ensures !HasParent(file) && !HasParent(file + "/") && !HasParent("/")
  {
    var p := dir + "/" + file;
    assert p[|p| - 1] == file[|file| - 1];
    assert p[|dir|] == '/';
    var q := file + "/";
    assert q[..|q| - 1] == file;
    assert StripTrailingSeparators(file) == file;
    assert "/"[..0] == [];
  }

  /** The file header: `pw.println(header)` when file output and the header
      are on. `fileOpens` says whether creating the file succeeded; when it
      does not, the `IOException` is swallowed and `pw` stays null. */
  function OpenedFile(name: string, header: string, st: P.Settings, fileOpens: bool): Step
  {
    if !st.printToFile then Step(Sink(false, ""), None)
    else if st.logfile.Some? && !HasParent(st.logfile.value) then Step(Sink(false, ""), Some(NullPointer))
    else
      var pw := Sink(fileOpens, "");
      if st.printHeader then Println(pw, header) else Step(pw, None)
  }

  /** The 12-argument constructor: the logger it builds, or the exception it
      raises. */
  function Opened(name: string, header: string, st: P.Settings, fileOpens: bool): (r: Result<LoggerState, Fault>)
    ensures r.Failure? <==>
      || (st.printToFile && st.logfile.Some? && !HasParent(st.logfile.value))
      || (st.printToFile && st.printHeader && !fileOpens)
      || (st.printToConsole && st.printHeader && !st.out.attached)
    ensures r.Failure? ==> r.error == NullPointer
    ensures r.Success? ==>
      && Coherent(r.value)
      && r.value.pw.attached == (st.printToFile && fileOpens)
      && r.value.pw.text == (if st.printToFile && st.printHeader then header + NL else "")
      && r.value.out.text == st.out.text + (if st.printToConsole && st.printHeader then header + NL else "")
      && r.value.err == st.err
      && r.value.printDate == (st.printDate && st.printLineDescriptor)
  {
    var f := OpenedFile(name, header, st, fileOpens);
    if f.thrown.Some? then Failure(f.thrown.value)
    else
      var c := if st.printToConsole && st.printHeader then Println(st.out, header) else Step(st.out, None);
      if c.thrown.Some? then Failure(c.thrown.value)
      else Success(LoggerState(
        name, header, c.sink, st.err, f.sink,
        st.printDate && st.printLineDescriptor, st.printName, st.printDebug,
        st.printToConsole, st.printToFile, st.printLineDescriptor, st.logfile))
  }

  /** Three `%s` holes in front of a template: the descriptor prefix. */
  lemma ThreeHoles(rest: seq<string>, last: string)
    ensures Template(["", "", ""] + rest, last) == FormatLineDescriptor + Template(rest, last)
  {
    var t := ["", "", ""] + rest;
    assert t[1..] == ["", ""] + rest;
    assert t[1..][1..] == [""] + rest;
    assert t[1..][1..][1..] == rest;
    var tail := Template(rest, last);
    assert Template(t[1..][1..], last) == "%s" + tail;
    assert Template(t[1..], last) == "%s" + ("%s" + tail);
    assert Template(t, last) == "%s" + ("%s" + ("%s" + tail));
    assert FormatLineDescriptor == "%s" + "%s" + "%s";
  }

  /** Filling the three descriptor holes prints the descriptor parts. */
  lemma FilledThree(rest: seq<string>, n: string, d: string, l: string, xs: seq<string>, last: string)
    ensures Filled(["", "", ""] + rest, [n, d, l] + xs, last) == Then(n + d + l, Filled(rest, xs, last))
  {
    var t := ["", "", ""] + rest;
    var a := [n, d, l] + xs;
    assert t[1..] == ["", ""] + rest && a[1..] == [d, l] + xs;
    assert t[1..][1..] == [""] + rest && a[1..][1..] == [l] + xs;
    assert t[1..][1..][1..] == rest && a[1..][1..][1..] == xs;
    var f := Filled(rest, xs, last);
    assert Filled(t[1..][1..], a[1..][1..], last) == Printed(l + f.text, f.thrown);
    assert Filled(t[1..], a[1..], last) == Printed(d + (l + f.text), f.thrown);
    assert Filled(t, a, last) == Printed(n + (d + (l + f.text)), f.thrown);
    assert n + (d + (l + f.text)) == n + d + l + f.text;
  }

  /** Without arguments a line is the name, the date, the level and the
      text, followed by a line separator; the text is printed as it is, a
      `%` in it included. */
  lemma BaseLineIsConcatenation(s: LoggerState, level: LogLevel, text: string, time: string)
    ensures BaseLine(s, level, text, time)
         == Printed(PrintedName(s) + PrintedDate(s, time) + PrintedLevel(s, level) + text + NL, None)
  {
    var n, d, l := PrintedName(s), PrintedDate(s, time), PrintedLevel(s, level);
    NewlineOnly([]);
    HoleThen("%n", text, []);
    DescriptorThen("%s" + "%n", n, d, l, [Str(text)] + []);
    assert BaseLineDescriptor == FormatLineDescriptor + ("%s" + "%n");
    assert BaseArgs(s, level, text, time) == Strs([n, d, l]) + ([Str(text)] + []);
    assert n + d + l + (text + NL) == n + d + l + text + NL;
  }

  /** In a constructed logger the date part appears exactly when dates
      are on, since the constructor turns dates off without the
      descriptor; the time is shown as given. */
  lemma DescriptorParts(s: LoggerState, time: string)
    requires Coherent(s)
    ensures PrintedDate(s, time) != "" <==> s.printDate
    ensures s.printDate ==> PrintedDate(s, time) == "- " + time + " "
  {
  }

  /** With the line descriptor off, a line is `": "` and the text: no name,
      no date and no level. */
  lemma NoDescriptorLine(s: LoggerState, level: LogLevel, text: string, time: string)
    requires !s.printLineDescriptor
    ensures BaseLine(s, level, text, time) == Printed(": " + text + NL, None)
  {
    BaseLineIsConcatenation(s, level, text, time);
  }

  /** With the line descriptor on, the three levels are told apart by
      their level token. */
  lemma LevelTokensDistinct(s: LoggerState, l1: LogLevel, l2: LogLevel)
    requires s.printLineDescriptor
    ensures PrintedLevel(s, l1) == PrintedLevel(s, l2) <==> l1 == l2
  {
    assert ": "[0] == ':' && "[Debug]: "[1] == 'D' && "[Error]: "[1] == 'E';
  }

  /** A text without `%` prints the same line with arguments as without
      them; the arguments are ignored. */
  lemma ArgsLineWithoutPlaceholders(s: LoggerState, level: LogLevel, text: string, args: seq<Arg>, time: string)
    requires '%' !in text
    ensures ArgsLine(s, level, text, Some(args), time) == BaseLine(s, level, text, time)
  {
    var n, d, l := PrintedName(s), PrintedDate(s, time), PrintedLevel(s, level);
    assert Format(text + "%n", args) == Printed(text + NL, None) && Parse(text + "%n").Success? by {
      NewlineOnly(args);
      TextThen(text, "%n", args);
    }
    assert ArgsLine(s, level, text, Some(args), time) == Then(n + d + l, Printed(text + NL, None)) by {
      DescriptorThen(text + "%n", n, d, l, args);
      assert FormatLineDescriptor + text + "%n" == FormatLineDescriptor + (text + "%n");
    }
    assert n + d + l + (text + NL) == n + d + l + text + NL;
    BaseLineIsConcatenation(s, level, text, time);
  }

  /** A `%s` in the text is replaced by the first argument, and the
      arguments after it are ignored. */
  lemma ArgsLineSubstitutes(s: LoggerState, level: LogLevel, before: string, after: string,
                            x: string, rest: seq<Arg>, time: string)
    requires '%' !in before && '%' !in after
    ensures ArgsLine(s, level, before + "%s" + after, Some([Str(x)] + rest), time)
         == Printed(PrintedName(s) + PrintedDate(s, time) + PrintedLevel(s, level) + before + x + after + NL, None)
  {
    var n, d, l := PrintedName(s), PrintedDate(s, time), PrintedLevel(s, level);
    ThreeHoles([before], after);
    assert [before][1..] == [];
    assert FormatLineDescriptor + (before + "%s" + after) + "%n" == FormatLineDescriptor + Template([before], after);
    FormatTemplate(["", "", ""] + [before], after, [n, d, l, x], rest);
    assert Strs([n, d, l, x]) + rest == FormatArgList(s, level, [Str(x)] + rest, time);
    FilledThree([before], n, d, l, [x], after);
    assert [n, d, l] + [x] == [n, d, l, x];
    assert [x][1..] == [];
  }

  /** A `%d` in the text is replaced by the integer argument in decimal. */
  lemma ArgsLineDecimal(s: LoggerState, level: LogLevel, before: string, after: string,
                        i: int, rest: seq<Arg>, time: string)
    requires '%' !in before && '%' !in after
    ensures ArgsLine(s, level, before + "%d" + after, Some([Int(i)] + rest), time)
         == Printed(PrintedName(s) + PrintedDate(s, time) + PrintedLevel(s, level) + before + Decimal(i) + after + NL, None)
  {
    var n, d, l := PrintedName(s), PrintedDate(s, time), PrintedLevel(s, level);
    var args := [Int(i)] + rest;
    var body := before + ("%d" + (after + "%n"));
    var dec := Decimal(i);
    assert Format(body, args) == Printed(before + dec + after + NL, None) by {
      DecimalLine(before, after, i, rest);
    }
    assert ArgsLine(s, level, before + "%d" + after, Some(args), time)
        == Format(FormatLineDescriptor + body, Strs([n, d, l]) + args) by {
      assert FormatLineDescriptor + (before + "%d" + after) + "%n" == FormatLineDescriptor + body;
    }
    assert Parse(body).Success? by {
      DecimalLine(before, after, i, rest);
    }
    DescriptorThen(body, n, d, l, args);
    assert n + d + l + (before + dec + after + NL) == n + d + l + before + dec + after + NL;
  }

  lemma DecimalLine(before: string, after: string, i: int, rest: seq<Arg>)
    requires '%' !in before && '%' !in after
    ensures Parse(before + ("%d" + (after + "%n"))).Success?
    ensures Format(before + ("%d" + (after + "%n")), [Int(i)] + rest)
         == Printed(before + Decimal(i) + after + NL, None)
  {
    var tail := after + "%n";
    NewlineOnly(rest);
    TextThen(after, "%n", rest);
    DecimalThen(tail, i, "", rest);
    TextThen(before, "%d" + tail, [Int(i)] + rest);
    assert before + (Decimal(i) + (after + NL)) == before + Decimal(i) + after + NL;
  }

  /** For example `info("count=%d", 3)` prints `count=3` after the
      descriptor. */
  lemma CountExample(s: LoggerState, level: LogLevel, time: string)
    ensures ArgsLine(s, level, "count=%d", Some([Int(3)]), time)
         == Printed(PrintedName(s) + PrintedDate(s, time) + PrintedLevel(s, level) + "count=3" + NL, None)
  {
    ArgsLineDecimal(s, level, "count=", "", 3, [], time);
    assert "count=" + "%d" + "" == "count=%d";
    assert Decimal(3) == "3";
    assert [Int(3)] + [] == [Int(3)];
  }

  /** A `%s` in the text with no argument for it: the line is printed up to
      the placeholder, then MissingFormatArgumentException is raised. */
  lemma ArgsLineMissingArgument(s: LoggerState, level: LogLevel, before: string, after: string, time: string)
    requires '%' !in before && '%' !in after
    ensures ArgsLine(s, level, before + "%s" + after, Some([]), time)
         == Printed(PrintedName(s) + PrintedDate(s, time) + PrintedLevel(s, level) + before, Some(MissingFormatArgument))
  {
    var n, d, l := PrintedName(s), PrintedDate(s, time), PrintedLevel(s, level);
    ThreeHoles([before], after);
    assert [before][1..] == [];
    assert FormatLineDescriptor + (before + "%s" + after) + "%n" == FormatLineDescriptor + Template([before], after);
    FormatTemplate(["", "", ""] + [before], after, [n, d, l], []);
    assert Strs([n, d, l]) + [] == FormatArgList(s, level, [], time);
    FilledThree([before], n, d, l, [], after);
    assert [n, d, l] + [] == [n, d, l];
  }

  /** The three descriptor holes print the three descriptor parts. */
  lemma DescriptorThen(rest: string, n: string, d: string, l: string, args: seq<Arg>)
    requires Parse(rest).Success?
    ensures Format(FormatLineDescriptor + rest, Strs([n, d, l]) + args) == Then(n + d + l, Format(rest, args))
  {
    HolesThen([n, d, l], rest, args);
    assert Holes(1) == "%s" + "";
    assert Holes(2) == "%s" + Holes(1);
    assert Holes(3) == "%s" + Holes(2);
    assert Holes(3) == FormatLineDescriptor;
    var xs := [n, d, l];
    assert xs[1..] == [d, l] && xs[1..][1..] == [l] && xs[1..][1..][1..] == [];
    assert Concat([l]) == l + Concat([]);
    assert Concat([d, l]) == d + Concat([l]);
    assert Concat(xs) == n + Concat([d, l]);
    assert Concat(xs) == n + d + l;
  }

  lemma PercentEndSplits(t: string)
    ensures FormatLineDescriptor + (t + "%") + "%n" == FormatLineDescriptor + (t + "%%n")
  {
    assert "%" + "%n" == "%%n";
  }

  /** A text ending in `%` joins the `%n` after it into an escaped `%`: the
      line ends in the two characters `%n` and no line separator. */
  lemma TrailingPercentSwallowsNewline(s: LoggerState, level: LogLevel, t: string, args: seq<Arg>, time: string)
    requires '%' !in t
    ensures ArgsLine(s, level, t + "%", Some(args), time)
         == Printed(PrintedName(s) + PrintedDate(s, time) + PrintedLevel(s, level) + t + "%n", None)
  {
    var n, d, l := PrintedName(s), PrintedDate(s, time), PrintedLevel(s, level);
    EscapedPercentThenN(args);
    TextThen(t, "%%n", args);
    DescriptorThen(t + "%%n", n, d, l, args);
    PercentEndSplits(t);
    assert n + d + l + (t + "%n") == n + d + l + t + "%n";
  }

  /** A line goes to the console stream of its level and to the file, and
      nowhere else: errors never reach `out`, other levels never reach
      `err`, every sink only grows, and no setting changes. */
  lemma DeliverRoutes(s: LoggerState, level: LogLevel, p: Printed)
    ensures var r := Deliver(s, level, p).state;
      && (level == ERR ==> r.out == s.out)
      && (level != ERR ==> r.err == s.err)
      && s.out.text <= r.out.text && s.err.text <= r.err.text && s.pw.text <= r.pw.text
      && r.out.attached == s.out.attached && r.err.attached == s.err.attached
      && r.pw.attached == s.pw.attached
      && r.(out := s.out, err := s.err, pw := s.pw) == s
  {
  }

  /** A line succeeds exactly when every enabled sink is attached and the
      formatting raises nothing; the console of the level and the file
      then each receive the printed text once. */
  lemma DeliverSucceeds(s: LoggerState, level: LogLevel, p: Printed)
    ensures var r := Deliver(s, level, p);
      r.thrown.None? <==>
        && (s.printToConsole ==> Console(s, level).attached && p.thrown.None?)
        && (s.printToFile ==> s.pw.attached && p.thrown.None?)
    ensures var r := Deliver(s, level, p);
      r.thrown.None? ==>
        && Console(r.state, level).text == Console(s, level).text + (if s.printToConsole then p.text else "")
        && r.state.pw.text == s.pw.text + (if s.printToFile then p.text else "")
  {
  }

  /** With debugging off, both debug forms print nothing and raise
      nothing. */
  lemma DebugOffIsSilent(s: LoggerState, text: string, args: Option<seq<Arg>>, time: string)
    requires !s.printDebug
    ensures LevelSpec(s, DEBUG, text, time) == Outcome(s, None)
    ensures ArgsSpec(s, DEBUG, text, args, time) == Outcome(s, None)
  {
  }

  /** `info(text, null)` raises NullPointerException as soon as a sink is
      enabled and prints nothing, whereas `err`, `debug` and `log` with a
      null array print the line without arguments. */
  lemma NullArgsArray(s: LoggerState, level: LogLevel, text: string, time: string)
    ensures ArgsSpec(s, INFO, text, None, time)
         == Outcome(s, if s.printToConsole || s.printToFile then Some(NullPointer) else None)
    ensures level != INFO ==> ArgsSpec(s, level, text, None, time) == LevelSpec(s, level, text, time)
    ensures LogArgsSpec(s, level, text, None, time) == LevelSpec(s, level, text, time)
  {
    assert s.out.text + "" == s.out.text;
    assert s.pw.text + "" == s.pw.text;
  }

  /** A logger without file output has no print writer, so `close()`
      raises NullPointerException at once and leaves the output stream
      open. */
  lemma ConsoleOnlyLoggerCannotClose(s: LoggerState)
    requires Coherent(s) && !s.printToFile
    ensures CloseSpec(s) == Outcome(s, Some(NullPointer))
  {
  }

  /** After a successful `close()`, closing again raises
      NullPointerException, and so does every line without arguments once a
      sink is enabled: the output stream and the print writer are gone. A
      line with arguments raises too, though its format may raise first at
      the console; the file, written last, never receives anything. */
  lemma ClosedLoggerFails(s: LoggerState, level: LogLevel, text: string, args: Option<seq<Arg>>, time: string)
    requires Coherent(s) && CloseSpec(s).thrown.None?
    requires level != DEBUG || s.printDebug
    ensures var c := CloseSpec(s).state;
      && CloseSpec(c) == Outcome(c, Some(NullPointer))
      && LevelSpec(c, level, text, time).thrown == Some(NullPointer)
      && LevelSpec(c, level, text, time).state.pw == c.pw
    ensures var c := CloseSpec(s).state;
      && ArgsSpec(c, level, text, args, time).thrown.Some?
      && ArgsSpec(c, level, text, args, time).state.pw == c.pw
  {
    var c := CloseSpec(s).state;
    BaseLineIsConcatenation(c, level, text, time);
    DeliverSucceeds(c, level, BaseLine(c, level, text, time));
    DeliverRoutes(c, level, BaseLine(c, level, text, time));
    FileWrittenLastFails(c, level, ArgsLine(c, level, text, args, time));
  }

  /** With file output on and no print writer, a line raises, at the
      console or at the file, and the file receives nothing. */
  lemma FileWrittenLastFails(c: LoggerState, level: LogLevel, p: Printed)
    requires c.printToFile && !c.pw.attached
    ensures Deliver(c, level, p).thrown.Some?
    ensures Deliver(c, level, p).state.pw == c.pw
  {
  }

  /** `close()` leaves the error stream open: after it an error line still
      reaches that stream, before the missing print writer raises. */
  lemma ClosedLoggerStillWritesErrors(s: LoggerState, text: string, time: string)
    requires Coherent(s) && CloseSpec(s).thrown.None?
    requires s.printToConsole && s.err.attached
    ensures var c := CloseSpec(s).state;
      LevelSpec(c, ERR, text, time).state.err.text
        == s.err.text + (PrintedName(s) + PrintedDate(s, time) + PrintedLevel(s, ERR) + text + NL)
  {
    var c := CloseSpec(s).state;
    assert c.err == s.err && c.printToConsole;
    assert c.(pw := s.pw, out := s.out) == s;
    ErrStreamReceivesErrorLine(c, text, time);
    BaseLineIsConcatenation(c, ERR, text, time);
  }

  /** An error line reaches an attached error stream whatever happens at
      the file afterwards. */
  lemma ErrStreamReceivesErrorLine(c: LoggerState, text: string, time: string)
    requires c.printToConsole && c.err.attached
    ensures LevelSpec(c, ERR, text, time).state.err.text == c.err.text + BaseLine(c, ERR, text, time).text
  {
  }

  /** When the log file cannot be created the constructor swallows the
      `IOException` (possible only without a header), and every later
      line without arguments raises NullPointerException on the missing
      print writer. A line with arguments raises too, perhaps first at the
      console through its format, and the file receives nothing. */
  lemma UnopenedFileFailsEveryLine(name: string, header: string, st: P.Settings, level: LogLevel, text: string, args: Option<seq<Arg>>, time: string)
    requires st.printToFile && Opened(name, header, st, false).Success?
    requires level != DEBUG || st.printDebug
    ensures !st.printHeader
    ensures LevelSpec(Opened(name, header, st, false).value, level, text, time).thrown == Some(NullPointer)
    ensures var s := Opened(name, header, st, false).value;
      && ArgsSpec(s, level, text, args, time).thrown.Some?
      && ArgsSpec(s, level, text, args, time).state.pw == s.pw
  {
    var s := Opened(name, header, st, false).value;
    BaseLineIsConcatenation(s, level, text, time);
    FileWrittenLastFails(s, level, ArgsLine(s, level, text, args, time));
  }

  /** `getLogFile()` reports the file given at construction, never the
      name the constructor generates when none was given. */
  lemma ReportedLogFileIsTheGivenOne(name: string, header: string, st: P.Settings, fileOpens: bool)
    requires Opened(name, header, st, fileOpens).Success?
    ensures ReportedLogFile(Opened(name, header, st, fileOpens).value)
         == (if st.printToFile then st.logfile else None)
  {
  }

  /** The log file the constructor creates when none was given: `logs\`,
      the logger's name, the date marker, `.log`. */
  function GeneratedLogName(name: string, dateMarker: string): string
  {
    "logs\\" + name + dateMarker + ".log"
  }

  /** As written, a logger that writes to the file it generated reports
      no log file at all. */
  lemma GeneratedLogFileNotReported(name: string, header: string, st: P.Settings)
    requires st.printToFile && st.logfile.None? && Opened(name, header, st, true).Success?
    ensures Opened(name, header, st, true).value.pw.attached
    ensures ReportedLogFile(Opened(name, header, st, true).value) == None
  {
  }

  /** `getLogFile()` as documented: the file the logger writes to, given or
      generated, or none without file output. */
  function LogFileCorrected(s: LoggerState, dateMarker: string): (r: Option<string>)
    ensures r.Some? <==> s.printToFile
    ensures s.printToFile && s.logfile.Some? ==> r == s.logfile
  {
    if !s.printToFile then None
    else if s.logfile.Some? then s.logfile
    else Some(GeneratedLogName(s.name, dateMarker))
  }

  /** Corrected, every logger that writes to a file reports it, the
      generated one included, and agrees with the written version wherever
      that reports a file. */
  lemma CorrectedLogFileIsWritten(name: string, header: string, st: P.Settings, fileOpens: bool, dateMarker: string)
    requires Opened(name, header, st, fileOpens).Success?
    ensures var s := Opened(name, header, st, fileOpens).value;
      && (s.pw.attached ==> LogFileCorrected(s, dateMarker).Some?)
      && (st.printToFile && st.logfile.None? ==> LogFileCorrected(s, dateMarker) == Some(GeneratedLogName(name, dateMarker)))
      && (ReportedLogFile(s).Some? ==> LogFileCorrected(s, dateMarker) == ReportedLogFile(s))
  {
  }

  /** A logger object. The ghost fields remember what the file and the
      output stream began with once the header was written. */
  class Logger {
    var name: string
    var header: string
    var out: Sink
    var err: Sink
    var pw: Sink
    var printDate: bool
    var printName: bool
    var printDebug: bool
    var printToConsole: bool
    var printToFile: bool
    var printLineDescriptor: bool
    var logfile: Option<string>
    ghost var fileHead: string
    ghost var outHead: string

    function State(): LoggerState
      reads this
    {
      LoggerState(name, header, out, err, pw, printDate, printName, printDebug,
                  printToConsole, printToFile, printLineDescriptor, logfile)
    }

    /** The state stays coherent, and every write keeps the header at the
        head of the file and of the output stream. */
    ghost predicate Valid()
      reads this
    {
      Coherent(State()) && fileHead <= pw.text && outHead <= out.text
    }

    /** The field assignments at the head of the 12-argument constructor;
        the print writer is still null. */
    constructor Init(name: string, header: string, st: P.Settings)
      ensures State() == LoggerState(name, header, st.out, st.err, Sink(false, ""),
        st.printDate && st.printLineDescriptor, st.printName, st.printDebug,
        st.printToConsole, st.printToFile, st.printLineDescriptor, st.logfile)
    {
      this.printDebug := st.printDebug;
      this.name := name;
      this.out := st.out;
      this.err := st.err;
      this.printDate := st.printDate;
      this.header := header;
      this.printToConsole := st.printToConsole;
      this.printToFile := st.printToFile;
      this.printLineDescriptor := st.printLineDescriptor;
      this.logfile := st.logfile;
      this.printName := st.printName;
      this.pw := Sink(false, "");
      new;
      if !st.printLineDescriptor {
        this.printDate := false;
      }
    }

    /** `new Logger(name, header, out, err, printDebug, printDate,
        printToConsole, printToFile, printLineDescriptor, printHeader,
        printName, logfile)`: the logger, or the exception the constructor
        raises. */
    static method Create(name: string, header: string, st: P.Settings, fileOpens: bool)
      returns (r: Result<Logger, Fault>)
      ensures r.Success? <==> Opened(name, header, st, fileOpens).Success?
      ensures r.Failure? ==> r.error == Opened(name, header, st, fileOpens).error
      ensures r.Success? ==> fresh(r.value) && r.value.Valid()
      ensures r.Success? ==> r.value.State() == Opened(name, header, st, fileOpens).value
      ensures r.Success? ==> r.value.fileHead == (if st.printToFile && st.printHeader then header + NL else "")
      ensures r.Success? ==> r.value.outHead == st.out.text + (if st.printToConsole && st.printHeader then header + NL else "")
    {
      var l := new Logger.Init(name, header, st);
      var file := OpenedFile(name, header, st, fileOpens);
      if file.thrown.Some? {
        return Failure(file.thrown.value);
      }
      l.pw := file.sink;
      if st.printToConsole && st.printHeader {
        var step := Println(l.out, header);
        if step.thrown.Some? {
          return Failure(step.thrown.value);
        }
        l.out := step.sink;
      }
      l.fileHead := l.pw.text;
      l.outHead := l.out.text;
      r := Success(l);
    }

    /** `new Logger(name, header, out, err)`, and `new Logger(name, header)`
        with the system streams passed as `out` and `err`. */
    static method CreateWithStreams(name: string, header: string, out: Sink, err: Sink, fileOpens: bool)
      returns (r: Result<Logger, Fault>)
      ensures r.Success? <==> Opened(name, header, P.Defaults(out, err), fileOpens).Success?
      ensures r.Success? ==> fresh(r.value) && r.value.Valid()
      ensures r.Success? ==> r.value.State() == Opened(name, header, P.Defaults(out, err), fileOpens).value
    {
      r := Create(name, header, P.Settings(out, err, false, true, true, true, true, true, true, None), fileOpens);
    }

    /** `Logger.newLogger(name, header, params)` on a map: the loop over
        the keys in the map's iteration order `order`, then the 12-argument
        constructor. */
    static method FromMap(name: string, header: string, params: P.ParamMap,
                          order: seq<P.LogParam>, systemOut: Sink, systemErr: Sink, fileOpens: bool)
      returns (r: Result<Logger, Fault>)
      requires P.IsKeyOrder(order, params)
      ensures !P.WellTyped(params) ==> r.Failure? && exists k :: k in params && P.CastFault(k, params[k]) == Some(r.error)
      ensures P.WellTyped(params) ==>
        var st := P.SettingsOf(params, systemOut, systemErr);
        && (r.Success? <==> Opened(name, header, st, fileOpens).Success?)
        && (r.Failure? ==> r.error == Opened(name, header, st, fileOpens).error)
        && (r.Success? ==> fresh(r.value) && r.value.Valid() && r.value.State() == Opened(name, header, st, fileOpens).value)
    {
      var settings := P.ResolveParams(params, order, systemOut, systemErr);
      if settings.Failure? {
        return Failure(settings.error);
      }
      r := Create(name, header, settings.value, fileOpens);
    }

    /** `Logger.newLogger(name, header, params)` as written: `params.keySet()`
        raises NullPointerException on a null map. */
    static method NewLoggerAsWritten(name: string, header: string, params: Option<P.ParamMap>,
                                     order: seq<P.LogParam>, systemOut: Sink, systemErr: Sink, fileOpens: bool)
      returns (r: Result<Logger, Fault>)
      requires params.Some? ==> P.IsKeyOrder(order, params.value)
      ensures params.None? ==> r == Failure(NullPointer)
      ensures params.Some? && !P.WellTyped(params.value) ==>
        r.Failure? && exists k :: k in params.value && P.CastFault(k, params.value[k]) == Some(r.error)
      ensures params.Some? && P.WellTyped(params.value) ==>
        var st := P.SettingsOf(params.value, systemOut, systemErr);
        && (r.Success? <==> Opened(name, header, st, fileOpens).Success?)
        && (r.Success? ==> fresh(r.value) && r.value.Valid() && r.value.State() == Opened(name, header, st, fileOpens).value)
    {
      var keys := P.KeysAsWritten(params);
      if keys.Failure? {
        return Failure(keys.error);
      }
      r := FromMap(name, header, params.value, order, systemOut, systemErr, fileOpens);
    }

    /** `Logger.newLogger(name, header, params)` as documented: a null map
        stands for no parameters, so it gives the default logger. */
    static method NewLoggerCorrected(name: string, header: string, params: Option<P.ParamMap>,
                                     order: seq<P.LogParam>, systemOut: Sink, systemErr: Sink, fileOpens: bool)
      returns (r: Result<Logger, Fault>)
      requires P.IsKeyOrder(order, P.ParamsOrEmpty(params))
      ensures params.None? ==>
        var st := P.Defaults(systemOut, systemErr);
        && (r.Success? <==> Opened(name, header, st, fileOpens).Success?)
        && (r.Success? ==> fresh(r.value) && r.value.Valid() && r.value.State() == Opened(name, header, st, fileOpens).value)
      ensures !P.WellTyped(P.ParamsOrEmpty(params)) ==>
        r.Failure? && exists k :: k in P.ParamsOrEmpty(params) && P.CastFault(k, P.ParamsOrEmpty(params)[k]) == Some(r.error)
      ensures P.WellTyped(P.ParamsOrEmpty(params)) ==>
        var st := P.SettingsOf(P.ParamsOrEmpty(params), systemOut, systemErr);
        && (r.Success? <==> Opened(name, header, st, fileOpens).Success?)
        && (r.Success? ==> fresh(r.value) && r.value.Valid() && r.value.State() == Opened(name, header, st, fileOpens).value)
    {
      P.NullParamsGiveDefaults(systemOut, systemErr);
      r := FromMap(name, header, P.ParamsOrEmpty(params), order, systemOut, systemErr, fileOpens);
    }

    /** `printf` on the console stream of the level, then on the file, each
        under its switch. */
    method Write(level: LogLevel, p: Printed) returns (thrown: Option<Fault>)
      requires Valid()
      modifies this
      ensures Valid() && fileHead == old(fileHead) && outHead == old(outHead)
      ensures Outcome(State(), thrown) == Deliver(old(State()), level, p)
    {
      if printToConsole {
        if level == ERR {
          var step := Emit(err, true, p);
          err := step.sink;
          if step.thrown.Some? {
            return step.thrown;
          }
        } else {
          var step := Emit(out, true, p);
          out := step.sink;
          if step.thrown.Some? {
            return step.thrown;
          }
        }
      }
      thrown := None;
      if printToFile {
        var step := Emit(pw, true, p);
        pw := step.sink;
        thrown := step.thrown;
      }
    }

    /** `formatArgs(level, args)`: the descriptor parts followed by the
        caller's arguments, copied one by one; a null array raises
        NullPointerException. */
    method FormatArgs(level: LogLevel, args: Option<seq<Arg>>, time: string) returns (r: Result<seq<Arg>, Fault>)
      ensures args.None? ==> r == Failure(NullPointer)
      ensures args.Some? ==> r.Success? && |r.value| == 3 + |args.value|
      ensures args.Some? ==> r.value[3..] == args.value
      ensures args.Some? ==> r.value[..3] == [Str(PrintedName(State())), Str(PrintedDate(State(), time)), Str(PrintedLevel(State(), level))]
    {
      var list := [Str(PrintedName(State())), Str(PrintedDate(State(), time)), Str(PrintedLevel(State(), level))];
      if args.None? {
        return Failure(NullPointer);
      }
      var a := args.value;
      ghost var descriptor := list;
      for i := 0 to |a|
        invariant |list| == 3 + i
        invariant list[..3] == descriptor
        invariant list[3..] == a[..i]
      {
        list := list + [a[i]];
      }
      r := Success(list);
    }

    /** The line of a call with arguments, printed to the enabled sinks. */
    method WriteArgs(level: LogLevel, text: string, args: Option<seq<Arg>>, time: string) returns (thrown: Option<Fault>)
      requires Valid()
      modifies this
      ensures Valid() && fileHead == old(fileHead) && outHead == old(outHead)
      ensures Outcome(State(), thrown) == Deliver(old(State()), level, ArgsLine(old(State()), level, text, args, time))
    {
      var list := FormatArgs(level, args, time);
      var p: Printed;
      if list.Failure? {
        p := Printed("", Some(list.error));
      } else {
        assert list.value == FormatArgList(State(), level, args.value, time);
        p := Format(FormatLineDescriptor + text + "%n", list.value);
      }
      thrown := Write(level, p);
    }

    /** `info(text)`. */
    method Info(text: string, time: string) returns (thrown: Option<Fault>)
      requires Valid()
      modifies this
      ensures Valid() && fileHead == old(fileHead) && outHead == old(outHead)
      ensures Outcome(State(), thrown) == LevelSpec(old(State()), INFO, text, time)
    {
      thrown := Write(INFO, Format(BaseLineDescriptor, BaseArgs(State(), INFO, text, time)));
    }

    /** `err(text)`. */
    method Err(text: string, time: string) returns (thrown: Option<Fault>)
      requires Valid()
      modifies this
      ensures Valid() && fileHead == old(fileHead) && outHead == old(outHead)
      ensures Outcome(State(), thrown) == LevelSpec(old(State()), ERR, text, time)
    {
      thrown := Write(ERR, Format(BaseLineDescriptor, BaseArgs(State(), ERR, text, time)));
    }

    /** `debug(text)`. */
    method Debug(text: string, time: string) returns (thrown: Option<Fault>)
      requires Valid()
      modifies this
      ensures Valid() && fileHead == old(fileHead) && outHead == old(outHead)
      ensures Outcome(State(), thrown) == LevelSpec(old(State()), DEBUG, text, time)
    {
      thrown := None;
      if printDebug {
        thrown := Write(DEBUG, Format(BaseLineDescriptor, BaseArgs(State(), DEBUG, text, time)));
      }
    }

    /** `info(text, args)`: no null check on the array. */
    method InfoArgs(text: string, args: Option<seq<Arg>>, time: string) returns (thrown: Option<Fault>)
      requires Valid()
      modifies this
      ensures Valid() && fileHead == old(fileHead) && outHead == old(outHead)
      ensures Outcome(State(), thrown) == ArgsSpec(old(State()), INFO, text, args, time)
    {
      thrown := WriteArgs(INFO, text, args, time);
    }

    /** `err(text, args)`. */
    method ErrArgs(text: string, args: Option<seq<Arg>>, time: string) returns (thrown: Option<Fault>)
      requires Valid()
      modifies this
      ensures Valid() && fileHead == old(fileHead) && outHead == old(outHead)
      ensures Outcome(State(), thrown) == ArgsSpec(old(State()), ERR, text, args, time)
    {
      if args.None? {
        thrown := Err(text, time);
        return;
      }
      thrown := WriteArgs(ERR, text, args, time);
    }

    /** `debug(text, args)`. */
    method DebugArgs(text: string, args: Option<seq<Arg>>, time: string) returns (thrown: Option<Fault>)
      requires Valid()
      modifies this
      ensures Valid() && fileHead == old(fileHead) && outHead == old(outHead)
      ensures Outcome(State(), thrown) == ArgsSpec(old(State()), DEBUG, text, args, time)
    {
      if args.None? {
        thrown := Debug(text, time);
        return;
      }
      thrown := None;
      if printDebug {
        thrown := WriteArgs(DEBUG, text, args, time);
      }
    }

    /** `log(text, level)`. */
    method Log(text: string, level: LogLevel, time: string) returns (thrown: Option<Fault>)
      requires Valid()
      modifies this
      ensures Valid() && fileHead == old(fileHead) && outHead == old(outHead)
      ensures Outcome(State(), thrown) == LevelSpec(old(State()), level, text, time)
    {
      match level {
        case INFO => thrown := Info(text, time);
        case DEBUG => thrown := Debug(text, time);
        case ERR => thrown := Err(text, time);
      }
    }

    /** `log(text, level, args)`. */
    method LogArgs(text: string, level: LogLevel, args: Option<seq<Arg>>, time: string) returns (thrown: Option<Fault>)
      requires Valid()
      modifies this
      ensures Valid() && fileHead == old(fileHead) && outHead == old(outHead)
      ensures Outcome(State(), thrown) == LogArgsSpec(old(State()), level, text, args, time)
    {
      if args.None? {
        thrown := Log(text, level, time);
        return;
      }
      match level {
        case INFO => thrown := InfoArgs(text, args, time);
        case DEBUG => thrown := DebugArgs(text, args, time);
        case ERR => thrown := ErrArgs(text, args, time);
      }
    }

    /** `setDebug(printDebug)`. */
    method SetDebug(printDebug: bool)
      requires Valid()
      modifies this
      ensures Valid() && fileHead == old(fileHead) && outHead == old(outHead)
      ensures State() == old(State()).(printDebug := printDebug)
    {
      this.printDebug := printDebug;
    }

    /** `getLogFile()`. */
    function LogFile(): (r: Option<string>)
      reads this
      ensures r == ReportedLogFile(State())
    {
      if printToFile then logfile else None
    }

    /** `close()`. */
    method Close() returns (thrown: Option<Fault>)
      requires Valid()
      modifies this
      ensures Valid() && fileHead == old(fileHead) && outHead == old(outHead)
      ensures Outcome(State(), thrown) == CloseSpec(old(State()))
    {
      if !pw.attached {
        return Some(NullPointer);
      }
      pw := Sink(false, pw.text);
      if !out.attached {
        return Some(NullPointer);
      }
      out := Sink(false, out.text);
      thrown := None;
    }
  }
}
