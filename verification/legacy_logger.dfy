/** The 1.x `com.limelion.logger.Logger`: fixed line formats per level,
    each line written to the log file first and then to the console. */
module LegacyLogger {
  import opened Wrappers
  import opened Io
  import opened Formatter
  import opened Levels

  const InfoDated: string := "[%s] - %s : %s%n"
  const InfoUndated: string := "[%s] : %s%n"
  const ErrorFormat: string := "[%s] %s [Error]: %s%n"
  const DebugFormat: string := "[%s] %s [Debug]: %s%n"
  /** The formats the undated `err` and `debug` evidently meant: the dated
      ones without the date hole. */
  const ErrorUndated: string := "[%s] [Error]: %s%n"
  const DebugUndated: string := "[%s] [Debug]: %s%n"

  /** The fields of a 1.x logger that its methods read or write. */
  datatype LegacyState = LegacyState(
    name: string, header: string,
    out: Sink, err: Sink, pw: Sink,
    printDate: bool, debug: bool, toConsole: bool, toFile: bool)

  datatype Outcome = Outcome(state: LegacyState, thrown: Option<Fault>)

  /** A print writer exists only when file output was asked for. */
  predicate Coherent(s: LegacyState)
  {
    !s.toFile ==> !s.pw.attached
  }

  /** The arguments each method passes: the name, the time when dated, the
      text. */
  function LineArgs(s: LegacyState, text: string, time: string): seq<Arg>
  {
    if s.printDate then Strs([s.name, time, text]) else Strs([s.name, text])
  }

  /** The format each method passes, as written: `err` and `debug` keep the
      dated format when the date is off. */
  function FormatAsWritten(level: LogLevel, dated: bool): (r: string)
    ensures level == ERR ==> r == ErrorFormat
    ensures level == DEBUG ==> r == DebugFormat
  {
    match level
    case INFO => if dated then InfoDated else InfoUndated
    case ERR => ErrorFormat
    case DEBUG => DebugFormat
  }

  /** The format with the undated `err` and `debug` corrected: it differs
      from the written one exactly there. */
  function LineFormat(level: LogLevel, dated: bool): (r: string)
    ensures r == FormatAsWritten(level, dated) <==> dated || level == INFO
  {
    match level
    case INFO => if dated then InfoDated else InfoUndated
    case ERR => if dated then ErrorFormat else ErrorUndated
    case DEBUG => if dated then DebugFormat else DebugUndated
  }

  /** What the method of `level` prints, as written: it raises exactly for
      an undated `err` or `debug`. */
  function LineAsWritten(s: LegacyState, level: LogLevel, text: string, time: string): (r: Printed)
    ensures r.thrown.None? <==> s.printDate || level == INFO
    ensures r.thrown.Some? ==> r.thrown == Some(MissingFormatArgument)
  {
    FormatsFill(s, level, text, time);
    Format(FormatAsWritten(level, s.printDate), LineArgs(s, text, time))
  }

  /** What the method of `level` prints, corrected: it never raises. */
  function Line(s: LegacyState, level: LogLevel, text: string, time: string): (r: Printed)
    ensures r.thrown.None?
  {
    FormatsFill(s, level, text, time);
    Format(LineFormat(level, s.printDate), LineArgs(s, text, time))
  }

  /** Every hole of a corrected format has its argument; the written
      undated `err` and `debug` formats have one hole too many. */
  lemma FormatsFill(s: LegacyState, level: LogLevel, text: string, time: string)
    ensures Format(LineFormat(level, s.printDate), LineArgs(s, text, time)).thrown.None?
    ensures var w := Format(FormatAsWritten(level, s.printDate), LineArgs(s, text, time));
      (w.thrown.None? <==> s.printDate || level == INFO) && (w.thrown.Some? ==> w.thrown == Some(MissingFormatArgument))
  {
    match level
    case INFO =>
      if s.printDate {
        InfoDatedIsTemplate();
        Fill3("[", "] - ", " : ", s.name, time, text);
      } else {
        InfoUndatedIsTemplate();
        Fill2("[", "] : ", s.name, text);
      }
    case ERR =>
      ErrorFormatIsTemplate();
      if s.printDate {
        Fill3("[", "] ", " [Error]: ", s.name, time, text);
      } else {
        Fill3Missing("[", "] ", " [Error]: ", s.name, text);
        ErrorUndatedIsTemplate();
        Fill2("[", "] [Error]: ", s.name, text);
      }
    case DEBUG =>
      DebugFormatIsTemplate();
      if s.printDate {
        Fill3("[", "] ", " [Debug]: ", s.name, time, text);
      } else {
        Fill3Missing("[", "] ", " [Debug]: ", s.name, text);
        DebugUndatedIsTemplate();
        Fill2("[", "] [Debug]: ", s.name, text);
      }
  }

  function Console(s: LegacyState, level: LogLevel): Sink
  {
    if level == ERR then s.err else s.out
  }

  function WithConsole(s: LegacyState, level: LogLevel, h: Sink): LegacyState
  {
    if level == ERR then s.(err := h) else s.(out := h)
  }

  /** One line printed to the file (if enabled) and then to the console
      stream of its level (if enabled); an exception on the file skips the
      console. */
  function Deliver(s: LegacyState, level: LogLevel, p: Printed): Outcome
  {
    var f := Emit(s.pw, s.toFile, p);
    var s1 := s.(pw := f.sink);
    if f.thrown.Some? then Outcome(s1, f.thrown)
    else
      var c := Emit(Console(s1, level), s1.toConsole, p);
      Outcome(WithConsole(s1, level, c.sink), c.thrown)
  }

  /** `info(text)`, `err(text)`, `debug(text)`; debug lines only while
      debugging is on. */
  function LevelSpec(s: LegacyState, level: LogLevel, text: string, time: string): Outcome
  {
    if level == DEBUG && !s.debug then Outcome(s, None)
    else Deliver(s, level, Line(s, level, text, time))
  }

  /** `close()`: close and drop the print writer. */
  function CloseSpec(s: LegacyState): Outcome
  {
    if !s.pw.attached then Outcome(s, Some(NullPointer))
    else Outcome(s.(pw := Sink(false, s.pw.text)), None)
  }

  /** The 8-argument constructor: with file output, the header is written to
      the file whether or not it could be created (a swallowed
      `IOException` leaves the writer null); with console output, to `out`. */
  function Opened(name: string, header: string, out: Sink, err: Sink, debug: bool, printDate: bool,
                  toConsole: bool, toFile: bool, fileOpens: bool): (r: Result<LegacyState, Fault>)
    ensures r.Failure? <==> (toFile && !fileOpens) || (toConsole && !out.attached)
    ensures r.Failure? ==> r.error == NullPointer
    ensures r.Success? ==>
      && Coherent(r.value)
      && r.value.pw.text == (if toFile then header + NL else "")
      && r.value.out.text == out.text + (if toConsole then header + NL else "")
      && r.value.err == err
  {
    var f := if toFile then Println(Sink(fileOpens, ""), header) else Step(Sink(false, ""), None);
    if f.thrown.Some? then Failure(f.thrown.value)
    else
      var c := if toConsole then Println(out, header) else Step(out, None);
      if c.thrown.Some? then Failure(c.thrown.value)
      else Success(LegacyState(name, header, c.sink, err, f.sink, printDate, debug, toConsole, toFile))
  }

  /** Two or three texts around `%s` holes, then `%n`. */
  lemma Template2(a: string, b: string)
    ensures Template([a, b], "") == a + "%s" + b + "%s" + "%n"
  {
    assert [a, b][1..] == [b] && [b][1..] == [];
    assert Template([b], "") == b + "%s" + ("" + "%n");
    assert Template([a, b], "") == a + "%s" + (b + "%s" + ("" + "%n"));
  }

  lemma Template3(a: string, b: string, c: string)
    ensures Template([a, b, c], "") == a + "%s" + b + "%s" + c + "%s" + "%n"
  {
    assert [a, b, c][1..] == [b, c];
    Template2(b, c);
    assert Template([a, b, c], "") == a + "%s" + (b + "%s" + c + "%s" + "%n");
  }

  lemma InfoDatedIsTemplate()
    ensures InfoDated == Template(["[", "] - ", " : "], "")
  {
    Template3("[", "] - ", " : ");
  }

  lemma InfoUndatedIsTemplate()
    ensures InfoUndated == Template(["[", "] : "], "")
  {
    Template2("[", "] : ");
  }

  lemma ErrorFormatIsTemplate()
    ensures ErrorFormat == Template(["[", "] ", " [Error]: "], "")
  {
    Template3("[", "] ", " [Error]: ");
  }

  lemma DebugFormatIsTemplate()
    ensures DebugFormat == Template(["[", "] ", " [Debug]: "], "")
  {
    Template3("[", "] ", " [Debug]: ");
  }

  lemma ErrorUndatedIsTemplate()
    ensures ErrorUndated == Template(["[", "] [Error]: "], "")
  {
    Template2("[", "] [Error]: ");
  }

  lemma DebugUndatedIsTemplate()
    ensures DebugUndated == Template(["[", "] [Debug]: "], "")
  {
    Template2("[", "] [Debug]: ");
  }

  /** Filling two and three holes. */
  lemma Fill2(a: string, b: string, x: string, y: string)
    requires '%' !in a && '%' !in b
    ensures Format(Template([a, b], ""), Strs([x, y])) == Printed(a + x + b + y + NL, None)
  {
    FormatTemplate([a, b], "", [x, y], []);
    assert Strs([x, y]) + [] == Strs([x, y]);
    assert [a, b][1..] == [b] && [x, y][1..] == [y];
    assert [b][1..] == [] && [y][1..] == [];
    assert Filled([b], [y], "") == Printed(b + y + ("" + NL), None);
    assert a + x + (b + y + ("" + NL)) == a + x + b + y + NL;
  }

  lemma Fill3(a: string, b: string, c: string, x: string, y: string, z: string)
    requires '%' !in a && '%' !in b && '%' !in c
    ensures Format(Template([a, b, c], ""), Strs([x, y, z])) == Printed(a + x + b + y + c + z + NL, None)
  {
    FormatTemplate([a, b, c], "", [x, y, z], []);
    assert Strs([x, y, z]) + [] == Strs([x, y, z]);
    assert [a, b, c][1..] == [b, c] && [x, y, z][1..] == [y, z];
    assert [b, c][1..] == [c] && [y, z][1..] == [z];
    assert [c][1..] == [] && [z][1..] == [];
    assert Filled([c], [z], "") == Printed(c + z + ("" + NL), None);
    assert Filled([b, c], [y, z], "") == Printed(b + y + (c + z + ("" + NL)), None);
    assert a + x + (b + y + (c + z + ("" + NL))) == a + x + b + y + c + z + NL;
  }

  /** Three holes and two arguments: the text up to the third hole, then
      MissingFormatArgumentException. */
  lemma Fill3Missing(a: string, b: string, c: string, x: string, y: string)
    requires '%' !in a && '%' !in b && '%' !in c
    ensures Format(Template([a, b, c], ""), Strs([x, y])) == Printed(a + x + b + y + c, Some(MissingFormatArgument))
  {
    FormatTemplate([a, b, c], "", [x, y], []);
    assert Strs([x, y]) + [] == Strs([x, y]);
    assert [a, b, c][1..] == [b, c] && [x, y][1..] == [y];
    assert [b, c][1..] == [c] && [y][1..] == [];
    assert Filled([c], [], "") == Printed(c, Some(MissingFormatArgument));
    assert a + x + (b + y + c) == a + x + b + y + c;
  }

  /** The dated lines: `[name] - time : text`, `[name] time [Error]: text`
      and `[name] time [Debug]: text`, each followed by a line separator. */
  lemma DatedLines(s: LegacyState, level: LogLevel, text: string, time: string)
    requires s.printDate
    ensures Line(s, level, text, time) == LineAsWritten(s, level, text, time)
    ensures Line(s, level, text, time) == Printed(
      match level
      case INFO => "[" + s.name + "] - " + time + " : " + text + NL
      case ERR => "[" + s.name + "] " + time + " [Error]: " + text + NL
      case DEBUG => "[" + s.name + "] " + time + " [Debug]: " + text + NL,
      None)
  {
    match level
    case INFO =>
      InfoDatedIsTemplate();
      Fill3("[", "] - ", " : ", s.name, time, text);
    case ERR =>
      ErrorFormatIsTemplate();
      Fill3("[", "] ", " [Error]: ", s.name, time, text);
    case DEBUG =>
      DebugFormatIsTemplate();
      Fill3("[", "] ", " [Debug]: ", s.name, time, text);
  }

  /** Undated, `info` prints `[name] : text`. */
  lemma UndatedInfoLine(s: LegacyState, text: string, time: string)
    requires !s.printDate
    ensures Line(s, INFO, text, time) == LineAsWritten(s, INFO, text, time)
    ensures Line(s, INFO, text, time) == Printed("[" + s.name + "] : " + text + NL, None)
  {
    InfoUndatedIsTemplate();
    Fill2("[", "] : ", s.name, text);
  }

  /** As written, undated `err` and `debug` hand two arguments to a format
      with three holes: the text lands in the date's place, the level token
      follows, and MissingFormatArgumentException is raised. */
  lemma UndatedErrorAsWritten(s: LegacyState, level: LogLevel, text: string, time: string)
    requires !s.printDate && level != INFO
    ensures LineAsWritten(s, level, text, time) == Printed(
      "[" + s.name + "] " + text + (if level == ERR then " [Error]: " else " [Debug]: "),
      Some(MissingFormatArgument))
  {
    if level == ERR {
      ErrorFormatIsTemplate();
      Fill3Missing("[", "] ", " [Error]: ", s.name, text);
    } else {
      DebugFormatIsTemplate();
      Fill3Missing("[", "] ", " [Debug]: ", s.name, text);
    }
  }

  /** With file output on, that exception is raised while writing the file,
      so the console receives nothing. */
  lemma UndatedErrorSkipsConsoleAsWritten(s: LegacyState, level: LogLevel, text: string, time: string)
    requires !s.printDate && level != INFO && s.toFile && s.pw.attached
    ensures var r := Deliver(s, level, LineAsWritten(s, level, text, time));
      && r.thrown == Some(MissingFormatArgument)
      && r.state.out == s.out && r.state.err == s.err
      && r.state.pw.text == s.pw.text + LineAsWritten(s, level, text, time).text
  {
    UndatedErrorAsWritten(s, level, text, time);
  }

  /** Corrected, undated `err` and `debug` print `[name] [Error]: text` and
      `[name] [Debug]: text` and raise nothing. */
  lemma UndatedErrorCorrected(s: LegacyState, level: LogLevel, text: string, time: string)
    requires !s.printDate && level != INFO
    ensures Line(s, level, text, time) == Printed(
      "[" + s.name + (if level == ERR then "] [Error]: " else "] [Debug]: ") + text + NL, None)
  {
    if level == ERR {
      ErrorUndatedIsTemplate();
      Fill2("[", "] [Error]: ", s.name, text);
    } else {
      DebugUndatedIsTemplate();
      Fill2("[", "] [Debug]: ", s.name, text);
    }
  }

  /** Every line method succeeds exactly when the enabled sinks are
      attached, and each enabled sink receives the line once: errors on the
      error stream, the rest on the output stream. */
  lemma LinesSucceed(s: LegacyState, level: LogLevel, text: string, time: string)
    requires level != DEBUG || s.debug
    ensures var r := LevelSpec(s, level, text, time);
      && (r.thrown.None? <==> (s.toFile ==> s.pw.attached) && (s.toConsole ==> Console(s, level).attached))
      && (level == ERR ==> r.state.out == s.out)
      && (level != ERR ==> r.state.err == s.err)
    ensures var r := LevelSpec(s, level, text, time);
      r.thrown.None? ==>
        && r.state.pw.text == s.pw.text + (if s.toFile then Line(s, level, text, time).text else "")
        && Console(r.state, level).text
             == Console(s, level).text + (if s.toConsole then Line(s, level, text, time).text else "")
  {
    if s.printDate {
      DatedLines(s, level, text, time);
    } else if level == INFO {
      UndatedInfoLine(s, text, time);
    } else {
      UndatedErrorCorrected(s, level, text, time);
    }
  }

  /** With debugging off, `debug` prints nothing and raises nothing. */
  lemma DebugOffIsSilent(s: LegacyState, text: string, time: string)
    requires !s.debug
    ensures LevelSpec(s, DEBUG, text, time) == Outcome(s, None)
  {
  }

  /** `close()` drops only the print writer. Since lines go to the file
      first, every later line of an enabled level raises
      NullPointerException before the console is reached, and a second
      `close()` raises it as well. */
  lemma ClosedLoggerFails(s: LegacyState, level: LogLevel, text: string, time: string)
    requires Coherent(s) && CloseSpec(s).thrown.None?
    requires level != DEBUG || s.debug
    ensures CloseSpec(s).state == s.(pw := Sink(false, s.pw.text))
    ensures var c := CloseSpec(s).state;
      && LevelSpec(c, level, text, time) == Outcome(c, Some(NullPointer))
      && CloseSpec(c) == Outcome(c, Some(NullPointer))
  {
  }

  /** A logger without file output has no print writer to close. */
  lemma ConsoleOnlyLoggerCannotClose(s: LegacyState)
    requires Coherent(s) && !s.toFile
    ensures CloseSpec(s) == Outcome(s, Some(NullPointer))
  {
  }

  /** A 1.x logger object. The ghost fields remember what the file and the
      output stream began with once the header was written. */
  class Logger {
    var pw: Sink
    var out: Sink
    var err: Sink
    var printDate: bool
    var name: string
    var header: string
    var debug: bool
    var toConsole: bool
    var toFile: bool
    ghost var fileHead: string
    ghost var outHead: string

    function State(): LegacyState
      reads this
    {
      LegacyState(name, header, out, err, pw, printDate, debug, toConsole, toFile)
    }

    ghost predicate Valid()
      reads this
    {
      Coherent(State()) && fileHead <= pw.text && outHead <= out.text
    }

    /** The field assignments of the 8-argument constructor. */
    constructor Init(name: string, header: string, out: Sink, err: Sink, debug: bool, printDate: bool,
                     toConsole: bool, toFile: bool)
      ensures State() == LegacyState(name, header, out, err, Sink(false, ""), printDate, debug, toConsole, toFile)
    {
      this.debug := debug;
      this.name := name;
      this.out := out;
      this.err := err;
      this.printDate := printDate;
      this.header := header;
      this.toConsole := toConsole;
      this.toFile := toFile;
      this.pw := Sink(false, "");
    }

    /** `new Logger(name, header, out, err, debug, printDate, toConsole,
        toFile)`: the logger, or the exception the constructor raises.
        `fileOpens` says whether creating the log file succeeded. */
    static method Create(name: string, header: string, out: Sink, err: Sink, debug: bool, printDate: bool,
                         toConsole: bool, toFile: bool, fileOpens: bool)
      returns (r: Result<Logger, Fault>)
      ensures r.Success? <==> Opened(name, header, out, err, debug, printDate, toConsole, toFile, fileOpens).Success?
      ensures r.Success? ==> fresh(r.value) && r.value.Valid()
      ensures r.Success? ==> r.value.State() == Opened(name, header, out, err, debug, printDate, toConsole, toFile, fileOpens).value
      ensures r.Success? ==> r.value.fileHead == (if toFile then header + NL else "")
      ensures r.Success? ==> r.value.outHead == out.text + (if toConsole then header + NL else "")
    {
      var l := new Logger.Init(name, header, out, err, debug, printDate, toConsole, toFile);
      if toFile {
        l.pw := Sink(fileOpens, "");
        var step := Println(l.pw, header);
        if step.thrown.Some? {
          return Failure(step.thrown.value);
        }
        l.pw := step.sink;
      }
      if toConsole {
        var step := Println(l.out, header);
        if step.thrown.Some? {
          return Failure(step.thrown.value);
        }
        l.out := step.sink;
      }
      l.fileHead := l.pw.text;
      l.outHead := l.out.text;
      r := Success(l);
    }

    /** `new Logger(name, header, out, err)`: no debug, dated, console and
        file output. */
    static method CreateWithStreams(name: string, header: string, out: Sink, err: Sink, fileOpens: bool)
      returns (r: Result<Logger, Fault>)
      ensures r.Success? <==> Opened(name, header, out, err, false, true, true, true, fileOpens).Success?
      ensures r.Success? ==> fresh(r.value) && r.value.Valid()
      ensures r.Success? ==> r.value.State() == Opened(name, header, out, err, false, true, true, true, fileOpens).value
      ensures r.Success? ==> !r.value.debug && r.value.printDate && r.value.toConsole && r.value.toFile
    {
      r := Create(name, header, out, err, false, true, true, true, fileOpens);
    }

    /** `printf` on the file, then on the console stream of the level. */
    method Write(level: LogLevel, p: Printed) returns (thrown: Option<Fault>)
      requires Valid()
      modifies this
      ensures Valid() && fileHead == old(fileHead) && outHead == old(outHead)
      ensures Outcome(State(), thrown) == Deliver(old(State()), level, p)
    {
      if toFile {
        var step := Emit(pw, true, p);
        pw := step.sink;
        if step.thrown.Some? {
          return step.thrown;
        }
      }
      thrown := None;
      if toConsole {
        if level == ERR {
          var step := Emit(err, true, p);
          err := step.sink;
          thrown := step.thrown;
        } else {
          var step := Emit(out, true, p);
          out := step.sink;
          thrown := step.thrown;
        }
      }
    }

    /** `info(text)`. */
    method Info(text: string, time: string) returns (thrown: Option<Fault>)
      requires Valid()
      modifies this
      ensures Valid() && fileHead == old(fileHead) && outHead == old(outHead)
      ensures Outcome(State(), thrown) == LevelSpec(old(State()), INFO, text, time)
    {
      thrown := Write(INFO, Format(LineFormat(INFO, printDate), LineArgs(State(), text, time)));
    }

    /** `err(text)`, with the undated format corrected. */
    method Err(text: string, time: string) returns (thrown: Option<Fault>)
      requires Valid()
      modifies this
      ensures Valid() && fileHead == old(fileHead) && outHead == old(outHead)
      ensures Outcome(State(), thrown) == LevelSpec(old(State()), ERR, text, time)
    {
      thrown := Write(ERR, Format(LineFormat(ERR, printDate), LineArgs(State(), text, time)));
    }

    /** `debug(text)`, with the undated format corrected. */
    method Debug(text: string, time: string) returns (thrown: Option<Fault>)
      requires Valid()
      modifies this
      ensures Valid() && fileHead == old(fileHead) && outHead == old(outHead)
      ensures Outcome(State(), thrown) == LevelSpec(old(State()), DEBUG, text, time)
    {
      thrown := None;
      if debug {
        thrown := Write(DEBUG, Format(LineFormat(DEBUG, printDate), LineArgs(State(), text, time)));
      }
    }

    /** `setDebug(debug)`. */
    method SetDebug(debug: bool)
      requires Valid()
      modifies this
      ensures Valid() && fileHead == old(fileHead) && outHead == old(outHead)
      ensures State() == old(State()).(debug := debug)
    {
      this.debug := debug;
    }

    /** `close()`. */
    method Close() returns (thrown: Option<Fault>)
      requires Valid()
      modifies this
      ensures Valid() && fileHead == old(fileHead) && outHead == old(outHead)
      ensures Outcome(State(), thrown) == CloseSpec(old(State()))
    {
      if !pw.attached {
        return Some(NullPointer);
      }
      pw := Sink(false, pw.text);
      thrown := None;
    }
  }
}
