/** The part of `java.util.Formatter` (behind `PrintStream.printf` and
    `PrintWriter.printf`) that the logger's format strings use: `%s`, `%d`,
    `%n` and `%%`. Java parses the whole format string before printing, so an
    unknown conversion prints nothing; it then prints piece by piece, so a
    missing argument is raised after the text before it has been emitted. */
module Formatter {
  import opened Wrappers
  import opened Io

  /** A `printf` argument: a string, an integer, or null. */
  datatype Arg = Str(s: string) | Int(i: int) | NullArg

  /** A parsed piece of a format string: one literal character or one
      conversion (`s`, `d`, `n` or `%`). */
  datatype Token = Lit(c: char) | Conv(c: char)

  /** The conversions this model interprets. */
  const Modelled: set<char> := {'s', 'd', 'n', '%'}

  /** Characters that may follow `%` in a Java specifier that this model
      does not interpret: argument indices, flags, widths, precisions and
      the other conversions. */
  const Unmodelled: set<char> :=
    {'0', '1', '2', '3', '4', '5', '6', '7', '8', '9',
     '-', '#', '+', ' ', ',', '(', '<', '.',
     'b', 'B', 'h', 'H', 'S', 'c', 'C', 'o', 'x', 'X',
     'e', 'E', 'f', 'g', 'G', 'a', 'A', 't', 'T'}

  function Prefixed(t: Token, r: Result<seq<Token>, Fault>): (r': Result<seq<Token>, Fault>)
  {
    match r
    case Success(ts) => Success([t] + ts)
    case Failure(e) => Failure(e)
  }

  /** Splits a format string into tokens; a `%` at the end or before a
      character that starts no specifier is an unknown conversion. */
  function Parse(fmt: string): (r: Result<seq<Token>, Fault>)
    decreases |fmt|
  {
    if fmt == [] then Success([])
    else if fmt[0] != '%' then Prefixed(Lit(fmt[0]), Parse(fmt[1..]))
    else if |fmt| == 1 then Failure(UnknownFormatConversion)
    else if fmt[1] in Modelled then Prefixed(Conv(fmt[1]), Parse(fmt[2..]))
    else if fmt[1] in Unmodelled then Failure(OutsideModel)
    else Failure(UnknownFormatConversion)
  }

  function DigitChar(d: nat): char
    requires d < 10
  {
    "0123456789"[d]
  }

  function Digits(n: nat): (r: string)
    ensures |r| > 0
    ensures forall k :: 0 <= k < |r| ==> '0' <= r[k] <= '9'
  {
    if n < 10 then [DigitChar(n)] else Digits(n / 10) + [DigitChar(n % 10)]
  }

  /** `Integer.toString`. */
  function Decimal(i: int): string
  {
    if i < 0 then "-" + Digits(-i) else Digits(i)
  }

  /** `String.valueOf(arg)`, which is what `%s` prints. */
  function Show(a: Arg): string
  {
    match a
    case Str(s) => s
    case Int(i) => Decimal(i)
    case NullArg => "null"
  }

  /** One argument-consuming conversion applied to its argument. */
  function Convert(c: char, a: Arg): Result<string, Fault>
  {
    if c == 's' then Success(Show(a))
    else if c == 'd' then
      (match a
       case Int(i) => Success(Decimal(i))
       case NullArg => Success("null")
       case Str(_) => Failure(IllegalFormatConversion))
    else Failure(OutsideModel)
  }

  function Then(prefix: string, rest: Printed): Printed
  {
    Printed(prefix + rest.text, rest.thrown)
  }

  /** Prints parsed tokens against the arguments, in order; arguments left
      over are ignored, as Java does. */
  function Print(ts: seq<Token>, args: seq<Arg>): (r: Printed)
    decreases |ts|
  {
    if ts == [] then Printed("", None)
    else match ts[0]
      case Lit(c) => Then([c], Print(ts[1..], args))
      case Conv(c) =>
        if c == 'n' then Then(NL, Print(ts[1..], args))
        else if c == '%' then Then("%", Print(ts[1..], args))
        else if args == [] then Printed("", Some(MissingFormatArgument))
        else match Convert(c, args[0])
          case Failure(e) => Printed("", Some(e))
          case Success(t) => Then(t, Print(ts[1..], args[1..]))
  }

  /** `String.format(fmt, args)` as emitted by `printf`. */
  function Format(fmt: string, args: seq<Arg>): Printed
  {
    match Parse(fmt)
    case Failure(e) => Printed("", Some(e))
    case Success(ts) => Print(ts, args)
  }

  /** The tokens of a text with no `%` in it. */
  function Lits(t: string): (ts: seq<Token>)
    ensures |ts| == |t|
  {
    seq(|t|, k requires 0 <= k < |t| => Lit(t[k]))
  }

  /** Text without `%` parses to its own characters, whatever follows it. */
  lemma {:induction false} ParsePlainPrefix(t: string, rest: string)
    requires '%' !in t
    ensures Parse(t + rest) ==
      match Parse(rest)
      case Success(ts) => Success(Lits(t) + ts)
      case Failure(e) => Failure(e)
  {
    if t != [] {
      assert (t + rest)[0] == t[0];
      assert (t + rest)[1..] == t[1..] + rest;
      assert t[0] != '%' && t + rest != [];
      ParsePlainPrefix(t[1..], rest);
      assert Lits(t) == [Lit(t[0])] + Lits(t[1..]);
      assert Parse(t + rest) == Prefixed(Lit(t[0]), Parse(t[1..] + rest));
      match Parse(rest)
      case Success(ts) =>
        assert [Lit(t[0])] + (Lits(t[1..]) + ts) == Lits(t) + ts;
      case Failure(_) =>
    } else {
      assert t + rest == rest;
      assert Lits(t) == [];
      match Parse(rest)
      case Success(ts) => assert Lits(t) + ts == ts;
      case Failure(_) =>
    }
  }

  /** Literal tokens print as their characters, before whatever follows. */
  lemma {:induction false} PrintLits(t: string, ts: seq<Token>, args: seq<Arg>)
    ensures Print(Lits(t) + ts, args) == Then(t, Print(ts, args))
  {
    if t != [] {
      assert (Lits(t) + ts)[0] == Lit(t[0]);
      assert (Lits(t) + ts)[1..] == Lits(t[1..]) + ts;
      PrintLits(t[1..], ts, args);
      assert [t[0]] + t[1..] == t;
    } else {
      assert Lits(t) + ts == ts;
    }
  }

  /** A format string without `%` prints verbatim and consumes no argument. */
  lemma PlainTextVerbatim(t: string, args: seq<Arg>)
    requires '%' !in t
    ensures Format(t, args) == Printed(t, None)
  {
    ParsePlainPrefix(t, "");
    assert t + "" == t;
    PrintLits(t, [], args);
    assert Lits(t) + [] == Lits(t);
  }

  /** `%s` in front of a well-formed rest consumes one argument and prints it. */
  lemma HoleThen(rest: string, a: string, args: seq<Arg>)
    requires Parse(rest).Success?
    ensures Parse("%s" + rest).Success?
    ensures Format("%s" + rest, [Str(a)] + args) == Then(a, Format(rest, args))
  {
    var f := "%s" + rest;
    assert f[0] == '%' && f[1] == 's' && f[2..] == rest;
    var ts := Parse(rest).value;
    assert Parse(f) == Success([Conv('s')] + ts);
    assert ([Conv('s')] + ts)[1..] == ts;
    assert ([Str(a)] + args)[1..] == args;
  }

  /** `%d` in front of a well-formed rest prints an integer argument in
      decimal and refuses a string argument. */
  lemma DecimalThen(rest: string, i: int, a: string, args: seq<Arg>)
    requires Parse(rest).Success?
    ensures Parse("%d" + rest).Success?
    ensures Format("%d" + rest, [Int(i)] + args) == Then(Decimal(i), Format(rest, args))
    ensures Format("%d" + rest, [Str(a)] + args) == Printed("", Some(IllegalFormatConversion))
  {
    var f := "%d" + rest;
    assert f[0] == '%' && f[1] == 'd' && f[2..] == rest;
    var ts := Parse(rest).value;
    assert Parse(f) == Success([Conv('d')] + ts);
    assert ([Conv('d')] + ts)[1..] == ts;
    assert ([Int(i)] + args)[1..] == args;
  }

  /** `%s` with no argument left raises MissingFormatArgument, after
      whatever was printed before it. */
  lemma HoleMissing(rest: string)
    requires Parse(rest).Success?
    ensures Format("%s" + rest, []) == Printed("", Some(MissingFormatArgument))
  {
    var f := "%s" + rest;
    assert f[0] == '%' && f[1] == 's' && f[2..] == rest;
  }

  /** Text without `%` in front of a well-formed rest prints verbatim. */
  lemma TextThen(t: string, rest: string, args: seq<Arg>)
    requires '%' !in t
    requires Parse(rest).Success?
    ensures Parse(t + rest).Success?
    ensures Format(t + rest, args) == Then(t, Format(rest, args))
  {
    ParsePlainPrefix(t, rest);
    PrintLits(t, Parse(rest).value, args);
  }

  /** `%n` prints the line separator. */
  lemma NewlineOnly(args: seq<Arg>)
    ensures Parse("%n").Success?
    ensures Format("%n", args) == Printed(NL, None)
  {
    var f := "%n";
    assert f[0] == '%' && f[1] == 'n' && f[2..] == [];
    assert Parse(f) == Success([Conv('n')]) by { assert [Conv('n')] + [] == [Conv('n')]; }
  }

  /** `%%n` is an escaped percent sign followed by the letter n: it prints
      "%n" and no line separator. */
  lemma EscapedPercentThenN(args: seq<Arg>)
    ensures Parse("%%n").Success?
    ensures Format("%%n", args) == Printed("%n", None)
  {
    var f := "%%n";
    assert f[0] == '%' && f[1] == '%' && f[2..] == "n";
    assert "n"[0] == 'n' && "n"[1..] == [];
    assert Parse("n") == Success([Lit('n')]) by { assert [Lit('n')] + [] == [Lit('n')]; }
    assert Parse(f) == Prefixed(Conv('%'), Parse("n"));
    assert [Conv('%')] + [Lit('n')] == [Conv('%'), Lit('n')];
    assert [Conv('%'), Lit('n')][1..] == [Lit('n')];
    assert [Lit('n')][1..] == [];
  }

  /** The shape of every format string the logger builds: texts without `%`
      each followed by `%s`, then a last text and `%n`. */
  function Template(texts: seq<string>, last: string): string
  {
    if texts == [] then last + "%n" else texts[0] + "%s" + Template(texts[1..], last)
  }

  predicate NoPercent(texts: seq<string>)
  {
    forall k :: 0 <= k < |texts| ==> '%' !in texts[k]
  }

  function Strs(xs: seq<string>): (r: seq<Arg>)
    ensures |r| == |xs|
    ensures forall k :: 0 <= k < |xs| ==> r[k] == Str(xs[k])
  {
    seq(|xs|, k requires 0 <= k < |xs| => Str(xs[k]))
  }

  /** The output of a template filled with string arguments, written
      directly: each text, then its argument, and the line separator at the
      end; a missing argument stops the output after the text before it. */
  function Filled(texts: seq<string>, xs: seq<string>, last: string): Printed
  {
    if texts == [] then Printed(last + NL, None)
    else if xs == [] then Printed(texts[0], Some(MissingFormatArgument))
    else Then(texts[0] + xs[0], Filled(texts[1..], xs[1..], last))
  }

  /** Formatting a template with string arguments is filling it in: the
      arguments are never read as format strings, and extra arguments
      after the last `%s` are ignored. */
  lemma {:induction false} FormatTemplate(texts: seq<string>, last: string, xs: seq<string>, extra: seq<Arg>)
    requires NoPercent(texts) && '%' !in last
    requires |xs| >= |texts| || extra == []
    ensures Parse(Template(texts, last)).Success?
    ensures Format(Template(texts, last), Strs(xs) + extra) == Filled(texts, xs, last)
  {
    if texts == [] {
      NewlineOnly(Strs(xs) + extra);
      TextThen(last, "%n", Strs(xs) + extra);
    } else {
      FormatTemplate(texts[1..], last, if xs == [] then [] else xs[1..], extra);
      if xs == [] {
        TemplateMissing(texts, last);
      } else {
        TemplateStep(texts, last, xs, extra);
      }
    }
  }

  lemma TemplateMissing(texts: seq<string>, last: string)
    requires texts != [] && NoPercent(texts)
    requires Parse(Template(texts[1..], last)).Success?
    ensures Parse(Template(texts, last)).Success?
    ensures Format(Template(texts, last), []) == Printed(texts[0], Some(MissingFormatArgument))
  {
    var rest := Template(texts[1..], last);
    assert Template(texts, last) == texts[0] + ("%s" + rest);
    HoleMissing(rest);
    HoleThen(rest, "", []);
    TextThen(texts[0], "%s" + rest, []);
  }

  lemma TemplateStep(texts: seq<string>, last: string, xs: seq<string>, extra: seq<Arg>)
    requires texts != [] && xs != [] && NoPercent(texts)
    requires Parse(Template(texts[1..], last)).Success?
    ensures Parse(Template(texts, last)).Success?
    ensures Format(Template(texts, last), Strs(xs) + extra)
         == Then(texts[0] + xs[0], Format(Template(texts[1..], last), Strs(xs[1..]) + extra))
  {
    var rest := Template(texts[1..], last);
    var args := Strs(xs) + extra;
    assert Template(texts, last) == texts[0] + ("%s" + rest);
    assert [Str(xs[0])] + (Strs(xs[1..]) + extra) == args;
    HoleThen(rest, xs[0], Strs(xs[1..]) + extra);
    TextThen(texts[0], "%s" + rest, args);
  }

  /** `k` specifiers `%s` in a row. */
  function Holes(k: nat): string
  {
    if k == 0 then "" else "%s" + Holes(k - 1)
  }

  function Concat(xs: seq<string>): string
  {
    if xs == [] then "" else xs[0] + Concat(xs[1..])
  }

  /** A run of `%s` in front of any format prints its string arguments one
      after the other, then the rest with the remaining arguments. */
  lemma {:induction false} HolesThen(xs: seq<string>, rest: string, args: seq<Arg>)
    requires Parse(rest).Success?
    ensures Parse(Holes(|xs|) + rest).Success?
    ensures Format(Holes(|xs|) + rest, Strs(xs) + args) == Then(Concat(xs), Format(rest, args))
  {
    var f := Format(rest, args);
    if xs == [] {
      assert Holes(0) + rest == rest;
      assert Strs(xs) + args == args;
      assert "" + f.text == f.text;
    } else {
      HolesThen(xs[1..], rest, args);
      var r := Holes(|xs| - 1) + rest;
      assert Holes(|xs|) + rest == "%s" + r;
      HoleThen(r, xs[0], Strs(xs[1..]) + args);
      assert Strs(xs) + args == [Str(xs[0])] + (Strs(xs[1..]) + args);
      assert xs[0] + (Concat(xs[1..]) + f.text) == Concat(xs) + f.text;
    }
  }
}
