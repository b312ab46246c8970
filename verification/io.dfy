/** Streams and writers as the logger sees them: a reference that may be null,
    and the text that has reached the destination behind it. */
module Io {
  import opened Wrappers

  /** The platform line separator written by `%n` and by `println`. */
  const NL: string := "\n"

  /** The Java exceptions that the modelled code can raise. `OutsideModel`
      stands for a format specifier whose Java semantics this model does not
      cover (see Formatter). */
  datatype Fault =
    | NullPointer
    | ClassCast
    | MissingFormatArgument
    | UnknownFormatConversion
    | IllegalFormatConversion
    | OutsideModel

  /** A `PrintStream` or `PrintWriter` field. `attached == false` is a null
      reference; `text` is everything written to the destination so far,
      which stays on the console or in the file after the reference is
      dropped. */
  datatype Sink = Sink(attached: bool, text: string)

  /** What one `printf` call produces: the text it emitted and the exception
      it raised after emitting it, if any. */
  datatype Printed = Printed(text: string, thrown: Option<Fault>)

  /** A sink after one guarded write, and the exception the write raised. */
  datatype Step = Step(sink: Sink, thrown: Option<Fault>)

  /** `if (enabled) h.printf(...)`: nothing happens when the guard is off, a
      null reference raises NullPointer before anything is written, otherwise
      the printed text is appended and its exception, if any, propagates. */
  function Emit(h: Sink, enabled: bool, p: Printed): (r: Step)
    ensures r.sink.attached == h.attached
    ensures h.text <= r.sink.text
    ensures r.sink.text != h.text ==> enabled && h.attached && r.sink.text == h.text + p.text
    ensures r.thrown.None? ==> r.sink.text == if enabled then h.text + p.text else h.text
  {
    if !enabled then Step(h, None)
    else if !h.attached then Step(h, Some(NullPointer))
    else Step(Sink(true, h.text + p.text), p.thrown)
  }

  /** `h.println(s)`. */
  function Println(h: Sink, s: string): (r: Step)
    ensures r.thrown.None? <==> h.attached
    ensures r.thrown.None? ==> r.sink == Sink(true, h.text + s + NL)
    ensures r.thrown.Some? ==> r.sink == h
  {
    Emit(h, true, Printed(s + NL, None))
  }
}
