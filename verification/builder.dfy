/** `com.limelion.logger.Builder`: a fluent record of logger options. */
module LoggerBuilder {
  import opened Wrappers
  import opened Io

  /** The builder's fields. */
  datatype BuilderState = BuilderState(
    doPrintLineHeading: bool, doPrintTime: bool, doPrintName: bool,
    doPrintDebug: bool, doPrintInfo: bool, doPrintErr: bool,
    doPrintToConsole: bool, doPrintToFile: bool,
    baseLogFileName: string, name: string, header: string)

  /** The field initialisers: every option on, the base file name
      `ezLogger`, an empty name and header. */
  function Defaults(): (b: BuilderState)
    ensures b.doPrintLineHeading && b.doPrintTime && b.doPrintName
    ensures b.doPrintDebug && b.doPrintInfo && b.doPrintErr
    ensures b.doPrintToConsole && b.doPrintToFile
    ensures b.baseLogFileName == "ezLogger" && b.name == "" && b.header == ""
  {
    BuilderState(true, true, true, true, true, true, true, true, "ezLogger", "", "")
  }

  /** What the `Logger(Builder)` constructor did: returned a logger, raised
      an `IOException`, or raised another exception. */
  datatype Construction<L> = Constructed(logger: L) | ThrewIOException | ThrewOther(fault: Fault)

  /** `build()`: an `IOException` is caught and turned into null (None);
      any other exception propagates. */
  function Build<L>(attempt: Construction<L>): (r: Result<Option<L>, Fault>)
    ensures r.Failure? <==> attempt.ThrewOther?
    ensures r.Success? && r.value.Some? <==> attempt.Constructed?
    ensures attempt.Constructed? ==> r == Success(Some(attempt.logger))
  {
    match attempt
    case Constructed(l) => Success(Some(l))
    case ThrewIOException => Success(None)
    case ThrewOther(f) => Failure(f)
  }

  class Builder {
    var doPrintLineHeading: bool
    var doPrintTime: bool
    var doPrintName: bool
    var doPrintDebug: bool
    var doPrintInfo: bool
    var doPrintErr: bool
    var doPrintToConsole: bool
    var doPrintToFile: bool
    var baseLogFileName: string
    var name: string
    var header: string

    function State(): BuilderState
      reads this
    {
      BuilderState(doPrintLineHeading, doPrintTime, doPrintName, doPrintDebug, doPrintInfo, doPrintErr,
                   doPrintToConsole, doPrintToFile, baseLogFileName, name, header)
    }

    /** `Builder()`, with the field initialisers. */
    constructor()
      ensures State() == Defaults()
    {
      doPrintLineHeading := true;
      doPrintTime := true;
      doPrintName := true;
      doPrintDebug := true;
      doPrintInfo := true;
      doPrintErr := true;
      doPrintToConsole := true;
      doPrintToFile := true;
      baseLogFileName := "ezLogger";
      name := "";
      header := "";
    }

    function BaseLogFileName(): (r: string)
      reads this
      ensures r == State().baseLogFileName
    {
      baseLogFileName
    }

    method SetBaseLogFileName(baseLogFileName: string) returns (self: Builder)
      modifies this
      ensures self == this
      ensures State() == old(State()).(baseLogFileName := baseLogFileName)
    {
      this.baseLogFileName := baseLogFileName;
      self := this;
    }

    function DoPrintLineHeading(): (r: bool)
      reads this
      ensures r == State().doPrintLineHeading
    {
      doPrintLineHeading
    }

    method SetDoPrintLineHeading(doPrintLineHeading: bool) returns (self: Builder)
      modifies this
      ensures self == this
      ensures State() == old(State()).(doPrintLineHeading := doPrintLineHeading)
    {
      this.doPrintLineHeading := doPrintLineHeading;
      self := this;
    }

    function DoPrintTime(): (r: bool)
      reads this
      ensures r == State().doPrintTime
    {
      doPrintTime
    }

    method SetDoPrintTime(doPrintTime: bool) returns (self: Builder)
      modifies this
      ensures self == this
      ensures State() == old(State()).(doPrintTime := doPrintTime)
    {
      this.doPrintTime := doPrintTime;
      self := this;
    }

    function DoPrintName(): (r: bool)
      reads this
      ensures r == State().doPrintName
    {
      doPrintName
    }

    method SetDoPrintName(doPrintName: bool) returns (self: Builder)
      modifies this
      ensures self == this
      ensures State() == old(State()).(doPrintName := doPrintName)
    {
      this.doPrintName := doPrintName;
      self := this;
    }

    function DoPrintDebug(): (r: bool)
      reads this
      ensures r == State().doPrintDebug
    {
      doPrintDebug
    }

    method SetDoPrintDebug(doPrintDebug: bool) returns (self: Builder)
      modifies this
      ensures self == this
      ensures State() == old(State()).(doPrintDebug := doPrintDebug)
    {
      this.doPrintDebug := doPrintDebug;
      self := this;
    }

    function DoPrintInfo(): (r: bool)
      reads this
      ensures r == State().doPrintInfo
    {
      doPrintInfo
    }

    method SetDoPrintInfo(doPrintInfo: bool) returns (self: Builder)
      modifies this
      ensures self == this
      ensures State() == old(State()).(doPrintInfo := doPrintInfo)
    {
      this.doPrintInfo := doPrintInfo;
      self := this;
    }

    function DoPrintErr(): (r: bool)
      reads this
      ensures r == State().doPrintErr
    {
      doPrintErr
    }

    method SetDoPrintErr(doPrintErr: bool) returns (self: Builder)
      modifies this
      ensures self == this
      ensures State() == old(State()).(doPrintErr := doPrintErr)
    {
      this.doPrintErr := doPrintErr;
      self := this;
    }

    function DoPrintToConsole(): (r: bool)
      reads this
      ensures r == State().doPrintToConsole
    {
      doPrintToConsole
    }

    method SetDoPrintToConsole(doPrintToConsole: bool) returns (self: Builder)
      modifies this
      ensures self == this
      ensures State() == old(State()).(doPrintToConsole := doPrintToConsole)
    {
      this.doPrintToConsole := doPrintToConsole;
      self := this;
    }

    function DoPrintToFile(): (r: bool)
      reads this
      ensures r == State().doPrintToFile
    {
      doPrintToFile
    }

    method SetDoPrintToFile(doPrintToFile: bool) returns (self: Builder)
      modifies this
      ensures self == this
      ensures State() == old(State()).(doPrintToFile := doPrintToFile)
    {
      this.doPrintToFile := doPrintToFile;
      self := this;
    }

    function Name(): (r: string)
      reads this
      ensures r == State().name
    {
      name
    }

    method SetName(name: string) returns (self: Builder)
      modifies this
      ensures self == this
      ensures State() == old(State()).(name := name)
    {
      this.name := name;
      self := this;
    }

    function Header(): (r: string)
      reads this
      ensures r == State().header
    {
      header
    }

    method SetHeader(header: string) returns (self: Builder)
      modifies this
      ensures self == this
      ensures State() == old(State()).(header := header)
    {
      this.header := header;
      self := this;
    }
  }

  /** A chain of setters on a fresh builder: each getter returns the value
      its setter wrote last, and options never set keep their defaults. */
  method Chain(first: string, last: string, time: bool) returns (b: Builder)
    ensures fresh(b)
    ensures b.Name() == last && b.DoPrintTime() == time
    ensures b.State() == Defaults().(name := last, doPrintTime := time)
  {
    b := new Builder();
    var same := b.SetName(first);
    same := same.SetDoPrintTime(time);
    same := same.SetName(last);
    assert same == b;
  }
}
