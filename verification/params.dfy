/** `Logger.newLogger`'s parameter map (`HashMap<LogParams, Object>`) and the
    settings it resolves to. */
module LoggerParams {
  import opened Wrappers
  import opened Io

  /** `Logger.LogParams`. */
  datatype LogParam =
    | PRINTLINEDESCRIPTOR | OUT | ERR | PRINTDEBUG | PRINTDATE
    | PRINTCONSOLE | PRINTFILE | PRINTHEADER | PRINTNAME | LOGFILE

  /** The `Object` stored under a key: null, a `Boolean`, a `PrintStream`, a
      `File` (its path), or anything else. A `StreamValue` stands for a
      non-null stream, so its sink is meant to be attached; the type does
      not enforce this, and a detached one behaves as a null stream would. */
  datatype ParamValue =
    | NullValue
    | BoolValue(b: bool)
    | StreamValue(sink: Sink)
    | FileValue(path: string)
    | OtherValue

  type ParamMap = map<LogParam, ParamValue>

  /** The ten values `newLogger` hands to the 12-argument constructor after
      the name and the header, in the constructor's order. A null log file
      is None. */
  datatype Settings = Settings(
    out: Sink, err: Sink,
    printDebug: bool, printDate: bool, printToConsole: bool, printToFile: bool,
    printLineDescriptor: bool, printHeader: bool, printName: bool,
    logfile: Option<string>)

  /** The values `newLogger` starts from; the two streams are
      `System.out` and `System.err`. */
  function Defaults(systemOut: Sink, systemErr: Sink): Settings
  {
    Settings(systemOut, systemErr, false, true, true, true, true, true, true, None)
  }

  /** `(boolean) value`: unboxing null raises NullPointerException, any
      other non-Boolean raises ClassCastException. */
  function CastBool(v: ParamValue): (r: Result<bool, Fault>)
    ensures v.BoolValue? ==> r == Success(v.b)
    ensures v.NullValue? ==> r == Failure(NullPointer)
    ensures !v.BoolValue? && !v.NullValue? ==> r == Failure(ClassCast)
  {
    match v
    case BoolValue(b) => Success(b)
    case NullValue => Failure(NullPointer)
    case _ => Failure(ClassCast)
  }

  /** `(PrintStream) value`: null passes as a null stream. */
  function CastStream(v: ParamValue): (r: Result<Sink, Fault>)
    ensures r.Success? <==> v.StreamValue? || v.NullValue?
    ensures r.Failure? ==> r.error == ClassCast
  {
    match v
    case StreamValue(s) => Success(s)
    case NullValue => Success(Sink(false, ""))
    case _ => Failure(ClassCast)
  }

  /** `(File) value`: null passes as "no log file given". */
  function CastFile(v: ParamValue): (r: Result<Option<string>, Fault>)
    ensures r.Success? <==> v.FileValue? || v.NullValue?
    ensures r.Failure? ==> r.error == ClassCast
  {
    match v
    case FileValue(p) => Success(Some(p))
    case NullValue => Success(None)
    case _ => Failure(ClassCast)
  }

  /** The exception raised when the value under `k` is cast, if any. */
  function CastFault(k: LogParam, v: ParamValue): Option<Fault>
  {
    match k
    case OUT | ERR => if CastStream(v).Failure? then Some(CastStream(v).error) else None
    case LOGFILE => if CastFile(v).Failure? then Some(CastFile(v).error) else None
    case _ => if CastBool(v).Failure? then Some(CastBool(v).error) else None
  }

  /** Every value in the map has the type its key is cast to. */
  predicate WellTyped(params: ParamMap)
  {
    forall k :: k in params ==> CastFault(k, params[k]).None?
  }

  function FlagOr(params: ParamMap, k: LogParam, default: bool): bool
  {
    if k in params && params[k].BoolValue? then params[k].b else default
  }

  function StreamOr(params: ParamMap, k: LogParam, default: Sink): Sink
  {
    if k in params && CastStream(params[k]).Success? then CastStream(params[k]).value else default
  }

  function LogFileOf(params: ParamMap): Option<string>
  {
    if LOGFILE in params && CastFile(params[LOGFILE]).Success? then CastFile(params[LOGFILE]).value else None
  }

  /** The settings a well-typed map stands for: each key present overrides
      its own setting, each key absent keeps its default. */
  function SettingsOf(params: ParamMap, systemOut: Sink, systemErr: Sink): Settings
  {
    Settings(
      StreamOr(params, OUT, systemOut), StreamOr(params, ERR, systemErr),
      FlagOr(params, PRINTDEBUG, false), FlagOr(params, PRINTDATE, true),
      FlagOr(params, PRINTCONSOLE, true), FlagOr(params, PRINTFILE, true),
      FlagOr(params, PRINTLINEDESCRIPTOR, true), FlagOr(params, PRINTHEADER, true),
      FlagOr(params, PRINTNAME, true), LogFileOf(params))
  }

  /** `order` is an iteration order of the map's key set. */
  predicate IsKeyOrder(order: seq<LogParam>, params: ParamMap)
  {
    forall k :: k in params <==> k in order
  }

  /** The entries of the map whose keys the loop has visited. */
  function Visited(params: ParamMap, visited: seq<LogParam>): (m: ParamMap)
    ensures m.Keys <= params.Keys
  {
    map k | k in params && k in visited :: params[k]
  }

  /** One arm of the loop's `switch`: store the cast value in the variable
      of its key. */
  function Store(s: Settings, k: LogParam, v: ParamValue): Settings
    requires CastFault(k, v).None?
  {
    match k
    case OUT => s.(out := CastStream(v).value)
    case ERR => s.(err := CastStream(v).value)
    case PRINTDEBUG => s.(printDebug := v.b)
    case PRINTDATE => s.(printDate := v.b)
    case PRINTCONSOLE => s.(printToConsole := v.b)
    case PRINTFILE => s.(printToFile := v.b)
    case PRINTLINEDESCRIPTOR => s.(printLineDescriptor := v.b)
    case PRINTHEADER => s.(printHeader := v.b)
    case LOGFILE => s.(logfile := CastFile(v).value)
    case PRINTNAME => s.(printName := v.b)
  }

  lemma VisitedNone(params: ParamMap, order: seq<LogParam>)
    ensures Visited(params, order[..0]) == map[]
  {
    assert order[..0] == [];
  }

  lemma VisitedStep(params: ParamMap, order: seq<LogParam>, i: nat)
    requires i < |order| && order[i] in params
    ensures Visited(params, order[..i + 1]) == Visited(params, order[..i])[order[i] := params[order[i]]]
  {
    assert order[..i + 1] == order[..i] + [order[i]];
  }

  lemma VisitedAll(params: ParamMap, order: seq<LogParam>)
    requires IsKeyOrder(order, params)
    ensures Visited(params, order[..|order|]) == params
  {
    assert order[..|order|] == order;
  }

  /** The loop of `newLogger`: visit the keys in the map's iteration order,
      cast each value and store it in the variable of its key. The result
      does not depend on the order: it is the settings the map stands for,
      or the exception of the first ill-typed entry visited. */
  method ResolveParams(params: ParamMap, order: seq<LogParam>, systemOut: Sink, systemErr: Sink)
    returns (r: Result<Settings, Fault>)
    requires IsKeyOrder(order, params)
    ensures r.Success? <==> WellTyped(params)
    ensures r.Success? ==> r.value == SettingsOf(params, systemOut, systemErr)
    ensures r.Failure? ==> exists k :: k in params && CastFault(k, params[k]) == Some(r.error)
  {
    var s := Defaults(systemOut, systemErr);
    var i := 0;
    VisitedNone(params, order);
    while i < |order|
      invariant 0 <= i <= |order|
      invariant WellTyped(Visited(params, order[..i]))
      invariant s == SettingsOf(Visited(params, order[..i]), systemOut, systemErr)
    {
      var key := order[i];
      var value := params[key];
      if CastFault(key, value).Some? {
        return Failure(CastFault(key, value).value);
      }
      ghost var before := Visited(params, order[..i]);
      StoreOverrides(before, key, value, systemOut, systemErr);
      s := Store(s, key, value);
      VisitedStep(params, order, i);
      i := i + 1;
    }
    VisitedAll(params, order);
    r := Success(s);
  }

  /** A key absent from the map keeps its default. */
  lemma AbsentKeysKeepDefaults(params: ParamMap, systemOut: Sink, systemErr: Sink)
    ensures var s := SettingsOf(params, systemOut, systemErr);
      var d := Defaults(systemOut, systemErr);
      && (OUT !in params ==> s.out == d.out)
      && (ERR !in params ==> s.err == d.err)
      && (PRINTDEBUG !in params ==> !s.printDebug)
      && (PRINTDATE !in params ==> s.printDate)
      && (PRINTCONSOLE !in params ==> s.printToConsole)
      && (PRINTFILE !in params ==> s.printToFile)
      && (PRINTLINEDESCRIPTOR !in params ==> s.printLineDescriptor)
      && (PRINTHEADER !in params ==> s.printHeader)
      && (PRINTNAME !in params ==> s.printName)
      && (LOGFILE !in params ==> s.logfile.None?)
    ensures params == map[] ==> SettingsOf(params, systemOut, systemErr) == Defaults(systemOut, systemErr)
  {
  }

  lemma FlagOrUpdate(params: ParamMap, k: LogParam, v: ParamValue, j: LogParam, default: bool)
    ensures FlagOr(params[k := v], j, default)
         == if j == k then (if v.BoolValue? then v.b else default) else FlagOr(params, j, default)
  {
  }

  lemma StreamOrUpdate(params: ParamMap, k: LogParam, v: ParamValue, j: LogParam, default: Sink)
    ensures StreamOr(params[k := v], j, default)
         == if j == k then (if CastStream(v).Success? then CastStream(v).value else default)
            else StreamOr(params, j, default)
  {
  }

  /** A stream entry overrides only its own stream. */
  lemma StreamKeyOverrides(params: ParamMap, k: LogParam, v: ParamValue, systemOut: Sink, systemErr: Sink)
    requires CastFault(k, v).None?
    ensures var s0 := SettingsOf(params, systemOut, systemErr);
      var s1 := SettingsOf(params[k := v], systemOut, systemErr);
      && s1.out == (if k == OUT then CastStream(v).value else s0.out)
      && s1.err == (if k == ERR then CastStream(v).value else s0.err)
  {
    StreamOrUpdate(params, k, v, OUT, systemOut);
    StreamOrUpdate(params, k, v, ERR, systemErr);
  }

  /** A Boolean entry overrides only its own flag. */
  lemma FlagKeyOverrides(params: ParamMap, k: LogParam, v: ParamValue, systemOut: Sink, systemErr: Sink)
    requires CastFault(k, v).None?
    ensures var s0 := SettingsOf(params, systemOut, systemErr);
      var s1 := SettingsOf(params[k := v], systemOut, systemErr);
      && s1.printDebug == (if k == PRINTDEBUG then v.b else s0.printDebug)
      && s1.printDate == (if k == PRINTDATE then v.b else s0.printDate)
      && s1.printToConsole == (if k == PRINTCONSOLE then v.b else s0.printToConsole)
      && s1.printToFile == (if k == PRINTFILE then v.b else s0.printToFile)
      && s1.printLineDescriptor == (if k == PRINTLINEDESCRIPTOR then v.b else s0.printLineDescriptor)
      && s1.printHeader == (if k == PRINTHEADER then v.b else s0.printHeader)
      && s1.printName == (if k == PRINTNAME then v.b else s0.printName)
  {
    FlagOrUpdate(params, k, v, PRINTDEBUG, false);
    FlagOrUpdate(params, k, v, PRINTDATE, true);
    FlagOrUpdate(params, k, v, PRINTCONSOLE, true);
    FlagOrUpdate(params, k, v, PRINTFILE, true);
    FlagOrUpdate(params, k, v, PRINTLINEDESCRIPTOR, true);
    FlagOrUpdate(params, k, v, PRINTHEADER, true);
    FlagOrUpdate(params, k, v, PRINTNAME, true);
  }

  /** Storing a well-typed value under a key changes that key's setting to
      the value and leaves every other setting as it was. */
  lemma KeyOverridesOnlyItsSetting(params: ParamMap, k: LogParam, v: ParamValue, systemOut: Sink, systemErr: Sink)
    requires CastFault(k, v).None?
    ensures var s0 := SettingsOf(params, systemOut, systemErr);
      var s1 := SettingsOf(params[k := v], systemOut, systemErr);
      && s1.out == (if k == OUT then CastStream(v).value else s0.out)
      && s1.err == (if k == ERR then CastStream(v).value else s0.err)
      && s1.printDebug == (if k == PRINTDEBUG then v.b else s0.printDebug)
      && s1.printDate == (if k == PRINTDATE then v.b else s0.printDate)
      && s1.printToConsole == (if k == PRINTCONSOLE then v.b else s0.printToConsole)
      && s1.printToFile == (if k == PRINTFILE then v.b else s0.printToFile)
      && s1.printLineDescriptor == (if k == PRINTLINEDESCRIPTOR then v.b else s0.printLineDescriptor)
      && s1.printHeader == (if k == PRINTHEADER then v.b else s0.printHeader)
      && s1.printName == (if k == PRINTNAME then v.b else s0.printName)
      && s1.logfile == (if k == LOGFILE then CastFile(v).value else s0.logfile)
  {
    StreamKeyOverrides(params, k, v, systemOut, systemErr);
    FlagKeyOverrides(params, k, v, systemOut, systemErr);
  }

  /** Storing a value is exactly what adding its entry to the map does to
      the settings. */
  lemma StoreOverrides(params: ParamMap, k: LogParam, v: ParamValue, systemOut: Sink, systemErr: Sink)
    requires CastFault(k, v).None?
    ensures Store(SettingsOf(params, systemOut, systemErr), k, v)
         == SettingsOf(params[k := v], systemOut, systemErr)
  {
    KeyOverridesOnlyItsSetting(params, k, v, systemOut, systemErr);
  }

  /** `params.keySet()` at the head of the loop, as written: a null map
      raises NullPointerException. */
  function KeysAsWritten(params: Option<ParamMap>): (r: Result<set<LogParam>, Fault>)
    ensures params.Some? ==> r == Success(params.value.Keys)
    ensures params.None? ==> r == Failure(NullPointer)
  {
    if params.None? then Failure(NullPointer) else Success(params.value.Keys)
  }

  /** The documented treatment of a null map: use no overrides at all. */
  function ParamsOrEmpty(params: Option<ParamMap>): (r: ParamMap)
    ensures params.Some? ==> r == params.value
    ensures params.None? ==> r == map[]
  {
    if params.None? then map[] else params.value
  }

  /** With that correction a null map yields exactly the defaults. */
  lemma NullParamsGiveDefaults(systemOut: Sink, systemErr: Sink)
    ensures WellTyped(ParamsOrEmpty(None))
    ensures SettingsOf(ParamsOrEmpty(None), systemOut, systemErr) == Defaults(systemOut, systemErr)
  {
  }
}
