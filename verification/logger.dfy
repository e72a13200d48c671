/** The process-wide winston logger of lib/logger.js: its transport list, the
    level rule that decides which transports receive a message, the console
    formatter and the Rollbar transport. */
module Logger {
  import opened Js
  import opened Levels

  /** One call `logger.<level>(...)`: winston keeps a trailing object
      argument as the metadata and formats the remaining arguments, joined
      by a space, into the message. */
  datatype LogCall = LogCall(level: Level, message: string, meta: Value)

  /** `logger.warn(message)`: a warning with empty metadata. */
  function Warning(message: string): LogCall {
    LogCall(Warn, message, Obj(map[]))
  }

  /** `logger.warn(text, arg)`: an object argument becomes the metadata;
      any other argument is appended to the message after a space. */
  function WarningWith(text: string, arg: Value): (call: LogCall)
    ensures call.level == Warn
    ensures IsObject(arg) <==> call.meta == arg
  {
    if IsObject(arg) then LogCall(Warn, text, arg)
    else LogCall(Warn, text + " " + ToText(arg), Obj(map[]))
  }

  /** What a transport does with the messages it receives.  The analytics
      transport closes over the init function it was created with. */
  datatype Sink = ConsoleSink | RollbarSink | AnalyticsSink(init: Value -> Value)

  datatype Transport = Transport(name: string, level: Level, silent: bool, sink: Sink)

  /** The console transport's threshold. */
  const ConsoleLogLevel: Level := Debug

  /** The console transport added when the module loads. */
  const ConsoleTransport: Transport := Transport("console.info", ConsoleLogLevel, false, ConsoleSink)

  /** `new RollbarTransport(options)`: the threshold is `options.level`,
      or error when none is given. */
  function NewRollbarTransport(level: Option<Level>): (t: Transport)
    ensures t.name == "RollBar-Notifications" && t.sink.RollbarSink? && !t.silent
    ensures t.level == (if level.Some? then level.value else Error)
  {
    Transport("RollBar-Notifications", if level.Some? then level.value else Error, false, RollbarSink)
  }

  /** Some transport in the list has the given name. */
  predicate Attached(transports: seq<Transport>, name: string) {
    exists i :: 0 <= i < |transports| && transports[i].name == name
  }

  /** No two transports in the list share a name. */
  predicate DistinctNames(transports: seq<Transport>) {
    forall i, j :: 0 <= i < j < |transports| ==> transports[i].name != transports[j].name
  }

  /** The logger: an ordered list of transports that grows as transports
      are added and is never shrunk. */
  class Logger {
    var transports: seq<Transport>

    constructor ()
      ensures transports == []
    {
      transports := [];
    }

    /** `logger.add(transport, options)`: winston refuses, by throwing, a
        transport whose name is already attached; any other is appended.
        Either way no two transports share a name. */
    method Add(t: Transport) returns (threw: bool)
      modifies this
      ensures threw <==> Attached(old(transports), t.name)
      ensures threw ==> transports == old(transports)
      ensures !threw ==> transports == old(transports) + [t]
      ensures DistinctNames(old(transports)) ==> DistinctNames(transports)
    {
      if exists i :: 0 <= i < |transports| && transports[i].name == t.name {
        return true;
      }
      transports := transports + [t];
      return false;
    }
  }

  /** The logger as the module sets it up when it is loaded: a console
      transport at level debug, then a Rollbar transport at level error. */
  method CreateLogger() returns (logger: Logger)
    ensures fresh(logger)
    ensures logger.transports == [ConsoleTransport, NewRollbarTransport(Some(Error))]
    ensures DistinctNames(logger.transports)
  {
    logger := new Logger();
    var _ := logger.Add(ConsoleTransport);
    var _ := logger.Add(NewRollbarTransport(Some(Error)));
  }

  /** The positions, in registration order, of the transports that receive
      a message logged at `level`. */
  function Recipients(transports: seq<Transport>, level: Level): (r: seq<nat>)
    ensures forall i: nat :: i in r <==> i < |transports| && Delivers(transports[i].level, level)
    ensures forall a, b :: 0 <= a < b < |r| ==> r[a] < r[b]
    ensures forall a :: 0 <= a < |r| ==> r[a] < |transports|
  {
    if |transports| == 0 then []
    else
      var n := |transports| - 1;
      var earlier := Recipients(transports[..n], level);
      if Delivers(transports[n].level, level) then earlier + [n] else earlier
  }

  // ---------------------------------------------------------------------
  // Console transport

  /** The text functions the console formatter calls but that are not part
      of this model: winston's colorizer and `JSON.stringify(meta, null, '  ')`. */
  datatype Formatting = Formatting(colorize: string -> string, stringify: Value -> string)

  /** The two shapes of console line: the compact line for request
      records, and the free-text line with the metadata as JSON when
      there is any. */
  datatype ConsoleLine =
    | HttpLine(level: Level, status: Value, ip: Value, verb: Value, url: Value, input: Value)
    | TextLine(level: Level, message: string, extra: Option<Value>)

  /** The metadata is an object with a `status` property. */
  predicate HasStatus(meta: Value) {
    meta.Obj? && "status" in meta.fields
  }

  /** Metadata winston hands to a transport: an object, or nothing.  (A
      truthy primitive would make the `in` test throw.) */
  predicate IsMetaArgument(meta: Value) {
    !Truthy(meta) || IsObject(meta)
  }

  /** Which line the console formatter writes, and from which parts. */
  function ConsoleLayout(level: Level, message: string, meta: Value): (line: ConsoleLine)
    requires IsMetaArgument(meta)
    ensures line.level == level
    ensures line.HttpLine? <==> HasStatus(meta)
    ensures line.HttpLine? ==>
      && line.status == meta.fields["status"]
      && line.ip == Get(meta, "ip")
      && line.verb == Get(meta, "method")
      && line.url == Get(meta, "url")
      && (Truthy(Get(meta, "input")) ==> line.input == Get(meta, "input"))
      && (!Truthy(Get(meta, "input")) ==> line.input == Str(""))
    ensures line.TextLine? ==>
      && line.message == message
      && (line.extra.Some? <==> Truthy(meta) && KeyCount(meta) > 0)
      && (line.extra.Some? ==> line.extra.value == meta)
  {
    if Truthy(meta) && HasStatus(meta) then
      HttpLine(level, Get(meta, "status"), Get(meta, "ip"), Get(meta, "method"), Get(meta, "url"),
               Or(Get(meta, "input"), Str("")))
    else
      TextLine(level, message, if Truthy(meta) && KeyCount(meta) > 0 then Some(meta) else None)
  }

  /** The text of a console line. */
  function Render(line: ConsoleLine, fmt: Formatting): string {
    match line
    case HttpLine(level, status, ip, verb, url, input) =>
      fmt.colorize(Name(level)) + ": " + ToText(status) + " " + ToText(ip) + " "
        + ToText(verb) + " " + ToText(url) + " " + ToText(input)
    case TextLine(level, message, extra) =>
      fmt.colorize(Name(level)) + ": " + message + (if extra.Some? then fmt.stringify(extra.value) else "")
  }

  /** `consoleFormatter(options)`: every line starts with the colorized
      level and a colon. */
  function ConsoleFormatter(level: Level, message: string, meta: Value, fmt: Formatting): (text: string)
    requires IsMetaArgument(meta)
    ensures StartsWith(text, fmt.colorize(Name(level)) + ": ")
  {
    Render(ConsoleLayout(level, message, meta), fmt)
  }

  /** A plain `logger.warn(message)` appears on the console as the
      colorized level, a colon and the message, with nothing after it. */
  lemma PlainWarningLine(message: string, fmt: Formatting)
    ensures ConsoleFormatter(Warn, message, Warning(message).meta, fmt)
            == fmt.colorize("warn") + ": " + message
  {
  }

  // ---------------------------------------------------------------------
  // Rollbar transport

  /** The three reporting calls the Rollbar transport can make. */
  datatype RollbarCall =
    | HandleError(error: Value)
    | HandleErrorWithPayloadData(error: Value, payload: Value)
    | ReportMessageWithPayloadData(message: Value, payload: Value)

  /** The arguments a transport passes to winston's callback:
      `callback(null, true)` or `callback(err)`. */
  datatype Ack = Logged | Failed(err: Value)

  datatype RollbarDispatch = RollbarDispatch(call: RollbarCall, ack: Ack)

  /** `RollbarTransport.prototype.log(level, msg, meta, callback)`: an
      `Error` metadata is reported with its stack trace; an `Error` message
      with metadata is reported with the metadata as custom payload;
      anything else is reported as a message with the metadata as custom
      payload.  Winston is always told that the message was logged. */
  function RollbarLog(level: Level, msg: Value, meta: Value): (r: RollbarDispatch)
    ensures r.ack == Logged
    ensures r.call.HandleError? <==> meta.Err?
    ensures r.call.HandleErrorWithPayloadData? <==> !meta.Err? && msg.Err? && Truthy(meta)
    ensures r.call.ReportMessageWithPayloadData? <==> !meta.Err? && !(msg.Err? && Truthy(meta))
    ensures r.call.HandleError? ==> r.call.error == meta
    ensures r.call.HandleErrorWithPayloadData? ==> r.call.error == msg
    ensures r.call.ReportMessageWithPayloadData? ==> r.call.message == msg
    ensures !r.call.HandleError? ==> r.call.payload == Obj(map["custom" := meta])
  {
    var custom := Obj(map["custom" := meta]);
    var call :=
      if meta.Err? then HandleError(meta)
      else if msg.Err? && Truthy(meta) then HandleErrorWithPayloadData(msg, custom)
      else ReportMessageWithPayloadData(msg, custom);
    RollbarDispatch(call, Logged)
  }
}
