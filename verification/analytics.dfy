/** The Google Analytics transport of lib/logger.js (`initGoogleAnalytics`
    and `GATransport.prototype.log`).  The universal-analytics visitor is
    modelled by the calls made on it; what the library sends over the
    network for those calls is not part of this model. */
module Analytics {
  import opened Js
  import opened Levels
  import opened Logger

  const NoInitFunctionWarning := "initGoogleAnalytics requires an init function"
  const NoUuidWarning := "Could not make a UUID for Google Analytics"
  const NoTrackingCodeWarning := "Google Analytics requires a tracking code"
  const TimingsNotArrayWarning := "An array of objects is required to add timings"
  const PageviewErrorWarning := "google analytics error: "
  const EventErrorWarning := "google analytics event error: "

  /** The timing category every timing is reported under. */
  const ResponseTime := "Response Time"

  /** Event fields: category, action, label, value and page. */
  datatype EventParams = EventParams(ec: Value, ea: Value, el: Value, ev: Value, dp: Value)

  /** One call made on a universal-analytics visitor. */
  datatype VisitorCall =
    | SetParam(name: string, value: Value)
    | PageviewHit(path: Value)
    | EventHit(params: EventParams)
    | TimingHit(category: string, variable: Value, time: Value)
    | SendQueued

  /** A visitor created with `ua(trackingCode, clientId, ...)`; `calls` is
      every call made on it so far, in order. */
  class Visitor {
    const trackingCode: Value
    const clientId: Value
    var calls: seq<VisitorCall>

    constructor (trackingCode: Value, clientId: Value)
      ensures this.trackingCode == trackingCode && this.clientId == clientId
      ensures calls == []
    {
      this.trackingCode := trackingCode;
      this.clientId := clientId;
      calls := [];
    }

    /** `visitor.set(name, value)`. */
    method Set(name: string, value: Value)
      modifies this
      ensures calls == old(calls) + [SetParam(name, value)]
    {
      calls := calls + [SetParam(name, value)];
    }

    /** `visitor.pageview(path, callback)`. */
    method Pageview(path: Value)
      modifies this
      ensures calls == old(calls) + [PageviewHit(path)]
    {
      calls := calls + [PageviewHit(path)];
    }

    /** `visitor.event(params, callback)`. */
    method Event(params: EventParams)
      modifies this
      ensures calls == old(calls) + [EventHit(params)]
    {
      calls := calls + [EventHit(params)];
    }

    /** `visitor.timing(category, variable, time)`. */
    method Timing(category: string, variable: Value, time: Value)
      modifies this
      ensures calls == old(calls) + [TimingHit(category, variable, time)]
    {
      calls := calls + [TimingHit(category, variable, time)];
    }

    /** `visitor.send()`. */
    method Send()
      modifies this
      ensures calls == old(calls) + [SendQueued]
    {
      calls := calls + [SendQueued];
    }
  }

  /** Which hit a deferred callback waits for. */
  datatype HitKind = PageviewKind | EventKind

  /** How the transport answers winston's callback: at once, or from the
      completion handler it attached to a pageview or event hit. */
  datatype Reply = AckNow(ack: Ack) | AwaitHit(kind: HitKind)

  datatype VisitorId = VisitorId(trackingCode: Value, clientId: Value)

  /** Everything one `log` call of the transport does: its reply to
      winston, the visitor it created (if any) with the calls made on it,
      the warnings it logged, and whether it threw. */
  datatype GaOutcome = GaOutcome(reply: Reply, visitor: Option<VisitorId>, calls: seq<VisitorCall>,
                                 warnings: seq<LogCall>, threw: bool)

  /** The outcome of every early return that only acknowledges. */
  const Skipped := GaOutcome(AckNow(Logged), None, [], [], false)

  /** `initFunction(meta) || {}`. */
  function FieldsOf(init: Value -> Value, meta: Value): Value {
    Or(init(meta), Obj(map[]))
  }

  /** `_fields.uuid || meta.uuid`. */
  function ClientIdOf(fields: Value, meta: Value): Value {
    Or(Get(fields, "uuid"), Get(meta, "uuid"))
  }

  function EventParamsOf(fields: Value, meta: Value): EventParams {
    EventParams(Get(fields, "category"), Get(fields, "action"), Get(fields, "label"),
                Get(fields, "value"), Get(meta, "url"))
  }

  /** The timing reported for one element of `timings`. */
  function ExtraTiming(t: Value): VisitorCall {
    TimingHit(ResponseTime, Get(t, "name"), Get(t, "time"))
  }

  /** The timings reported for the given elements, in order. */
  function ExtraTimings(ts: seq<Value>): seq<VisitorCall> {
    if |ts| == 0 then [] else ExtraTimings(ts[..|ts| - 1]) + [ExtraTiming(ts[|ts| - 1])]
  }

  /** The position of the first null or undefined element (reading its
      `name` throws), or the length when there is none. */
  function FirstNullish(ts: seq<Value>): (k: nat)
    ensures k <= |ts|
  {
    if |ts| == 0 then 0
    else if Nullish(ts[0]) then 0
    else 1 + FirstNullish(ts[1..])
  }

  /** The first null or undefined element is the one after a run of
      elements that are neither. */
  lemma {:induction false} FirstNullishIs(ts: seq<Value>, k: nat)
    requires k <= |ts|
    requires forall j :: 0 <= j < k ==> !Nullish(ts[j])
    requires k < |ts| ==> Nullish(ts[k])
    ensures FirstNullish(ts) == k
  {
    if k > 0 {
      FirstNullishIs(ts[1..], k - 1);
    }
  }

  /** What `GATransport.prototype.log` does, as one value. */
  function GaSpec(silent: bool, level: Level, meta: Value, init: Value -> Value): GaOutcome
    requires !Nullish(meta)
  {
    if silent || Get(meta, "method") == Str("HEAD") then Skipped
    else
      var fields := FieldsOf(init, meta);
      if level != Info then Skipped
      else ReportSpec(fields, meta)
  }

  /** The part of the transport's `log` that runs for an info message that
      is not a HEAD request, given the init function's fields. */
  function ReportSpec(fields: Value, meta: Value): GaOutcome {
    var uuid := ClientIdOf(fields, meta);
    var uuidWarnings := if Truthy(uuid) then [] else [Warning(NoUuidWarning)];
    var code := Get(fields, "trackingCode");
    if !Truthy(code) then
      GaOutcome(AckNow(Logged), None, [], uuidWarnings + [Warning(NoTrackingCodeWarning)], false)
    else
      var id := Some(VisitorId(code, uuid));
      if !Truthy(Get(fields, "action")) then
        GaOutcome(AwaitHit(PageviewKind), id, [SetParam("uid", uuid), PageviewHit(Get(meta, "url")), SendQueued],
                  uuidWarnings, false)
      else EventSpec(fields, meta, uuid, uuidWarnings)
  }

  /** The event branch: the event, the total response time, the extra
      timings and the final send. */
  function EventSpec(fields: Value, meta: Value, uuid: Value, warnings: seq<LogCall>): GaOutcome {
    var id := Some(VisitorId(Get(fields, "trackingCode"), uuid));
    var head := [SetParam("uid", uuid), EventHit(EventParamsOf(fields, meta)),
                 TimingHit(ResponseTime, Str("Total Time"), Get(meta, "responseTime"))];
    var timings := Get(fields, "timings");
    if !Truthy(timings) then
      GaOutcome(AwaitHit(EventKind), id, head + [SendQueued], warnings, false)
    else if !timings.Arr? then
      GaOutcome(AwaitHit(EventKind), id, head, warnings + [Warning(TimingsNotArrayWarning)], false)
    else
      var k := FirstNullish(timings.elems);
      if k < |timings.elems| then
        GaOutcome(AwaitHit(EventKind), id, head + ExtraTimings(timings.elems[..k]), warnings, true)
      else
        GaOutcome(AwaitHit(EventKind), id, head + ExtraTimings(timings.elems) + [SendQueued], warnings, false)
  }

  /** `GATransport.prototype.log(level, msg, meta, callback)`. */
  method GaLog(transport: Transport, level: Level, msg: string, meta: Value) returns (out: GaOutcome)
    requires transport.sink.AnalyticsSink?
    requires !Nullish(meta)
    ensures out == GaSpec(transport.silent, level, meta, transport.sink.init)
  {
    if transport.silent {
      return Skipped;
    }
    if Get(meta, "method") == Str("HEAD") {
      return Skipped;
    }
    var fields := FieldsOf(transport.sink.init, meta);
    if level != Info {
      return Skipped;
    }
    out := Report(fields, meta);
  }

  /** The body of the transport's `log` from the client id on: it creates
      the visitor and makes the pageview or event calls on it. */
  method Report(fields: Value, meta: Value) returns (out: GaOutcome)
    ensures out == ReportSpec(fields, meta)
  {
    var uuid := ClientIdOf(fields, meta);
    var warnings: seq<LogCall> := [];
    if !Truthy(uuid) {
      warnings := warnings + [Warning(NoUuidWarning)];
    }
    var code := Get(fields, "trackingCode");
    if !Truthy(code) {
      return GaOutcome(AckNow(Logged), None, [], warnings + [Warning(NoTrackingCodeWarning)], false);
    }
    var visitor := new Visitor(code, uuid);
    var id := Some(VisitorId(visitor.trackingCode, visitor.clientId));
    visitor.Set("uid", uuid);
    if !Truthy(Get(fields, "action")) {
      visitor.Pageview(Get(meta, "url"));
      visitor.Send();
      return GaOutcome(AwaitHit(PageviewKind), id, visitor.calls, warnings, false);
    }
    out := ReportEvent(visitor, fields, meta, warnings);
  }

  /** The event branch of the transport's `log`, on a visitor on which
      only the client id has been set so far. */
  method ReportEvent(visitor: Visitor, fields: Value, meta: Value, warnings: seq<LogCall>) returns (out: GaOutcome)
    requires visitor.trackingCode == Get(fields, "trackingCode")
    requires visitor.calls == [SetParam("uid", visitor.clientId)]
    modifies visitor
    ensures out == EventSpec(fields, meta, visitor.clientId, warnings)
  {
    var id := Some(VisitorId(visitor.trackingCode, visitor.clientId));
    visitor.Event(EventParamsOf(fields, meta));
    visitor.Timing(ResponseTime, Str("Total Time"), Get(meta, "responseTime"));
    var timings := Get(fields, "timings");
    if Truthy(timings) {
      if !timings.Arr? {
        return GaOutcome(AwaitHit(EventKind), id, visitor.calls, warnings + [Warning(TimingsNotArrayWarning)], false);
      }
      var threw := AddTimings(visitor, timings.elems);
      if threw {
        return GaOutcome(AwaitHit(EventKind), id, visitor.calls, warnings, true);
      }
      assert timings.elems[..|timings.elems|] == timings.elems;
    }
    visitor.Send();
    return GaOutcome(AwaitHit(EventKind), id, visitor.calls, warnings, false);
  }

  /** `timings.map(t => visitor.timing("Response Time", t.name, t.time))`:
      one timing per element, in order, until an element that is null or
      undefined makes the property read throw. */
  method AddTimings(visitor: Visitor, elems: seq<Value>) returns (threw: bool)
    modifies visitor
    ensures threw <==> FirstNullish(elems) < |elems|
    ensures visitor.calls == old(visitor.calls) + ExtraTimings(elems[..FirstNullish(elems)])
  {
    var i := 0;
    while i < |elems| && !Nullish(elems[i])
      invariant i <= |elems|
      invariant visitor.calls == old(visitor.calls) + ExtraTimings(elems[..i])
      invariant forall j :: 0 <= j < i ==> !Nullish(elems[j])
    {
      visitor.Timing(ResponseTime, Get(elems[i], "name"), Get(elems[i], "time"));
      assert elems[..i + 1][..i] == elems[..i];
      i := i + 1;
    }
    FirstNullishIs(elems, i);
    threw := i < |elems|;
  }

  /** The completion handler attached to a pageview or event hit: an error
      is logged as a warning and handed to winston; otherwise winston is
      told the message was logged. */
  function HitCompleted(kind: HitKind, err: Value): (r: (Ack, seq<LogCall>))
    ensures r.0 == Logged <==> !Truthy(err)
    ensures r.0.Failed? ==> r.0.err == err
    ensures |r.1| == (if Truthy(err) then 1 else 0)
    ensures Truthy(err) ==> r.1[0] == WarningWith(if kind == PageviewKind then PageviewErrorWarning else EventErrorWarning, err)
  {
    if Truthy(err) then
      (Failed(err), [WarningWith(if kind.PageviewKind? then PageviewErrorWarning else EventErrorWarning, err)])
    else
      (Logged, [])
  }

  /** `new GATransport(options)`: the threshold is `options.level`, or info
      when none is given. */
  function NewAnalyticsTransport(init: Value -> Value, level: Option<Level>): (t: Transport)
    ensures t.name == "Google-Analytics"
    ensures t.sink.AnalyticsSink? && t.sink.init == init && !t.silent
    ensures t.level == (if level.Some? then level.value else Info)
  {
    Transport("Google-Analytics", if level.Some? then level.value else Info, false, AnalyticsSink(init))
  }

  /** `initGoogleAnalytics(initFunction)`: without an init function it
      only warns; with one it adds the analytics transport, registered
      without options and so at level info, unless an analytics transport
      is already attached, in which case `logger.add` throws. */
  method InitGoogleAnalytics(logger: Logger, init: Option<Value -> Value>) returns (warnings: seq<LogCall>, threw: bool)
    modifies logger
    ensures init.None? ==> warnings == [Warning(NoInitFunctionWarning)] && !threw && logger.transports == old(logger.transports)
    ensures init.Some? ==> warnings == [] && (threw <==> Attached(old(logger.transports), "Google-Analytics"))
    ensures init.Some? && threw ==> logger.transports == old(logger.transports)
    ensures init.Some? && !threw ==> logger.transports == old(logger.transports) + [NewAnalyticsTransport(init.value, None)]
  {
    if init.None? {
      return [Warning(NoInitFunctionWarning)], false;
    }
    threw := logger.Add(NewAnalyticsTransport(init.value, None));
    warnings := [];
  }

  /** The application's set-up: the logger as loaded, then
      `initGoogleAnalytics` with an init function, which succeeds; calling
      it a second time throws and leaves the transports as they were. */
  method SecondInitThrows(init: Value -> Value) returns (logger: Logger, secondThrew: bool)
    ensures logger.transports == StandardTransports(init)
    ensures secondThrew
  {
    logger := CreateLogger();
    var _, first := InitGoogleAnalytics(logger, Some(init));
    assert !first;
    var _, second := InitGoogleAnalytics(logger, Some(init));
    assert logger.transports[2].name == "Google-Analytics";
    secondThrew := second;
  }

  // ---------------------------------------------------------------------
  // Properties

  /** The i-th extra timing is the one for the i-th element. */
  lemma {:induction false} ExtraTimingsAt(ts: seq<Value>)
    ensures |ExtraTimings(ts)| == |ts|
    ensures forall i :: 0 <= i < |ts| ==> ExtraTimings(ts)[i] == ExtraTiming(ts[i])
  {
    if |ts| > 0 {
      ExtraTimingsAt(ts[..|ts| - 1]);
    }
  }

  /** The transport makes an analytics call exactly when it is not silent,
      the request is not a HEAD request, the level is exactly info and the
      fields carry a tracking code; in every other case it acknowledges at
      once, creates no visitor and reports nothing. */
  lemma HitsExactlyWhen(silent: bool, level: Level, meta: Value, init: Value -> Value)
    requires !Nullish(meta)
    ensures var out := GaSpec(silent, level, meta, init);
      (out.calls != [] <==>
        !silent && Get(meta, "method") != Str("HEAD") && level == Info
        && Truthy(Get(FieldsOf(init, meta), "trackingCode")))
      && (out.calls == [] ==> out.reply == AckNow(Logged) && out.visitor.None? && !out.threw)
  {
  }

  /** A missing tracking code is warned about (after the warning about a
      missing client id, if that is missing too). */
  lemma MissingTrackingCodeWarns(meta: Value, init: Value -> Value)
    requires !Nullish(meta) && Get(meta, "method") != Str("HEAD")
    requires !Truthy(Get(FieldsOf(init, meta), "trackingCode"))
    ensures var out := GaSpec(false, Info, meta, init);
      && out.warnings[|out.warnings| - 1] == Warning(NoTrackingCodeWarning)
      && (|out.warnings| == 2 <==> !Truthy(ClientIdOf(FieldsOf(init, meta), meta)))
  {
  }

  /** Without an action the hit is one pageview of the request URL, sent
      at once, under a visitor whose `uid` is the client id. */
  lemma PageviewWithoutAction(meta: Value, init: Value -> Value)
    requires !Nullish(meta) && Get(meta, "method") != Str("HEAD")
    requires var fields := FieldsOf(init, meta);
      Truthy(Get(fields, "trackingCode")) && !Truthy(Get(fields, "action"))
    ensures var out := GaSpec(false, Info, meta, init);
      var uuid := ClientIdOf(FieldsOf(init, meta), meta);
      && out.visitor == Some(VisitorId(Get(FieldsOf(init, meta), "trackingCode"), uuid))
      && out.calls == [SetParam("uid", uuid), PageviewHit(Get(meta, "url")), SendQueued]
      && out.reply == AwaitHit(PageviewKind)
      && !out.threw
  {
  }

  /** With an action and an array of timings none of which is null or
      undefined, the hit is an event built from category, action, label,
      value and the URL, followed by the total response time, one timing
      per array element in array order, and the final send. */
  lemma EventWithTimings(meta: Value, init: Value -> Value)
    requires !Nullish(meta) && Get(meta, "method") != Str("HEAD")
    requires var fields := FieldsOf(init, meta);
      && Truthy(Get(fields, "trackingCode")) && Truthy(Get(fields, "action"))
      && Get(fields, "timings").Arr?
      && forall j :: 0 <= j < |Get(fields, "timings").elems| ==> !Nullish(Get(fields, "timings").elems[j])
    ensures var fields := FieldsOf(init, meta);
      var ts := Get(fields, "timings").elems;
      var out := GaSpec(false, Info, meta, init);
      && |out.calls| == |ts| + 4
      && out.calls[1] == EventHit(EventParams(Get(fields, "category"), Get(fields, "action"), Get(fields, "label"),
                                              Get(fields, "value"), Get(meta, "url")))
      && out.calls[2] == TimingHit(ResponseTime, Str("Total Time"), Get(meta, "responseTime"))
      && (forall i :: 0 <= i < |ts| ==> out.calls[3 + i] == TimingHit(ResponseTime, Get(ts[i], "name"), Get(ts[i], "time")))
      && out.calls[|ts| + 3] == SendQueued
      && out.reply == AwaitHit(EventKind)
      && !out.threw
  {
    var ts := Get(FieldsOf(init, meta), "timings").elems;
    FirstNullishIs(ts, |ts|);
    ExtraTimingsAt(ts);
  }

  /** The common event: with an action and no timings, the hit is the
      event, the total response time and the final send. */
  lemma EventWithoutTimings(meta: Value, init: Value -> Value)
    requires !Nullish(meta) && Get(meta, "method") != Str("HEAD")
    requires var fields := FieldsOf(init, meta);
      && Truthy(Get(fields, "trackingCode")) && Truthy(Get(fields, "action"))
      && !Truthy(Get(fields, "timings"))
    ensures var fields := FieldsOf(init, meta);
      var uuid := ClientIdOf(fields, meta);
      var out := GaSpec(false, Info, meta, init);
      && out.visitor == Some(VisitorId(Get(fields, "trackingCode"), uuid))
      && out.calls == [SetParam("uid", uuid), EventHit(EventParamsOf(fields, meta)),
                       TimingHit(ResponseTime, Str("Total Time"), Get(meta, "responseTime")), SendQueued]
      && out.reply == AwaitHit(EventKind)
      && !out.threw
  {
  }

  /** A null or undefined element among the timings makes the transport
      throw after reporting the timings before it, and nothing is sent. */
  lemma NullTimingThrows(meta: Value, init: Value -> Value, k: nat)
    requires !Nullish(meta) && Get(meta, "method") != Str("HEAD")
    requires var fields := FieldsOf(init, meta);
      && Truthy(Get(fields, "trackingCode")) && Truthy(Get(fields, "action"))
      && Get(fields, "timings").Arr?
      && k < |Get(fields, "timings").elems|
      && Nullish(Get(fields, "timings").elems[k])
      && forall j :: 0 <= j < k ==> !Nullish(Get(fields, "timings").elems[j])
    ensures var fields := FieldsOf(init, meta);
      var ts := Get(fields, "timings").elems;
      var out := GaSpec(false, Info, meta, init);
      && out.threw
      && |out.calls| == 3 + k
      && out.calls[3..] == ExtraTimings(ts[..k])
      && SendQueued !in out.calls
      && out.reply == AwaitHit(EventKind)
  {
    var ts := Get(FieldsOf(init, meta), "timings").elems;
    FirstNullishIs(ts, k);
    ExtraTimingsAt(ts[..k]);
    var out := GaSpec(false, Info, meta, init);
    assert out.calls[3..] == ExtraTimings(ts[..k]);
    assert forall i :: 0 <= i < |out.calls| ==> out.calls[i] != SendQueued;
  }

  /** Timings that are not an array are warned about, and the queued
      timings are never sent. */
  lemma TimingsNotArray(meta: Value, init: Value -> Value)
    requires !Nullish(meta) && Get(meta, "method") != Str("HEAD")
    requires var fields := FieldsOf(init, meta);
      && Truthy(Get(fields, "trackingCode")) && Truthy(Get(fields, "action"))
      && Truthy(Get(fields, "timings")) && !Get(fields, "timings").Arr?
    ensures var out := GaSpec(false, Info, meta, init);
      && out.warnings[|out.warnings| - 1] == Warning(TimingsNotArrayWarning)
      && SendQueued !in out.calls
      && out.calls[1] == EventHit(EventParamsOf(FieldsOf(init, meta), meta))
      && |out.calls| == 3
      && out.reply == AwaitHit(EventKind)
      && !out.threw
  {
  }

  /** A transport added last receives a message after all earlier ones. */
  lemma RecipientsSnoc(ts: seq<Transport>, level: Level)
    requires |ts| > 0
    ensures Recipients(ts, level) ==
      Recipients(ts[..|ts| - 1], level) + (if Delivers(ts[|ts| - 1].level, level) then [|ts| - 1] else [])
  {
  }

  /** Three transports receive a message in registration order. */
  lemma RecipientsOfThree(ts: seq<Transport>, level: Level)
    requires |ts| == 3
    ensures Recipients(ts, level) ==
      (if Delivers(ts[0].level, level) then [0] else [])
      + (if Delivers(ts[1].level, level) then [1] else [])
      + (if Delivers(ts[2].level, level) then [2] else [])
  {
    var t1 := ts[..2];
    var t0 := t1[..1];
    RecipientsSnoc(ts, level);
    RecipientsSnoc(t1, level);
    RecipientsSnoc(t0, level);
    assert t0[..0] == [];
  }

  /** The transports the application registers, in order: console,
      Rollbar, and analytics once `initGoogleAnalytics` has run. */
  function StandardTransports(init: Value -> Value): seq<Transport> {
    [ConsoleTransport, NewRollbarTransport(Some(Error)), NewAnalyticsTransport(init, None)]
  }

  /** With the standard transports, the console receives everything but
      silly messages, Rollbar only errors, and the analytics transport
      errors, warnings and info messages. */
  lemma StandardRouting(init: Value -> Value, level: Level)
    ensures Recipients(StandardTransports(init), level) ==
      (if level != Silly then [0] else [])
      + (if level == Error then [1] else [])
      + (if level == Error || level == Warn || level == Info then [2] else [])
  {
    var ts := StandardTransports(init);
    assert ts[0].level == Debug && ts[1].level == Error && ts[2].level == Info;
    RecipientsOfThree(ts, level);
  }
}
