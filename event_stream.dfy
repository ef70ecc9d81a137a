/**
 * The per-user notification channel: an object that owns at most one
 * server-sent-events connection and republishes each inbound frame as a
 * Backbone event, `g:event.<type>` for a parsed frame and `g:error` for a
 * frame that is not a typed notification.
 *
 * `JSON.parse` is a parameter `parse` (None: it threw); Backbone's `trigger`
 * is an append to the emitted-event log; the browser's EventSource is the
 * class Connection with a `closed` flag.
 */
module EventStreams {
  import opened JsValues

  /** A settings record: property name to value. */
  type Settings = map<string, JsValue>

  const DefaultStreamPath: string := "/notification/stream"
  const ErrorName: string := "g:error"
  const EventPrefix: string := "g:event."
  const TimeoutQuery: string := "?timeout="

  function Defaults(): (d: Settings)
    ensures d.Keys == {"timeout", "streamPath"}
    ensures d["timeout"] == Null && d["streamPath"] == Str(DefaultStreamPath)
  {
    map["timeout" := Null, "streamPath" := Str(DefaultStreamPath)]
  }

  /**
   * `_.extend(base, caller)`: every enumerable property of the caller's record is
   * copied over the base (an explicitly undefined value included); a missing
   * or null caller record copies nothing.
   */
  function Extend(base: Settings, caller: Option<Settings>): (r: Settings)
    ensures caller.None? ==> r == base
    ensures caller.Some? ==> r.Keys == base.Keys + caller.value.Keys
    ensures caller.Some? ==> forall k :: k in caller.value ==> r[k] == caller.value[k]
    ensures forall k :: k in base && (caller.None? || k !in caller.value) ==> r[k] == base[k]
  {
    match caller
    case None => base
    case Some(m) => base + m
  }

  /** Reading `settings.key`: undefined when the record has no such property. */
  function Setting(s: Settings, key: string): (v: JsValue) {
    if key in s then s[key] else Undefined
  }

  /** `apiRoot + settings.streamPath`, the URL before the optional query; None when converting the path throws. */
  function StreamBase(apiRoot: string, settings: Settings): (r: Option<string>)
    ensures r.None? <==> ToStr(Setting(settings, "streamPath")).None?
    ensures r.Some? ==> |apiRoot| <= |r.value| && r.value[..|apiRoot|] == apiRoot
    ensures r.Some? ==> r.value[|apiRoot|..] == ToStr(Setting(settings, "streamPath")).value
  {
    var path := ToStr(Setting(settings, "streamPath"));
    if path.None? then None else Some(apiRoot + path.value)
  }

  /** The stream URL `open` connects to; None when building it throws. */
  function StreamUrl(apiRoot: string, settings: Settings): (url: Option<string>)
    ensures url.None? <==> StreamBase(apiRoot, settings).None?
                           || (Truthy(Setting(settings, "timeout")) && ToStr(Setting(settings, "timeout")).None?)
    ensures url.Some? ==> |StreamBase(apiRoot, settings).value| <= |url.value|
    ensures url.Some? ==> url.value[..|StreamBase(apiRoot, settings).value|] == StreamBase(apiRoot, settings).value
  {
    var base := StreamBase(apiRoot, settings);
    var timeout := Setting(settings, "timeout");
    if base.None? then None
    else if !Truthy(timeout) then base
    else
      var t := ToStr(timeout);
      if t.None? then None else Some(base.value + TimeoutQuery + t.value)
  }

  /** The query is added exactly when the timeout setting is truthy, and it is then "?timeout=" followed by the timeout. */
  lemma UrlQueryIffTruthy(apiRoot: string, settings: Settings)
    ensures var url := StreamUrl(apiRoot, settings);
            url.Some? ==> (url.value == StreamBase(apiRoot, settings).value
                           <==> !Truthy(Setting(settings, "timeout")))
    ensures var url := StreamUrl(apiRoot, settings);
            url.Some? && Truthy(Setting(settings, "timeout")) ==>
              url.value[|StreamBase(apiRoot, settings).value|..]
              == TimeoutQuery + ToStr(Setting(settings, "timeout")).value
  {
    var url := StreamUrl(apiRoot, settings);
    if url.Some? && Truthy(Setting(settings, "timeout")) {
      var base := StreamBase(apiRoot, settings).value;
      var t := ToStr(Setting(settings, "timeout")).value;
      assert url.value == base + (TimeoutQuery + t);
      assert |url.value| > |base|;
    }
  }

  /** A positive integer timeout can be read back from the URL: the text after "?timeout=" is its decimal spelling. */
  lemma {:induction false} UrlTimeoutRecoverable(apiRoot: string, settings: Settings, n: nat)
    requires Setting(settings, "timeout") == Num(n) && n > 0
    ensures var base := StreamBase(apiRoot, settings);
            var url := StreamUrl(apiRoot, settings);
            base.Some? ==>
              && url.Some?
              && |base.value| + |TimeoutQuery| <= |url.value|
              && url.value[|base.value|..|base.value| + |TimeoutQuery|] == TimeoutQuery
              && IsDecimal(url.value[|base.value| + |TimeoutQuery|..])
              && DecimalValue(url.value[|base.value| + |TimeoutQuery|..]) == n
  {
    var base := StreamBase(apiRoot, settings);
    if base.Some? {
      var b := base.value;
      var url := StreamUrl(apiRoot, settings).value;
      assert url == b + TimeoutQuery + NaturalToString(n);
      assert url[|b| + |TimeoutQuery|..] == NaturalToString(n);
      assert url[|b|..|b| + |TimeoutQuery|] == TimeoutQuery;
      DecimalRoundTrip(n);
    }
  }

  /** Constructed with `{timeout: 30}`, the channel connects to apiRoot + "/notification/stream?timeout=30". */
  lemma UrlWithTimeout30(apiRoot: string)
    ensures StreamUrl(apiRoot, Extend(Defaults(), Some(map["timeout" := Num(30)])))
            == Some(apiRoot + "/notification/stream?timeout=30")
  {
    var s := Extend(Defaults(), Some(map["timeout" := Num(30)]));
    assert Setting(s, "streamPath") == Str(DefaultStreamPath);
    assert NaturalToString(30) == "30" by {
      assert NaturalToString(3) == "3";
    }
    assert ToStr(Setting(s, "timeout")) == Some("30");
    assert StreamBase(apiRoot, s) == Some(apiRoot + DefaultStreamPath);
    assert Truthy(Setting(s, "timeout"));
    assert StreamUrl(apiRoot, s) == Some(apiRoot + DefaultStreamPath + TimeoutQuery + "30");
    assert DefaultStreamPath + TimeoutQuery + "30" == "/notification/stream?timeout=30";
    assert apiRoot + DefaultStreamPath + TimeoutQuery + "30" == apiRoot + (DefaultStreamPath + TimeoutQuery + "30");
  }

  /** A timeout of null (the default), undefined or 0 adds no query. */
  lemma UrlWithoutTimeout(apiRoot: string, timeout: JsValue)
    requires timeout in {Null, Undefined, Num(0)}
    ensures StreamUrl(apiRoot, Extend(Defaults(), Some(map["timeout" := timeout])))
            == Some(apiRoot + DefaultStreamPath)
    ensures StreamUrl(apiRoot, Extend(Defaults(), None)) == Some(apiRoot + DefaultStreamPath)
  {
  }

  /** Keys the caller omits keep their defaults; keys it supplies replace them. */
  lemma SettingsDefaults(caller: Option<Settings>)
    ensures var s := Extend(Defaults(), caller);
            && (caller.None? || "timeout" !in caller.value ==> Setting(s, "timeout") == Null)
            && (caller.None? || "streamPath" !in caller.value ==> Setting(s, "streamPath") == Str(DefaultStreamPath))
            && (caller.Some? ==> forall k :: k in caller.value ==> Setting(s, k) == caller.value[k])
  {
  }

  /** The message event the transport hands to `onmessage`. */
  datatype MessageEvent = MessageEvent(data: string)

  /** What `trigger` is called with besides the event name. */
  datatype Payload = Parsed(value: JsValue) | Raw(frame: MessageEvent)

  /** One `trigger(name, payload)` call. */
  datatype Event = Event(name: string, payload: Payload)

  predicate IsNotification(ev: Event) {
    |EventPrefix| <= |ev.name| && ev.name[..|EventPrefix|] == EventPrefix
  }

  /**
   * `obj.type` as the string `'g:event.' + obj.type` appends: None when
   * reading the property throws (obj is null or undefined) or converting it
   * throws.
   */
  function TypeName(v: JsValue): (r: Option<string>)
    ensures Nullish(v) ==> r.None?
    ensures v.Object? && "type" in v.fields ==> r == ToStr(v.fields["type"])
    ensures !Nullish(v) && !(v.Object? && "type" in v.fields) ==> r == Some("undefined")
  {
    match TypeField(v)
    case None => None
    case Some(t) => ToStr(t)
  }

  /** The frame is a typed notification: it parses to a value whose `type` can be read and converted. */
  predicate Dispatchable(parsed: Option<JsValue>) {
    parsed.Some? && TypeName(parsed.value).Some?
  }

  /** The name a parsed value is triggered under: "g:event." followed by its `type` as a string. */
  function NotificationName(v: JsValue): (name: string)
    requires TypeName(v).Some?
    ensures |name| >= |EventPrefix| && name[..|EventPrefix|] == EventPrefix
    ensures name[|EventPrefix|..] == TypeName(v).value
  {
    EventPrefix + TypeName(v).value
  }

  /**
   * The `onmessage` handler on one frame, with both throwing cases handled:
   * a frame that does not parse, parses to null, or has a `type` that cannot
   * be converted to a string triggers `g:error` with the raw message event;
   * any other frame triggers its notification name with the parsed value.
   * Every frame triggers exactly one event.
   */
  function Handle(parse: string -> Option<JsValue>, e: MessageEvent): (r: seq<Event>)
    ensures |r| == 1
    ensures IsNotification(r[0]) <==> Dispatchable(parse(e.data))
    ensures r[0].name == ErrorName <==> !Dispatchable(parse(e.data))
    ensures r[0].payload.Raw? <==> !Dispatchable(parse(e.data))
    ensures !Dispatchable(parse(e.data)) ==> r == [Event(ErrorName, Raw(e))]
  {
    match parse(e.data)
    case None => [Event(ErrorName, Raw(e))]
    case Some(v) =>
      match TypeName(v)
      case None => [Event(ErrorName, Raw(e))]
      case Some(_) => [Event(NotificationName(v), Parsed(v))]
  }

  /** A parsed frame with a printable type triggers exactly its notification, carrying the parsed object and no `g:error`. */
  lemma SuccessfulParse(parse: string -> Option<JsValue>, e: MessageEvent, v: JsValue)
    requires parse(e.data) == Some(v) && TypeName(v).Some?
    ensures Handle(parse, e) == [Event(EventPrefix + TypeName(v).value, Parsed(v))]
    ensures forall ev :: ev in Handle(parse, e) ==> ev.name != ErrorName
  {
  }

  /** A frame that fails to parse triggers exactly one `g:error` with the raw message event, and no notification. */
  lemma FailedParse(parse: string -> Option<JsValue>, e: MessageEvent)
    requires parse(e.data).None?
    ensures Handle(parse, e) == [Event(ErrorName, Raw(e))]
    ensures forall ev :: ev in Handle(parse, e) ==> !IsNotification(ev)
  {
  }

  /** The outcome of the handler as written: the events it triggered and whether it threw. */
  datatype Outcome = Outcome(emitted: seq<Event>, threw: bool)

  /**
   * The `onmessage` handler exactly as written: the trigger name is built
   * outside the try block, so a frame that parses to null, or whose `type`
   * cannot be converted to a string, throws a TypeError before anything is
   * triggered.
   */
  function HandleAsWritten(parse: string -> Option<JsValue>, e: MessageEvent): (r: Outcome)
    ensures r.threw <==> parse(e.data).Some? && TypeName(parse(e.data).value).None?
    ensures r.threw ==> r.emitted == []
    ensures !r.threw ==> r.emitted == Handle(parse, e)
  {
    match parse(e.data)
    case None => Outcome([Event(ErrorName, Raw(e))], false)
    case Some(v) =>
      match TypeName(v)
      case None => Outcome([], true)
      case Some(_) => Outcome([Event(NotificationName(v), Parsed(v))], false)
  }

  /** The frame "null" is valid JSON, yet as written it triggers nothing and the handler throws. */
  lemma NullFrameAsWritten(parse: string -> Option<JsValue>)
    requires parse("null") == Some(Null)
    ensures HandleAsWritten(parse, MessageEvent("null")) == Outcome([], true)
    ensures Handle(parse, MessageEvent("null")) == [Event(ErrorName, Raw(MessageEvent("null")))]
  {
  }

  /** The frame data `{"type":{"toString":1}}`. */
  const UnprintableTypeFrame: string := "{\"type\":{\"toString\":1}}"

  /**
   * A frame whose `type` is an object with its own `toString` key parses, yet
   * as written it triggers nothing and the handler throws.
   */
  lemma UnprintableTypeAsWritten(parse: string -> Option<JsValue>)
    requires parse(UnprintableTypeFrame) == Some(Object(map["type" := Object(map["toString" := Num(1)])]))
    ensures HandleAsWritten(parse, MessageEvent(UnprintableTypeFrame)) == Outcome([], true)
    ensures Handle(parse, MessageEvent(UnprintableTypeFrame))
            == [Event(ErrorName, Raw(MessageEvent(UnprintableTypeFrame)))]
  {
  }

  /** The events a sequence of frames triggers, in arrival order. */
  function Emissions(parse: string -> Option<JsValue>, frames: seq<MessageEvent>): (r: seq<Event>)
    ensures |r| == |frames|
    decreases |frames|
  {
    if frames == [] then [] else Handle(parse, frames[0]) + Emissions(parse, frames[1..])
  }

  /** Event i is the one event frame i triggers: nothing is dropped, duplicated or reordered. */
  lemma {:induction false} EmissionsAt(parse: string -> Option<JsValue>, frames: seq<MessageEvent>, i: nat)
    requires i < |frames|
    ensures Emissions(parse, frames)[i] == Handle(parse, frames[i])[0]
    decreases |frames|
  {
    if i > 0 {
      EmissionsAt(parse, frames[1..], i - 1);
    }
  }

  /** Handling a batch of frames and then another is handling their concatenation. */
  lemma {:induction false} EmissionsAppend(parse: string -> Option<JsValue>, a: seq<MessageEvent>, b: seq<MessageEvent>)
    ensures Emissions(parse, a + b) == Emissions(parse, a) + Emissions(parse, b)
    decreases |a|
  {
    if a == [] {
      assert a + b == b;
    } else {
      assert (a + b)[1..] == a[1..] + b;
      EmissionsAppend(parse, a[1..], b);
    }
  }

  /** One more frame appends its event to what the earlier frames triggered. */
  lemma EmissionsSnoc(parse: string -> Option<JsValue>, frames: seq<MessageEvent>, e: MessageEvent)
    ensures Emissions(parse, frames + [e]) == Emissions(parse, frames) + Handle(parse, e)
  {
    EmissionsAppend(parse, frames, [e]);
    assert Emissions(parse, [e]) == Handle(parse, e) + Emissions(parse, []);
  }

  /** The browser's EventSource, reduced to its URL, its closed flag and the owner of its `onmessage` handler. */
  class Connection {
    const url: string
    var closed: bool
    var listener: EventStream?

    constructor (url: string)
      ensures this.url == url && !closed && listener == null
    {
      this.url := url;
      closed := false;
      listener := null;
    }

    /** EventSource.close: the connection stops; the handler stays assigned. */
    method Close()
      modifies this
      ensures closed && listener == old(listener)
    {
      closed := true;
    }
  }

  class EventStream {
    const settings: Settings
    var eventSource: Connection?
    /** Every `trigger` call so far, in order. */
    var log: seq<Event>

    constructor (caller: Option<Settings>)
      ensures settings == Extend(Defaults(), caller)
      ensures eventSource == null && log == []
    {
      settings := Extend(Defaults(), caller);
      eventSource := null;
      log := [];
    }

    /**
     * Connects to the stream URL when the platform supports EventSource and
     * installs this stream's message handler on the new connection. A
     * previous connection is abandoned, not closed. Without support nothing
     * changes and nothing is triggered. `threw` reports the TypeError raised
     * when the path or the timeout cannot be converted to a string; nothing
     * changes then either.
     */
    method Open(apiRoot: string, supported: bool) returns (threw: bool)
      modifies this
      ensures log == old(log)
      ensures threw <==> supported && StreamUrl(apiRoot, settings).None?
      ensures !supported || threw ==> eventSource == old(eventSource)
      ensures supported && !threw ==> eventSource != null && fresh(eventSource)
      ensures supported && !threw ==> eventSource.url == StreamUrl(apiRoot, settings).value
      ensures supported && !threw ==> !eventSource.closed && eventSource.listener == this
      ensures old(eventSource) != null ==> unchanged(old(eventSource))
    {
      threw := false;
      if supported {
        var path := ToStr(Setting(settings, "streamPath"));
        if path.None? {
          threw := true;
          return;
        }
        var url := apiRoot + path.value;
        var timeout := Setting(settings, "timeout");
        if Truthy(timeout) {
          var t := ToStr(timeout);
          if t.None? {
            threw := true;
            return;
          }
          url := url + TimeoutQuery + t.value;
        }
        var c := new Connection(url);
        c.listener := this;
        eventSource := c;
      }
    }

    /** The message handler `open` installs, run on one inbound frame. */
    method OnMessage(parse: string -> Option<JsValue>, e: MessageEvent)
      modifies this
      ensures eventSource == old(eventSource)
      ensures log == old(log) + Handle(parse, e)
    {
      var parsed := parse(e.data);
      if parsed.None? {
        log := log + [Event(ErrorName, Raw(e))];
        return;
      }
      var obj := parsed.value;
      var name := TypeName(obj);
      if name.None? {
        log := log + [Event(ErrorName, Raw(e))];
        return;
      }
      log := log + [Event(EventPrefix + name.value, Parsed(obj))];
    }

    /**
     * Closes and drops the connection when there is one; otherwise does
     * nothing, so a second close is a no-op.
     */
    method Close()
      modifies this, eventSource
      ensures eventSource == null && log == old(log)
      ensures old(eventSource) != null ==> old(eventSource).closed
      ensures old(eventSource) != null ==> old(eventSource).listener == old(eventSource.listener)
      ensures old(eventSource) == null ==> unchanged(this)
    {
      if eventSource != null {
        eventSource.Close();
        eventSource := null;
      }
    }
  }
}
