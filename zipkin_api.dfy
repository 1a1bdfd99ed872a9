/**
 * `ZipkinApi`: records annotations into the request-scoped store, assembles the span
 * from the store and hands it to the writer, and derives the headers that carry the
 * trace context to a downstream call.
 */
module Api {
  import opened Wrappers
  import opened Bytes
  import opened Text
  import opened AnnotationValues
  import opened Endpoints
  import opened Tracing

  /** The propagation header names; their spelling lives in a constants module not modelled here. */
  datatype HeaderName = TraceIdHeader | SpanIdHeader | ParentSpanIdHeader | SampledHeader | FlagsHeader

  /** `_bool_to_str_true_false` */
  function BoolToStrTrueFalse(b: bool): (r: string)
    ensures r == "true" || r == "false"
    ensures r == "true" <==> b
  {
    if b then "true" else "false"
  }

  /** `_bool_to_str_1_0` */
  function BoolToStr10(b: bool): (r: string)
    ensures r == "1" || r == "0"
    ensures r == "1" <==> b
  {
    if b then "1" else "0"
  }

  /** The header carrying an id's hex form, or no header at all when the id is absent. */
  function IdHeader(name: HeaderName, id: Option<Id>): map<HeaderName, string> {
    if id.Some? then map[name := id.value.hex] else map[]
  }

  /**
   * The headers a downstream call carries: one per populated field of the trace context,
   * none for an absent one, and none at all when the store cannot be read.
   */
  function DownstreamHeaders(snapshot: Result<ZipkinData, StoreError>): map<HeaderName, string> {
    match snapshot
    case Err(_) => map[]
    case Ok(d) =>
      IdHeader(TraceIdHeader, d.traceId) + IdHeader(SpanIdHeader, d.spanId)
        + IdHeader(ParentSpanIdHeader, d.parentSpanId)
        + map[SampledHeader := BoolToStrTrueFalse(d.sampled), FlagsHeader := BoolToStr10(d.flags)]
  }

  /** The header dict before its `None` entries are deleted. */
  function HeaderDict(d: ZipkinData): map<HeaderName, Option<string>> {
    var base := map[
      TraceIdHeader := if d.traceId.Some? then Some(d.traceId.value.hex) else None,
      SpanIdHeader := if d.spanId.Some? then Some(d.spanId.value.hex) else None,
      SampledHeader := Some(BoolToStrTrueFalse(d.sampled)),
      FlagsHeader := Some(BoolToStr10(d.flags))];
    if d.parentSpanId.Some? then base[ParentSpanIdHeader := Some(d.parentSpanId.value.hex)] else base
  }

  /** The entries of `m` whose value is not `None`. */
  function WithoutNone(m: map<HeaderName, Option<string>>): (r: map<HeaderName, string>)
    ensures forall k :: k in r <==> k in m && m[k].Some?
    ensures forall k :: k in r ==> m[k] == Some(r[k])
  {
    map k | k in m && m[k].Some? :: m[k].value
  }

  /** Deleting the `None` entries of the header dict leaves exactly the downstream headers. */
  lemma HeaderDictWithoutNone(d: ZipkinData)
    ensures WithoutNone(HeaderDict(d)) == DownstreamHeaders(Ok(d))
  {
    var l, r := WithoutNone(HeaderDict(d)), DownstreamHeaders(Ok(d));
    forall k: HeaderName ensures (k in l <==> k in r) && (k in l ==> l[k] == r[k]) {
      match k
      case TraceIdHeader =>
      case SpanIdHeader =>
      case ParentSpanIdHeader =>
      case SampledHeader =>
      case FlagsHeader =>
    }
  }

  /** Which headers appear, and with what value, for a readable trace context. */
  lemma DownstreamHeadersFields(d: ZipkinData)
    ensures var h := DownstreamHeaders(Ok(d));
      && (TraceIdHeader in h <==> d.traceId.Some?)
      && (d.traceId.Some? ==> h[TraceIdHeader] == d.traceId.value.hex)
      && (SpanIdHeader in h <==> d.spanId.Some?)
      && (d.spanId.Some? ==> h[SpanIdHeader] == d.spanId.value.hex)
      && (ParentSpanIdHeader in h <==> d.parentSpanId.Some?)
      && (d.parentSpanId.Some? ==> h[ParentSpanIdHeader] == d.parentSpanId.value.hex)
      && SampledHeader in h && (h[SampledHeader] == "true" <==> d.sampled)
      && FlagsHeader in h && (h[FlagsHeader] == "1" <==> d.flags)
  {
  }

  /** A root span with trace id abc123, span id def456, sampled and not debug. */
  lemma RootSpanHeaders()
    ensures DownstreamHeaders(Ok(ZipkinData(Some(Id("abc123", 0xabc123)), Some(Id("def456", 0xdef456)), None, true, false)))
              == map[TraceIdHeader := "abc123", SpanIdHeader := "def456", SampledHeader := "true", FlagsHeader := "0"]
  {
  }

  /** Why `_build_span` raises instead of returning a span. */
  datatype SpanError = StoreUnreadable | MissingSpanId | MissingTraceId

  /** Why `submit_span` raises. */
  datatype SubmitError = SpanFailed(cause: SpanError) | NoWriter

  class ZipkinApi {
    const store: DataStore
    const endpoint: Endpoint
    const writer: Writer?

    /**
     * `__init__`: keeps the store and the writer and resolves the endpoint once.
     * `hostAddress` is what the host name lookup returned, `None` if it raised;
     * `defaultServiceName` is the configured service name.
     */
    constructor (store: DataStore, serviceName: Option<string>, writer: Writer?,
                 hostAddress: Option<string>, defaultServiceName: string)
      ensures this.store == store && this.writer == writer
      ensures endpoint.port.None?
      ensures hostAddress.None? ==> endpoint.ipv4.None?
      ensures endpoint == LocalEndpoint(hostAddress, serviceName, defaultServiceName)
    {
      this.store := store;
      this.endpoint := LocalEndpoint(hostAddress, serviceName, defaultServiceName);
      this.writer := writer;
    }

    /**
     * `_build_annotation`: the value's text (UTF-8 for unicode) stamped with this
     * process's endpoint. `timestamp` stands for the wall-clock reading in microseconds.
     */
    function BuildAnnotation(value: Value, duration: Option<int>, timestamp: int): (a: Annotation)
      ensures a.host == endpoint && a.timestamp == timestamp && a.duration == duration
      ensures value.Str? ==> a.value == value.bytes
      ensures value.Unicode? ==> Utf8Decode(a.value) == Some(value.text)
    {
      Annotation(timestamp, TextBytes(value), endpoint, duration)
    }

    /**
     * `_build_binary_annotation`: the value classified, then formatted under its tag,
     * stamped with this process's endpoint; the error of `struct.pack` propagates.
     */
    function BuildBinaryAnnotation(key: string, value: Value): (r: Result<BinaryAnnotation, PackError>)
      ensures r.Ok? ==> r.value.key == key && r.value.host == endpoint
      ensures r.Ok? ==> r.value.annotationType == BinaryAnnotationType(value)
      ensures r.Ok? ==> FormatBinaryAnnotationValue(value, BinaryAnnotationType(value)) == Ok(r.value.value)
      ensures !value.Int? ==> r.Ok?
      ensures value.Int? ==> (r.Ok? <==> InSignedRange(value.i, 8))
      ensures value.Int? && r.Ok? ==> |r.value.value| == 8 && UnpackSigned(r.value.value) == value.i
      ensures value.Bool? ==> r.Ok? && r.value.value == (if value.b then [0x31] else [0x30])
      ensures value.Unicode? ==> r.Ok? && Utf8Decode(r.value.value) == Some(value.text)
      ensures value.Other? ==> r.Ok? && r.value.annotationType.None?
    {
      ClassifyThenFormat(value);
      var annotationType := BinaryAnnotationType(value);
      match FormatBinaryAnnotationValue(value, annotationType)
      case Err(e) => Err(e)
      case Ok(formatted) => Ok(BinaryAnnotation(key, formatted, annotationType, endpoint))
    }

    /**
     * `_build_span`: a snapshot of the store. It raises when the store cannot be read
     * or when the span id or the trace id is missing (the span id is read first).
     */
    function BuildSpan(): (r: Result<Span, SpanError>)
      reads store
      ensures r.Ok? <==> store.readable && store.data.spanId.Some? && store.data.traceId.Some?
      ensures !store.readable ==> r == Err(StoreUnreadable)
      ensures store.readable && store.data.spanId.None? ==> r == Err(MissingSpanId)
      ensures store.readable && store.data.spanId.Some? && store.data.traceId.None? ==> r == Err(MissingTraceId)
      ensures r.Ok? ==> r.value.id == store.data.spanId.value.binary
      ensures r.Ok? ==> r.value.traceId == store.data.traceId.value.binary
      ensures r.Ok? ==> (r.value.parentId.None? <==> store.data.parentSpanId.None?)
      ensures r.Ok? && store.data.parentSpanId.Some? ==> r.value.parentId == Some(store.data.parentSpanId.value.binary)
      ensures r.Ok? ==> r.value.name == store.rpcName
      ensures r.Ok? ==> r.value.annotations == store.annotations
      ensures r.Ok? ==> r.value.binaryAnnotations == store.binaryAnnotations
    {
      match store.Get()
      case Err(_) => Err(StoreUnreadable)
      case Ok(data) =>
        if data.spanId.None? then Err(MissingSpanId)
        else if data.traceId.None? then Err(MissingTraceId)
        else
          var parentId := if data.parentSpanId.Some? then Some(data.parentSpanId.value.binary) else None;
          Ok(Span(data.spanId.value.binary, data.traceId.value.binary, parentId,
                  store.rpcName, store.annotations, store.binaryAnnotations))
    }

    /** `record_event`: appends one event annotation; the next span carries it last. */
    method RecordEvent(message: Value, duration: Option<int>, timestamp: int)
      modifies store
      ensures store.annotations == old(store.annotations) + [BuildAnnotation(message, duration, timestamp)]
      ensures store.binaryAnnotations == old(store.binaryAnnotations)
      ensures store.readable == old(store.readable) && store.data == old(store.data)
      ensures store.rpcName == old(store.rpcName)
      ensures old(BuildSpan()).Ok? ==>
                && BuildSpan().Ok?
                && BuildSpan().value.annotations == old(BuildSpan()).value.annotations + [BuildAnnotation(message, duration, timestamp)]
    {
      store.Record(Event(BuildAnnotation(message, duration, timestamp)));
    }

    /**
     * `record_key_value`: appends one binary annotation, or raises the error of
     * `struct.pack` and records nothing.
     */
    method RecordKeyValue(key: string, value: Value) returns (outcome: Outcome<PackError>)
      modifies store
      ensures outcome.Pass? <==> BuildBinaryAnnotation(key, value).Ok?
      ensures outcome.Fail? ==> outcome.error == BuildBinaryAnnotation(key, value).error
      ensures outcome.Fail? ==> unchanged(store)
      ensures outcome.Pass? ==>
                store.binaryAnnotations == old(store.binaryAnnotations) + [BuildBinaryAnnotation(key, value).value]
      ensures store.annotations == old(store.annotations)
      ensures store.readable == old(store.readable) && store.data == old(store.data)
      ensures store.rpcName == old(store.rpcName)
    {
      match BuildBinaryAnnotation(key, value)
      case Err(e) =>
        outcome := Fail(e);
      case Ok(annotation) =>
        store.Record(KeyValue(annotation));
        outcome := Pass;
    }

    /** `set_rpc_name`: the span's name becomes `name`, whatever it was. */
    method SetRpcName(name: string)
      modifies store
      ensures store.rpcName == Some(name)
      ensures store.readable == old(store.readable) && store.data == old(store.data)
      ensures store.annotations == old(store.annotations)
      ensures store.binaryAnnotations == old(store.binaryAnnotations)
      ensures BuildSpan().Ok? == old(BuildSpan()).Ok?
      ensures BuildSpan().Ok? ==> BuildSpan().value.name == Some(name)
    {
      store.SetRpcName(name);
    }

    /**
     * `submit_span`: writes the span, then clears the store. The writer's `write` is
     * looked up before the span is built, so a missing writer raises first, whatever the
     * store holds; a span that cannot be built raises next. Either way nothing changes.
     */
    method SubmitSpan() returns (outcome: Outcome<SubmitError>)
      modifies store, writer
      ensures writer == null ==> outcome == Fail(NoWriter)
      ensures writer != null && old(BuildSpan()).Err? ==> outcome == Fail(SpanFailed(old(BuildSpan()).error))
      ensures outcome.Fail? ==> unchanged(store) && (writer != null ==> unchanged(writer))
      ensures outcome.Pass? <==> writer != null && old(BuildSpan()).Ok?
      ensures outcome.Pass? ==> writer.written == old(writer.written) + [old(BuildSpan()).value]
      ensures outcome.Pass? ==> store.Cleared() && store.readable
      ensures outcome.Pass? ==> BuildSpan() == Err(MissingSpanId)
    {
      if writer == null {
        return Fail(NoWriter);
      }
      var span := BuildSpan();
      if span.Err? {
        return Fail(SpanFailed(span.error));
      }
      writer.Write(span.value);
      store.Clear();
      outcome := Pass;
    }

    /**
     * `get_headers_for_downstream_request`: builds the header dict with `None` for the
     * absent ids, adds the parent header only when there is a parent, then deletes every
     * `None` entry. A store that cannot be read gives the empty map.
     */
    method GetHeadersForDownstreamRequest() returns (headers: map<HeaderName, string>)
      ensures headers == DownstreamHeaders(store.Get())
      ensures !store.readable ==> headers == map[]
      ensures store.readable ==>
                && (TraceIdHeader in headers <==> store.data.traceId.Some?)
                && (SpanIdHeader in headers <==> store.data.spanId.Some?)
                && (ParentSpanIdHeader in headers <==> store.data.parentSpanId.Some?)
                && SampledHeader in headers && FlagsHeader in headers
    {
      var snapshot := store.Get();
      if snapshot.Err? {
        return map[];
      }
      var data := snapshot.value;
      var raw: map<HeaderName, Option<string>> := map[
        TraceIdHeader := if data.traceId.Some? then Some(data.traceId.value.hex) else None,
        SpanIdHeader := if data.spanId.Some? then Some(data.spanId.value.hex) else None,
        SampledHeader := Some(BoolToStrTrueFalse(data.sampled)),
        FlagsHeader := Some(BoolToStr10(data.flags))];
      if data.parentSpanId.Some? {
        raw := raw[ParentSpanIdHeader := Some(data.parentSpanId.value.hex)];
      }
      assert raw == HeaderDict(data);
      var kept := raw;
      var pending := raw.Keys;
      while pending != {}
        invariant pending <= raw.Keys && kept.Keys <= raw.Keys
        invariant forall k :: k in kept ==> kept[k] == raw[k]
        invariant forall k :: k in raw ==> (k in kept <==> k in pending || raw[k].Some?)
        decreases pending
      {
        var key :| key in pending;
        if kept[key].None? {
          kept := kept - {key};
        }
        pending := pending - {key};
      }
      assert kept == map k | k in raw && raw[k].Some? :: raw[k];
      headers := map k | k in kept :: kept[k].value;
      assert headers == WithoutNone(raw);
      HeaderDictWithoutNone(data);
      DownstreamHeadersFields(data);
    }
  }
}
