/**
 * The records `ZipkinApi` builds (the Thrift `Annotation`, `BinaryAnnotation` and
 * `Span`) and the two collaborators it is handed: the request-scoped data store and
 * the span writer. Neither collaborator's code is part of this model; the classes
 * here give them the plain semantics the API relies on: `record` appends, `set_rpc_name`
 * overwrites, `clear` empties, `get` returns the trace context or raises, and `write`
 * takes the span.
 */
module Tracing {
  import opened Wrappers
  import opened Bytes
  import opened AnnotationValues
  import opened Endpoints

  /** A trace or span id object, seen through its two views `get_hex()` and `get_binary()`. */
  datatype Id = Id(hex: string, binary: int)

  /** The trace context the store's `get()` returns. */
  datatype ZipkinData = ZipkinData(
    traceId: Option<Id>,
    spanId: Option<Id>,
    parentSpanId: Option<Id>,
    sampled: bool,
    flags: bool)

  /** The trace context of a store that holds no request. */
  const EMPTY_DATA := ZipkinData(None, None, None, false, false)

  /** A timestamped event: microsecond time, text, the recording endpoint, an optional duration. */
  datatype Annotation = Annotation(timestamp: int, value: seq<Byte>, host: Endpoint, duration: Option<int>)

  /** A typed key/value fact: the encoded value and its type tag (`None` for an unsupported value). */
  datatype BinaryAnnotation = BinaryAnnotation(
    key: string,
    value: seq<Byte>,
    annotationType: Option<AnnotationType>,
    host: Endpoint)

  /** One unit of work: its ids, the RPC name and the annotations collected for it. */
  datatype Span = Span(
    id: int,
    traceId: int,
    parentId: Option<int>,
    name: Option<string>,
    annotations: seq<Annotation>,
    binaryAnnotations: seq<BinaryAnnotation>)

  /** What `store.record` accepts: an annotation or a binary annotation. */
  datatype Recorded = Event(annotation: Annotation) | KeyValue(binaryAnnotation: BinaryAnnotation)

  /** The store's `get()` raised. */
  datatype StoreError = Unreadable

  /** The request-scoped store: the trace context, the RPC name and the annotations recorded so far. */
  class DataStore {
    var readable: bool  // false when the request's state cannot be read, so that `get()` raises
    var data: ZipkinData
    var rpcName: Option<string>
    var annotations: seq<Annotation>
    var binaryAnnotations: seq<BinaryAnnotation>

    constructor ()
      ensures readable && Cleared()
    {
      readable := true;
      data := EMPTY_DATA;
      rpcName := None;
      annotations := [];
      binaryAnnotations := [];
    }

    /** Holds nothing of any request. */
    predicate Cleared()
      reads this
    {
      data == EMPTY_DATA && rpcName.None? && annotations == [] && binaryAnnotations == []
    }

    /** `get()`: the trace context, or the error it raises. */
    function Get(): (r: Result<ZipkinData, StoreError>)
      reads this
      ensures r.Ok? <==> readable
      ensures r.Ok? ==> r.value == data
    {
      if readable then Ok(data) else Err(Unreadable)
    }

    /** `record(annotation)`: appends to the list of its kind. */
    method Record(item: Recorded)
      modifies this
      ensures readable == old(readable) && data == old(data) && rpcName == old(rpcName)
      ensures item.Event? ==> annotations == old(annotations) + [item.annotation]
      ensures item.Event? ==> binaryAnnotations == old(binaryAnnotations)
      ensures item.KeyValue? ==> binaryAnnotations == old(binaryAnnotations) + [item.binaryAnnotation]
      ensures item.KeyValue? ==> annotations == old(annotations)
    {
      match item
      case Event(a) => annotations := annotations + [a];
      case KeyValue(b) => binaryAnnotations := binaryAnnotations + [b];
    }

    /** `set_rpc_name(name)`: the last name set wins. */
    method SetRpcName(name: string)
      modifies this
      ensures rpcName == Some(name)
      ensures readable == old(readable) && data == old(data)
      ensures annotations == old(annotations) && binaryAnnotations == old(binaryAnnotations)
    {
      rpcName := Some(name);
    }

    /** `clear()`: forgets the request. */
    method Clear()
      modifies this
      ensures Cleared() && readable == old(readable)
    {
      data := EMPTY_DATA;
      rpcName := None;
      annotations := [];
      binaryAnnotations := [];
    }
  }

  /** The span writer: the spans handed to `write`, in order. */
  class Writer {
    var written: seq<Span>

    constructor ()
      ensures written == []
    {
      written := [];
    }

    method Write(span: Span)
      modifies this
      ensures written == old(written) + [span]
    {
      written := written + [span];
    }
  }
}
