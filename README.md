# django-zipkin `ZipkinApi`, modelled in Dafny

This project models the `ZipkinApi` class of django-zipkin (`django_zipkin/api.py`), the
client side of Zipkin tracing for a Django application. The class does four things:

- It encodes binary-annotation values. `_binary_annotation_type` tags a dynamically typed
  value by an ordered chain of `isinstance` tests: text, then float, then bool, then
  integer. `_format_binary_annotation_value` turns the value into bytes under that tag.
  STRING gives UTF-8 text, BOOL the one-character flag `'1'`/`'0'`, I16/I32/I64 fixed-width
  big-endian two's complement, and any other tag a diagnostic string.
- It records annotations, key/value annotations and the RPC name into a request-scoped
  store, each stamped with the process's `Endpoint`.
- It assembles the `Span` from the store and submits it: write it, then clear the store.
- It derives the headers that carry the trace context to a downstream call. On failure it
  falls back to the empty map.

Modules, one per component:

- `Wrappers` (`wrappers.dfy`): `Option`, `Result` and `Outcome`. These stand in for
  Python's `None` and for raised exceptions.
- `Bytes` (`bytes.dfy`): big-endian and signed two's-complement packing, as `struct` does
  with the `'!'` prefix.
- `Text` (`text.dfy`): UTF-8 encoding and decoding, decimal digits and splitting.
- `AnnotationValues` (`annotation_values.dfy`): the dynamic `Value`, the Thrift
  `AnnotationType`, classification and formatting.
- `Endpoints` (`endpoint.dfy`): `_ipv4_to_long`, `_get_my_ip` and the endpoint built in
  `__init__`.
- `Tracing` (`store.dfy`): the Thrift records, plus stand-ins for the two collaborators.
  `DataStore` is the request-scoped store: `record` appends, `set_rpc_name` overwrites,
  `clear` empties, and `get` returns the trace context or raises. `Writer` is the span writer.
- `Api` (`zipkin_api.dfy`): the `ZipkinApi` class and the header contract.

A Python value is the datatype `Value`. `Str` is a Python 2 `str`, `Unicode` a `unicode`,
and `Int` both `int` and `long`. A `Float` is given by its IEEE-754 bit pattern and its
`str()` text. `Other` is any other object, given by its `str()` text and its truth value.
`IsIntegral` is true of bools too, because `bool` subclasses `int`. That is why the order
of the tests decides that a bool is tagged BOOL and not I64.

Two behaviours of the code are kept as written:

- An unsupported value is not an error. It gets no tag (`None`), and formatting it yields
  the diagnostic string.
- A span without a parent carries `parent_id = None`.

## Model

| member | source | states |
|---|---|---|
| `Bytes.PackSigned` | django_zipkin/api.py:130-131 | packing gives exactly `width` bytes, and the top byte is at least 128 exactly for negative values (two's complement, most significant byte first) |
| `Bytes.UnpackSigned` | django_zipkin/api.py:137 | unpacking a non-empty byte string gives a value in that width's signed range |
| `Bytes.FromBigEndian` | django_zipkin/api.py:137 | the unsigned value of `n` big-endian bytes is below 256^n |
| `Bytes.FromToBigEndian` | django_zipkin/api.py:130-131 | reading back the big-endian bytes of a number that fits the width gives the number |
| `Bytes.ToFromBigEndian` | django_zipkin/api.py:137 | every byte string is the big-endian form of the number it denotes |
| `Bytes.UnpackPackSigned` | django_zipkin/api.py:130-131 | unpacking a packed in-range integer gives it back |
| `Bytes.PackUnpackSigned` | django_zipkin/api.py:135-137 | packing an unpacked byte string gives it back |
| `Text.Utf8Encode` | django_zipkin/api.py:122-123 | the UTF-8 encoding takes between one and four bytes per character |
| `Text.Utf8RoundTrip` | django_zipkin/api.py:122-123 | UTF-8 decoding inverts `unicode.encode('utf-8')` on every string |
| `Text.ParseDecimalDigits` | django_zipkin/api.py:136 | parsing the decimal digits of a number gives the number back |
| `Text.IntText` | django_zipkin/api.py:124 | `str` of an integer is ASCII, starts with `-` exactly for negatives, and the digits after the sign are decimal digits that denote the integer's magnitude |
| `AnnotationValues.TextBytes` | django_zipkin/api.py:121-124 | a byte string's text is itself, and a unicode's bytes decode as UTF-8 back to the text |
| `AnnotationValues.BinaryAnnotationType` | django_zipkin/api.py:101-111 | str and unicode give STRING, float DOUBLE, bool BOOL (never I64), int and long I64; nothing is ever I16, I32 or BYTES; any other value gives `None` |
| `AnnotationValues.PackNumber` | django_zipkin/api.py:115-131 | a numeric format packs to exactly its width (2, 4 or 8 bytes), and an integer packs exactly when it is in the width's signed range |
| `AnnotationValues.Diagnostic` | django_zipkin/api.py:132 | the diagnostic starts with `zipkin_cat failed to serialize type ` and ends with the value's text |
| `AnnotationValues.FormatBinaryAnnotationValue` | django_zipkin/api.py:113-132 | STRING gives the value's text; BOOL gives `'1'` for a truthy value and `'0'` otherwise; a numeric tag gives its width or the `struct.pack` error; an integer packs exactly when in range; `None` and BYTES give the diagnostic string, never an error |
| `AnnotationValues.IntegerFormatRoundTrip` | django_zipkin/api.py:130-131 | an integer tagged I16/I32/I64 packs exactly when it fits the width, and the bytes unpack to the same integer |
| `AnnotationValues.IntegerFormatOnto` | django_zipkin/api.py:130-131 | every byte string of an integer format's width is the packing of some integer |
| `AnnotationValues.BoolFormat` | django_zipkin/api.py:125-129 | a bool, classified and formatted, becomes the character `'1'` or `'0'` |
| `AnnotationValues.ClassifyThenFormat` | django_zipkin/api.py:96-98 | classify then format: text round-trips through UTF-8, a float gives 8 bytes, a bool 1 byte, an integer 8 bytes that unpack to it (or the range error), any other value the diagnostic |
| `AnnotationValues.FortyTwoIsI64` | django_zipkin/api.py:109-111 | 42 is tagged I64 although it fits 16 bits, and packs to `00 00 00 00 00 00 00 2a` |
| `Endpoints.ParseDottedQuad` | django_zipkin/api.py:136 | a parsed address has exactly four bytes |
| `Endpoints.ParseDottedQuadRoundTrip` | django_zipkin/api.py:136 | every printed dotted quad parses back to its four bytes |
| `Endpoints.Ipv4ToLong` | django_zipkin/api.py:134-137 | the result exists exactly when the address parses; it lies in [-2^31, 2^31) and packs back, as a signed 32-bit big-endian value, to the address bytes |
| `Endpoints.Ipv4ToLongValue` | django_zipkin/api.py:135-137 | `a.b.c.d` maps to a·2^24 + b·2^16 + c·2^8 + d, less 2^32 when a ≥ 128 |
| `Endpoints.GetMyIp` | django_zipkin/api.py:74-78 | a failed host lookup gives `None` and does not raise; otherwise the result is the converted address |
| `Endpoints.LocalEndpoint` | django_zipkin/api.py:17-23 | the endpoint has no port; its address is `None` when the lookup fails; its service name is the given one unless that is `None` or empty, in which case the configured default |
| `Api.BoolToStrTrueFalse` | django_zipkin/api.py:64-67 | the result is `'true'` or `'false'`, and `'true'` exactly for a true flag |
| `Api.BoolToStr10` | django_zipkin/api.py:69-72 | the result is `'1'` or `'0'`, and `'1'` exactly for a true flag |
| `Api.WithoutNone` | django_zipkin/api.py:56-58 | a key survives exactly when its value is not `None`, and keeps its value |
| `Api.HeaderDictWithoutNone` | django_zipkin/api.py:48-58 | the header dict with its `None` entries deleted is exactly one header per populated field of the trace context |
| `Api.DownstreamHeadersFields` | django_zipkin/api.py:48-59 | the trace-id, span-id and parent-span-id headers are present exactly when the id is, with its hex value; sampled is always present, `'true'` exactly when sampled; flags is always present, `'1'` exactly when set |
| `Api.RootSpanHeaders` | django_zipkin/api.py:48-59 | trace abc123, span def456, sampled, not debug and no parent give exactly those four headers, with no parent header |
| `Api.ZipkinApi.constructor` | django_zipkin/api.py:17-24 | keeps the store and the writer, and resolves the endpoint once: no port, and no address when the lookup fails |
| `Api.ZipkinApi.BuildAnnotation` | django_zipkin/api.py:91-94 | the annotation carries this process's endpoint, the given time and duration, and the value's text, with unicode as UTF-8 that decodes back |
| `Api.ZipkinApi.BuildBinaryAnnotation` | django_zipkin/api.py:96-99 | the annotation carries the key, the endpoint, the classified tag and the bytes the formatter gives for that tag; only an integer outside 64 bits fails; an integer gives 8 bytes that unpack to it; a bool gives `'1'`/`'0'`; an unsupported value gets tag `None` |
| `Api.ZipkinApi.BuildSpan` | django_zipkin/api.py:80-89 | fails when the store is unreadable, or the span id or trace id is missing (span id first); otherwise the ids are the binary views, `parent_id` is `None` exactly when there is no parent, and name and annotation lists are the store's |
| `Api.ZipkinApi.RecordEvent` | django_zipkin/api.py:26-27 | appends one annotation and changes nothing else; the next span's annotations gain it at the end |
| `Api.ZipkinApi.RecordKeyValue` | django_zipkin/api.py:29-30 | appends one binary annotation, or fails with the packing error and leaves the store unchanged |
| `Api.ZipkinApi.SetRpcName` | django_zipkin/api.py:32-33 | overwrites the RPC name, changes nothing else, and the next span carries the new name |
| `Api.ZipkinApi.SubmitSpan` | django_zipkin/api.py:41-43 | with no writer it fails with the writer error before the span is built, whatever the store holds; otherwise a span that cannot be built fails with its cause; in both cases nothing changes; on success the span is written and the store cleared, so a second submit fails |
| `Api.ZipkinApi.GetHeadersForDownstreamRequest` | django_zipkin/api.py:45-62 | deleting the `None` entries in any order leaves exactly one header per populated field, with sampled and flags always present; an unreadable store gives the empty map |

## Left out

- `build_log_message` (api.py:35-39) is not modelled. It is Thrift binary serialisation plus base64, done by foreign libraries.
- The host name lookup (`socket.gethostname`, `socket.gethostbyname`) is a parameter: the address text, or `None` when the lookup raised.
- `socket.inet_aton` accepts hexadecimal, octal and shortened forms. Only the strict four-decimal-octet form is modelled; anything else fails like an `inet_aton` error.
- `time.time() * 1000 * 1000` in `_build_annotation` is a floating-point clock reading. The timestamp is an opaque integer parameter.
- DOUBLE: a float's bytes are the big-endian form of a given IEEE-754 bit pattern. Float arithmetic and the `str()` text of a float are not modelled; the text is given with the value.
- PackNumber: Python 2 coerces a float packed under an integer format, and an integer or bool packed under DOUBLE. Both coercions give `ConversionLeftOut` instead of bytes.
- PackNumber: objects with `__int__`, `__index__` or `__float__` are treated as non-numeric.
- Diagnostic: with a `unicode` value, Python 2's `%` returns a unicode object. It is modelled as that object's UTF-8 bytes.
- Python 2 `unicode` strings may hold lone surrogates. Dafny characters are Unicode scalar values, so such strings are not modelled.
- The `data_store` implementation, the `writer`, the `constants` header names and the id objects' `get_hex`/`get_binary` are not part of this model. `DataStore` and `Writer` are stand-ins with plain append, overwrite and clear behaviour. Header names are a datatype, so they are distinct. An id is the pair of its hex and binary views.
- Only one failure of the store is modelled: `get()` raising, as `readable == false`. Other exceptions inside the header builder (for example from `get_hex`), exceptions from `record` or `write`, and the logging of the caught exception are not modelled.
- The fallback `store or default_store` and the module-level singleton `api` (api.py:140) are not modelled. A store is always passed in.
