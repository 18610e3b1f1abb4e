# l4log WARC archive model

The `l4log` handler of caddy-l4 tees a proxied connection and keeps a copy of
both directions of traffic. When the connection ends, it turns the two
captures into one WARC archive and hands that archive to a storage backend.
This project models the archive data model in `modules/l4log/warc.go`, and
nothing else of the handler:

- `Message`: one captured direction. It holds a timestamp and the raw bytes.
- `warcInfoRecord` and `warcMessageRecord`: the records of an archive. Each
  has a UUID and a timestamp. A message record also has its content, held as
  a Go string.
- `Warc`: the archive. It holds an info record, a request record and a
  response record, plus a target URI and a public IP.
- `CreateWarc`: builds the archive from the request and response messages.
- `ContentLength`: the size of a message record's content.

The model has two modules:

- `GoStrings` (`gostrings.dfy`) covers the Go semantics the archive depends
  on. `byte` is `bv8` and a Go `string` is a byte sequence. The conversion
  `string(b)` is written out as a byte-by-byte copy, and its contract is that
  the copy is the original. `len` of a string is the length of that byte
  sequence.
- `L4Log` (`warc.dfy`) holds the records, `CreateWarc` and
  `WarcMessageRecord.ContentLength`, plus lemmas about them:
  - Projecting the request and response record fields of the in-memory
    `Warc` value gives back exactly the captured messages.
  - The archives `CreateWarc` builds are exactly the well-formed ones.
  - Timestamps go to the right records.
  - The response never reaches the request side, and the request bytes
    never reach the response.
  - The ids reach only the id fields.
  - The records' ids are distinct exactly when the three draws are.

The model follows these decisions:

- `uuid.UUID` is a 16-byte sequence, the same as Go's `[16]byte`.
  `CreateWarc` calls `uuid.New()` three times, and those calls are random.
  The model takes their three results as a `RecordIds` parameter: the first
  goes to the info record, the second to the request record and the third to
  the response record. The model does not assume the three ids differ, since
  nothing in the code enforces that.
- Timestamps, the target URI and the public IP are Dafny `string`s. The code
  never looks inside them. A record's content is a byte sequence, because
  its bytes are what the archive must keep.
- `CreateWarc` in `modules/l4log/warc.go` takes two messages and writes the
  placeholders `"a"` (target URI) and `"b"` (public IP). The call in
  `modules/l4log/log.go` at line 111 passes four arguments, a target URI and
  a node identifier among them, and does not match that signature. The model
  follows `warc.go` as written.
- A nil `Content` slice and an empty one both become the empty sequence. Go
  gives the same result for both: an empty string of length 0.

## Model

| member | source | states |
|---|---|---|
| GoStrings.StringOfBytes | modules/l4log/warc.go:42-43 | `string(b)` copies the captured bytes verbatim: the string has the same length and is equal to the byte slice, with nothing truncated, added or reordered |
| L4Log.WarcMessageRecord.ContentLength | modules/l4log/warc.go:23-25 | a record's content length is the number of bytes in its content, and it is zero exactly when the content is empty |
| L4Log.CreateWarc | modules/l4log/warc.go:40-45 | the archive is well formed: the info record carries the request timestamp, the target URI is "a" and the public IP is "b". Projecting its request and response record fields gives back `req` and `res` unchanged. The three ids go to info, request and response in that order. Each message record's content length equals the byte length of its captured direction |
| L4Log.WellFormedIsImage | modules/l4log/warc.go:40-45 | an archive is well formed if and only if `CreateWarc` builds it from some messages and ids |
| L4Log.CreateWarcInjective | modules/l4log/warc.go:40-45 | two captures that differ in any timestamp, byte or id never give the same archive |
| L4Log.ResponseDoesNotReachRequest | modules/l4log/warc.go:41-42 | the response message affects neither the info record nor the request record |
| L4Log.RequestDoesNotReachResponse | modules/l4log/warc.go:41-43 | the request message never affects the response record, and the request bytes never affect the info record |
| L4Log.IdsReachOnlyIdFields | modules/l4log/warc.go:41-43 | the ids affect only the three records' id fields: building with other ids equals building with these and then swapping the ids |
| L4Log.DistinctIdsIffDistinctDraws | modules/l4log/warc.go:41-43 | the three records carry distinct ids if and only if the three `uuid.New()` draws are distinct |
| L4Log.SilentServerLengths | modules/l4log/warc.go:40-45 | a 5-byte request with an empty response still gives an archive with both records, of lengths 5 and 0 |

## Left out

- `Warc.Render` (`modules/l4log/warc.go:50-56`) is not modelled. It executes
  the embedded template `warc.tmpl`, which is not part of this model, so the
  serialized layout cannot be stated. It also panics through
  `template.Must` and writes to an `io.PipeWriter`.
- The randomness of `uuid.New()` is not modelled. The ids are inputs, and
  nothing is claimed about their uniqueness beyond `DistinctIdsIffDistinctDraws`.
  The model assumes the three draws succeed: `uuid.New()` panics when the
  random source fails, and the model does not represent that panic.
- The round trip proved for `CreateWarc` concerns the in-memory `Warc` value
  only. Reading a stored, serialized archive back needs `Render` and its
  template, so it is not part of this model.
- `Handler.Handle` (`modules/l4log/log.go:69-134`) is not modelled. It is
  goroutine and `io.Pipe` choreography around `io.TeeReader` and
  `io.MultiWriter`, and it reads shared variables without synchronisation.
  A sequential model cannot capture concurrency.
- `nextConn.Read` and `nextConn.Write` (`modules/l4log/log.go:143-153`) are
  not modelled. Both forward the call to the tee'd reader or writer; only
  `Read` also closes the request pipe on `io.EOF`, and `Write` does
  nothing more. Their meaning rests on standard-library pipe semantics.
- `Handler.Provision` and `CaddyModule` are not modelled. They are module
  registration, configuration loading and storage setup.
- The storage call `h.storage.Store` is not modelled: it is an external
  backend. The storage key derived from the info record's UUID is left out
  with it.
- The clock (`time.Now().Format(time.RFC3339)`) and the URL rewriting in
  `Handle` are foreign calls and are not modelled. Timestamps are opaque
  strings that arrive as inputs.
- L4Log.WarcMessageRecord.ContentLength: the model returns an unbounded
  `nat`. Go's `int` is 32 or 64 bits wide depending on the platform, and
  `len` of a string always fits in it, so no wrap-around is lost.
