# FlatDav in Dafny

FlatDav is an HTTP function that lets WebDAV clients read, write, delete and
rename objects in a flat object-storage bucket. It handles GET, PUT, DELETE
and MOVE. The repository has this logic twice, once for the JavaScript host
(`FlatDav/index.ts`) and once for the Python host (`FlatDav/__init__.py`).
Each version does four things in order:

1. It checks the `Authorization` header against a fixed `Basic` credential
   (section 2 of RFC 7617).
2. It parses the request into an operation: `Get`, `Delete`, `Put` or `Move`.
3. It runs that operation against the bucket. A MOVE is a copy followed by a
   delete of the source.
4. It turns the storage answer into the HTTP response.

For MOVE, the target key comes from the `Destination` header (section 10.3
of RFC 4918). The resolver takes the header's last `/`-segment. It accepts
that segment only if the header equals everything before the request URL's
last `/`, then `/`, then the segment. For a URL without `/` that prefix is
empty, so the header must be `/` followed by the segment.

The model is split into these modules:

- `Http`: requests, responses, bodies and headers.
- `Segments`: `split("/")` and `join("/")` on strings, with their round-trip
  lemmas.
- `DestKey`: the destination resolver, which both versions share.
- `Operations`: the operation type.
- `ObjectStore`: the bucket, a class holding a `map` from key to bytes and a
  log of every backend call. Each call gets a `Fate` argument: the service
  either carries the call out or refuses it with an error.
- `FlatDavTs` and `FlatDavPy`: the two handlers. Each has pure functions
  describing what a request does (`OperationEffect`/`TriggerEffect`,
  `S3OpEffect`/`MainEffect`), and methods proved against them.
  `PerformS3Operation` and `HttpTrigger` mirror the JavaScript code.
  `DoS3Op` and `HandleMain` mirror the Python code. `HttpTrigger` writes
  `context.res`, and a ghost counter shows it writes exactly once.
- `Agreement`: what the two versions share and where they differ.

Two behaviours of the code are worth stating plainly:

- The JavaScript GET, DELETE and PUT never throw. `rawS3ResponsePromise`
  settles with the raw HTTP answer, errors included, so a 404 from the
  service reaches the client unchanged. Only a failed MOVE becomes a 500,
  as the comment at `FlatDav/index.ts:226-229` says: other calls pass their
  errors along, MOVE lets the client throw.
- Both parsers treat an empty resolved key as a malformed destination
  (`!moveDest` / `not movedest`). So a MOVE fails exactly when the resolver
  gives nothing or gives `""`.

In the model, a copy of an object onto its own key succeeds. So a MOVE whose
destination equals its source deletes the object
(`FlatDavTs.MoveRenames`). A real service may refuse such a copy. The model
takes no position on which services do.

## Model

| member | source | states |
|---|---|---|
| `Segments.Split` | FlatDav/index.ts:155 | splitting on `/` gives at least one segment, no segment contains `/`, and joining the segments with `/` gives the input back |
| `Segments.SplitJoin` | FlatDav/__init__.py:75 | splitting the `/`-join of one or more `/`-free segments gives those segments back |
| `Segments.SplitAtLastSlash` | FlatDav/index.ts:159-160 | a string with a `/` is its all-but-last-segment part, `/`, and its last segment; without a `/`, the dropped part is empty and the last segment is the whole string |
| `Segments.LastOfSlashed` | FlatDav/index.ts:155-161 | for a `/`-free `k`, the last segment of `a + "/" + k` is `k` and the part before it is `a` |
| `DestKey.ResolveDestKey` | FlatDav/index.ts:147-170 | an absent or empty header gives no key; a key it returns has no `/`, and the header equals the request URL minus its last segment, then `/`, then the key |
| `DestKey.ResolveComplete` | FlatDav/index.ts:159-169 | every `/`-free key in the request's collection is accepted and resolves to itself |
| `DestKey.ResolveExactly` | FlatDav/__init__.py:69-85 | the Python resolver, which is the same algorithm: `Some(k)` is returned iff `k` is `/`-free and the header is `base + "/" + k` (both directions) |
| `DestKey.ResolveSameCollection` | FlatDav/index.ts:154-169 | a header is accepted iff it contains `/` and has the same part before its last `/` as the request URL, so a MOVE only renames within one collection |
| `DestKey.ResolveNeedsSlash` | FlatDav/index.ts:161 | a header with no `/` never resolves |
| `DestKey.ResolveTrailingSlash` | FlatDav/index.ts:100 | a header that is the collection plus `/` resolves to the empty key, which the parsers refuse |
| `DestKey.ResolveExamples` | FlatDav/index.ts:155-169 | `/c/xyz.txt` against `/c/abc.txt` gives `xyz.txt`; `/other/xyz.txt` gives nothing |
| `FlatDavTs.NotAllowed` | FlatDav/index.ts:44 | the 405 body is the fixed prefix, then the refused method name, then a newline |
| `FlatDavTs.Authorized` | FlatDav/index.ts:28-31 | a request passes iff its Authorization header is present, non-empty and equal to the credential |
| `FlatDavTs.ParseOp` | FlatDav/index.ts:78-111 | GET, DELETE and PUT become their operation on `params.filename` (PUT with the body); exactly the unsupported methods give `UnsupportedMethod`; only MOVE gives `MalformedDestHeader`; a parsed `Move` goes from the route key to a non-empty, `/`-free key in the request's collection |
| `FlatDavTs.ParseMoveExactly` | FlatDav/index.ts:94-107 | a MOVE parses to `Move(filename, k)` iff `k` is non-empty and `/`-free and the header is the collection plus `/` plus `k`; it fails iff the resolver gives nothing or `""` |
| `FlatDavTs.SuccessCode` | FlatDav/index.ts:113-125 | 201 exactly for MOVE, 200 exactly for GET, DELETE and PUT |
| `Operations.CallOf` | FlatDav/index.ts:207-224 | GET, DELETE and PUT each issue the call of their own kind on their key, PUT carrying its body |
| `FlatDavTs.OperationEffect` | FlatDav/index.ts:204-247 | GET, DELETE and PUT make exactly their one call (`CallOf`) and never throw (an error answer is passed on as a response); MOVE issues a copy, then a delete of the source only if the copy succeeded; a refused copy throws with the bucket unchanged; a refused delete throws with the copy kept; success gives status `SuccessCode(op)`, an empty body, and the bucket with the payload moved from `from` to `to` |
| `FlatDavTs.TriggerEffect` | FlatDav/index.ts:22-71 | a missing, empty or wrong credential gives 401 "Incorrect HTTP Auth\n" with no storage call; an unsupported method gives 405 with its name in the body; a malformed destination gives 400; storage is called iff the request is authorized and parses; a non-raw 500 only comes from a MOVE; other operations' answers are marked raw; a parsed MOVE answers either the raw 201 or the fixed 500 |
| `FlatDavTs.GetPassesThrough` | FlatDav/index.ts:195-211 | an authorized GET makes one get call, leaves the bucket unchanged, and answers with the service's status, headers and body, errors included, marked raw |
| `FlatDavTs.SingleCallPassesThrough` | FlatDav/index.ts:195-224 | `AwsToFunctionHttpResp` of what `rawS3ResponsePromise` settles with (`RawHttpResponse`): an authorized GET, DELETE or PUT issues its one call, the bucket ends as the service left it, and the client gets the service's status, headers and body, success or error, marked raw |
| `FlatDavTs.MoveAnswers` | FlatDav/index.ts:56-70 | an authorized MOVE answers 201 with an empty raw body iff the copy proceeds on an existing source and the delete proceeds; otherwise (refused copy, missing source, refused delete) it answers the fixed 500 |
| `FlatDavTs.PutStores` | FlatDav/index.ts:218-224 | an authorized PUT that the service accepts stores the body under the route key and answers with the service's reply |
| `FlatDavTs.MoveCopyRefused` | FlatDav/index.ts:62-69 | an authorized MOVE whose copy is refused issues no delete, changes nothing, and answers 500 "Internal error with S3.\n" |
| `FlatDavTs.MoveRenames` | FlatDav/index.ts:225-242 | an authorized MOVE whose copy and delete both succeed issues them in that order and answers 201 with an empty raw body; the source key is gone, the destination holds the payload when the keys differ, and no other key changes |
| `FlatDavTs.Context.SetRes` | FlatDav/index.ts:32 | writing the response slot sets it and counts one more write |
| `FlatDavTs.PerformS3Operation` | FlatDav/index.ts:204-247 | the method's result, the new bucket contents and the appended calls are exactly those `OperationEffect` gives |
| `FlatDavTs.HttpTrigger` | FlatDav/index.ts:22-71 | `context.res` ends as the response `TriggerEffect` gives and is written exactly once on every path; the bucket and its call log change as `TriggerEffect` says |
| `FlatDavPy.ParseOp` | FlatDav/__init__.py:45-66 | GET, DELETE and PUT become their operation on `route_params["filename"]` (PUT with the body); an unsupported method gives a bare 405 response; a refused MOVE gives a bare 400; a parsed `Move` goes to a non-empty, `/`-free key in the request's collection |
| `FlatDavPy.Authorized` | FlatDav/__init__.py:26 | a request passes iff its Authorization header equals the credential, a missing header counting as `""` |
| `FlatDavPy.ClientOutcome` | FlatDav/__init__.py:88-94 | a client call raises exactly when the service refuses it, with that error; an answered call returns the status and headers, and a payload iff it is a get |
| `FlatDavPy.S3OpEffect` | FlatDav/__init__.py:88-103 | GET, DELETE and PUT make exactly their one call (`CallOf`); a refused first call raises with the bucket unchanged; a get returns status, headers and the stored payload, or raises NoSuchKey; put and delete return no payload and apply their change; MOVE issues copy, then delete only after a successful copy; success returns a 201 result with no body and no headers, with the payload moved |
| `FlatDavPy.MainEffect` | FlatDav/__init__.py:24-42 | a wrong or missing credential gives 401 with no storage call; a response from the parser is returned unchanged with no storage call; storage is called iff the request is authorized and parses; a refused call answers with the service's own status and the text "Error from S3: code\nmessage\n" |
| `FlatDavPy.ErrorText` | FlatDav/__init__.py:40 | the error text is "Error from S3: ", the error code, a newline, the message and a newline |
| `FlatDavPy.SingleCallAnswers` | FlatDav/__init__.py:106-112 | `s3_to_http` of the call's outcome, or the error answer: an authorized GET, DELETE or PUT issues its one call, the bucket ends as the service left it; an answered call gives the service's status and headers, with the payload for a get and no body otherwise; a refused one gives the error's status and text |
| `FlatDavPy.MoveAnswers` | FlatDav/__init__.py:32-42 | an authorized MOVE answers 201 with no body iff both calls succeed; a refused copy or delete answers that error's status and text; a copy of a missing source answers 404 NoSuchKey |
| `FlatDavPy.GetMissingIs404` | FlatDav/__init__.py:35-42 | an authorized GET of an absent key answers 404 with the NoSuchKey error text, not a fixed 500 |
| `FlatDavPy.GetPassesThrough` | FlatDav/__init__.py:106-112 | an authorized GET of a present key answers with the service's status and headers and the stored payload |
| `FlatDavPy.MoveRenames` | FlatDav/__init__.py:95-101 | an authorized MOVE whose two calls succeed issues copy then delete and answers 201 with no body and no headers; the source key is removed, the destination holds its payload when the keys differ, and no other key changes |
| `FlatDavPy.DoS3Op` | FlatDav/__init__.py:88-103 | the method's result, the new bucket contents and the appended calls are exactly those `S3OpEffect` gives |
| `FlatDavPy.HandleMain` | FlatDav/__init__.py:24-42 | the returned response, the new bucket contents and the appended calls are exactly those `MainEffect` gives |
| `ObjectStore.Serve` | FlatDav/index.ts:208-238 | a refused call changes nothing; a get changes nothing and an answered get returns the stored payload; an answered put, delete or copy changes exactly its target key as the call says; without an injected fault only a get or copy of a missing key fails, with NoSuchKey |
| `ObjectStore.MoveEffect` | FlatDav/__init__.py:95-99 | after copy then delete, the source key is gone, the destination holds the source's payload when the keys differ, and every other key is unchanged |
| `ObjectStore.Bucket.constructor` | FlatDav/index.ts:7-13 | a bucket starts with the given contents and an empty call log |
| `ObjectStore.Bucket.GetObject` | FlatDav/__init__.py:90 | the get is logged and answered as `Serve` says |
| `ObjectStore.Bucket.PutObject` | FlatDav/__init__.py:94 | the put is logged, and the answer and new contents are as `Serve` says |
| `ObjectStore.Bucket.DeleteObject` | FlatDav/__init__.py:92 | the delete is logged, and the answer and new contents are as `Serve` says |
| `ObjectStore.Bucket.CopyObject` | FlatDav/__init__.py:96-98 | the copy is logged, and the answer and new contents are as `Serve` says |
| `Agreement.AuthorizationAgrees` | FlatDav/__init__.py:26 | for any non-empty credential, the Python check (missing header read as `""`) and the JavaScript check (missing or empty header refused) let exactly the same requests through |
| `Agreement.AuthorizationPartsOnEmptyCredential` | FlatDav/index.ts:28-31 | with an empty credential the two checks differ on a missing header |
| `Agreement.ParseAgrees` | FlatDav/__init__.py:56-66 | the Python parser is the JavaScript parser with `UnsupportedMethod` answered as a bare 405 and `MalformedDestHeader` as a bare 400 |
| `Agreement.SameStorageEffect` | FlatDav/__init__.py:32-34 | both versions issue the same backend calls and leave the bucket in the same state, for every request and every service behaviour |
| `Agreement.RefusedCopyAnswers` | FlatDav/index.ts:225-235 | when the service refuses a MOVE's copy, the JavaScript version answers 500 and the Python version answers with the service's own status and error text |
| `Http.Option.GetOr` | FlatDav/__init__.py:26 | `headers.get(name, default)`: the value when present, the default otherwise |

## Left out

- Client and credential setup (storage client construction, environment
  variables, base64 encoding of the credential): the credential is a string
  parameter compared by equality.
- The debug writes of the PUT body to `PUTFILEBODY` and `PUTFILERAWBODY`:
  file I/O with no effect on the response when the write succeeds.
- A failing debug write: `fs.writeFileSync` runs synchronously inside
  `parseOp` (`FlatDav/index.ts:87-88`), before the `try` at
  `FlatDav/index.ts:56`. If it throws (an unwritable working directory, a
  body that is neither a string nor a buffer), the JavaScript handler
  rejects before any storage call and writes no response. The model treats
  the file system as always writable, so every authorized, parsed PUT
  reaches the bucket.
- Logging (`context.log`, `console.log`, `logging.info`), including the
  diagnostic on a destination mismatch.
- Asynchrony: the event wiring of `rawS3ResponsePromise`, `.promise()` and
  `await`. Calls are sequential steps. What `rawS3ResponsePromise` settles
  with is kept as `FlatDavTs.RawHttpResponse`.
- Failures without an HTTP answer (network faults, timeouts). Only error
  answers of the service are modelled. In the Python version such a fault
  is not a `ClientError` and would escape `main`.
- The service's own behaviour is reduced to the bucket map and the `Fate`
  oracle. Reply statuses are fixed at 200 (get, put, copy) and 204 (delete).
  Non-get replies have empty bodies. A missing key gives the NoSuchKey error
  with an empty error document. Other response details are not modelled.
- `encodeURIComponent` and the bucket-name prefix on the copy source: a copy
  call carries the plain source key.
- The JavaScript `req.body` may be a parsed value. The model takes the body
  as the raw bytes the Python `get_body()` returns.
- `FlatDavTs.SuccessCode` is modelled, but the source never calls it. The
  model links it to the MOVE response only (`FlatDavTs.OperationEffect`).
- The route key `filename` is taken as given. Neither version checks that it
  is non-empty or `/`-free, and a missing route parameter is not modelled.
- Header-name case folding by the hosts: the two headers the handler reads
  arrive already looked up.
