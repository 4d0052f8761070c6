/** The JavaScript host's handler (FlatDav/index.ts): authenticate, parse the
    request into an operation, run it against the bucket, and write exactly
    one response into `context.res`. */
module FlatDavTs {
  import opened Http
  import opened Segments
  import opened DestKey
  import opened Operations
  import opened ObjectStore

  /** Why a request could not be turned into an operation. */
  datatype ParseFailure = UnsupportedMethod | MalformedDestHeader

  /** The success-or-error value the parser returns. */
  datatype Result<+T, +E> = Ok(value: T) | Err(error: E)

  /** The response-like value the storage layer produces: a raw HTTP answer
      of the service, or the one synthesized for MOVE. */
  datatype ResponseLike = ResponseLike(statusCode: int, body: Body, headers: Option<Headers>)

  /** How running an operation ends: with a response, or with a thrown
      storage error. */
  datatype Completion = Completed(resp: ResponseLike) | Threw(error: ServiceError)

  const IncorrectAuth := "Incorrect HTTP Auth\n"
  const MalformedDest := "Destination header malformed or missing.\n"
  const InternalS3Error := "Internal error with S3.\n"

  const NotAllowedPrefix := "Method not allowed."

  /** The body of the 405 answer, which names the refused method right after
      the fixed prefix. */
  function NotAllowed(verb: string): (text: string)
    ensures |text| == |NotAllowedPrefix| + |verb| + 1
    ensures text[..|NotAllowedPrefix|] == NotAllowedPrefix
    ensures text[|NotAllowedPrefix|..|NotAllowedPrefix| + |verb|] == verb
    ensures text[|text| - 1] == '\n'
  {
    NotAllowedPrefix + verb + "\n"
  }

  /** The authorization check: the header must be present, non-empty and
      equal to the configured `Basic` credential. */
  predicate Authorized(authorization: Option<string>, credential: string)
    ensures Authorized(authorization, credential) <==> credential != "" && authorization == Some(credential)
  {
    !(authorization.None? || authorization.value == "") && authorization.value == credential
  }

  /** The request parser. */
  function ParseOp(req: Request): (r: Result<Operation, ParseFailure>)
    ensures req.verb == "GET" ==> r == Ok(Get(req.filename))
    ensures req.verb == "DELETE" ==> r == Ok(Delete(req.filename))
    ensures req.verb == "PUT" ==> r == Ok(Put(req.filename, req.body))
    ensures r == Err(UnsupportedMethod) <==> !Supported(req.verb)
    ensures r == Err(MalformedDestHeader) ==> req.verb == "MOVE"
    ensures r.Ok? && r.value.Move? ==>
      && req.verb == "MOVE"
      && r.value.from == req.filename
      && r.value.to != "" && '/' !in r.value.to
      && req.destination == Some(DropLast(req.url) + "/" + r.value.to)
  {
    if req.verb == "GET" then
      Ok(Get(req.filename))
    else if req.verb == "DELETE" then
      Ok(Delete(req.filename))
    else if req.verb == "PUT" then
      Ok(Put(req.filename, req.body))
    else if req.verb == "MOVE" then
      var moveDest := ResolveDestKey(req.destination, req.url);
      if moveDest.None? || moveDest.value == "" then
        Err(MalformedDestHeader)
      else
        Ok(Move(req.filename, moveDest.value))
    else
      Err(UnsupportedMethod)
  }

  /** A MOVE parses to `Move(filename, key)` exactly when its Destination
      header is the request's collection followed by the non-empty, '/'-free
      `key`; otherwise it is a malformed destination. */
  lemma ParseMoveExactly(req: Request, key: string)
    requires req.verb == "MOVE"
    ensures ParseOp(req) == Ok(Move(req.filename, key))
        <==> key != "" && '/' !in key && req.destination == Some(DropLast(req.url) + "/" + key)
    ensures ParseOp(req).Err? <==>
      ResolveDestKey(req.destination, req.url).None? || ResolveDestKey(req.destination, req.url) == Some("")
  {
    ResolveExactly(req.destination, req.url, key);
  }

  /** The status a successful operation is meant to answer with: 201 Created
      for MOVE, 200 otherwise. */
  function SuccessCode(op: Operation): (code: int)
    ensures code == 201 <==> op.Move?
    ensures code == 200 <==> !op.Move?
  {
    match op
    case Get(_) => 200
    case Delete(_) => 200
    case Put(_, _) => 200
    case Move(_, _) => 201
  }

  /** The raw HTTP response a storage call settles with, whether the service
      answered it or refused it. */
  function RawHttpResponse(r: CallResult): ResponseLike
  {
    match r
    case Done(reply) => ResponseLike(reply.status, Raw(reply.body), Some(reply.headers))
    case Failed(e) => ResponseLike(e.status, Raw(e.body), Some(e.headers))
  }

  /** The response-like value, copied field by field into a function
      response marked raw. */
  function AwsToFunctionHttpResp(resp: ResponseLike): Response
  {
    Response(resp.statusCode, resp.headers, resp.body, true)
  }

  /** What running `op` does: GET, DELETE and PUT make one call and settle
      with its raw answer, errors included; MOVE copies, then deletes the
      source only if the copy succeeded, and throws on either failure. */
  function OperationEffect(objects: Objects, op: Operation, fate: Fate, nextFate: Fate): (e: Effect<Completion>)
    ensures e.value.Threw? ==> op.Move?
    ensures !op.Move? ==> e.calls == [CallOf(op)]
    ensures op.Get? ==> e.objects == objects
    ensures op.Get? && fate.Proceed? && op.key in objects ==>
      e.value == Completed(ResponseLike(200, Raw(objects[op.key]), Some(fate.headers)))
    ensures !op.Move? && fate.Fault? ==>
      && e.objects == objects
      && e.value == Completed(ResponseLike(fate.error.status, Raw(fate.error.body), Some(fate.error.headers)))
    ensures op.Put? && fate.Proceed? ==> e.objects == objects[op.key := op.body]
    ensures op.Delete? && fate.Proceed? ==> e.objects == objects - {op.key}
    ensures op.Move? ==>
      e.calls == if fate.Proceed? && op.from in objects
                 then [CopyCall(op.from, op.to), DeleteCall(op.from)]
                 else [CopyCall(op.from, op.to)]
    ensures op.Move? && |e.calls| == 1 ==> e.value.Threw? && e.objects == objects
    ensures op.Move? && |e.calls| == 2 && e.value.Threw? ==>
      e.objects == objects[op.to := objects[op.from]]
    ensures op.Move? && e.value.Completed? ==>
      && op.from in objects
      && e.value.resp == ResponseLike(SuccessCode(op), Text(""), None)
      && e.objects == objects[op.to := objects[op.from]] - {op.from}
  {
    match op
    case Get(key) =>
      var s := Serve(objects, GetCall(key), fate);
      Effect(Completed(RawHttpResponse(s.result)), s.objects, [GetCall(key)])
    case Delete(key) =>
      var s := Serve(objects, DeleteCall(key), fate);
      Effect(Completed(RawHttpResponse(s.result)), s.objects, [DeleteCall(key)])
    case Put(key, body) =>
      var s := Serve(objects, PutCall(key, body), fate);
      Effect(Completed(RawHttpResponse(s.result)), s.objects, [PutCall(key, body)])
    case Move(from, to) =>
      var copied := Serve(objects, CopyCall(from, to), fate);
      if copied.result.Failed? then
        Effect(Threw(copied.result.error), copied.objects, [CopyCall(from, to)])
      else
        var deleted := Serve(copied.objects, DeleteCall(from), nextFate);
        var calls := [CopyCall(from, to), DeleteCall(from)];
        if deleted.result.Failed? then Effect(Threw(deleted.result.error), deleted.objects, calls)
        else Effect(Completed(ResponseLike(201, Text(""), None)), deleted.objects, calls)
  }

  /** The whole request: the response written and what happened to the bucket. */
  function TriggerEffect(objects: Objects, req: Request, credential: string, fate: Fate, nextFate: Fate): (e: Effect<Response>)
    ensures !Authorized(req.authorization, credential) ==>
      e == Effect(Response(401, None, Text(IncorrectAuth), false), objects, [])
    ensures Authorized(req.authorization, credential) && !Supported(req.verb) ==>
      e == Effect(Response(405, None, Text(NotAllowed(req.verb)), false), objects, [])
    ensures Authorized(req.authorization, credential) && ParseOp(req) == Err(MalformedDestHeader) ==>
      e == Effect(Response(400, None, Text(MalformedDest), false), objects, [])
    ensures e.calls != [] <==> Authorized(req.authorization, credential) && ParseOp(req).Ok?
    ensures e.value.status == 500 && !e.value.isRaw ==>
      e.value.body == Text(InternalS3Error) && ParseOp(req).Ok? && ParseOp(req).value.Move?
    ensures Authorized(req.authorization, credential) && ParseOp(req).Ok? && !ParseOp(req).value.Move? ==>
      e.value.isRaw
    ensures Authorized(req.authorization, credential) && ParseOp(req).Ok? && ParseOp(req).value.Move? ==>
      e.value in {Response(201, None, Text(""), true), Response(500, None, Text(InternalS3Error), false)}
  {
    if !Authorized(req.authorization, credential) then
      Effect(Response(401, None, Text(IncorrectAuth), false), objects, [])
    else
      match ParseOp(req)
      case Err(UnsupportedMethod) =>
        Effect(Response(405, None, Text(NotAllowed(req.verb)), false), objects, [])
      case Err(MalformedDestHeader) =>
        Effect(Response(400, None, Text(MalformedDest), false), objects, [])
      case Ok(op) =>
        var run := OperationEffect(objects, op, fate, nextFate);
        match run.value
        case Completed(resp) => Effect(AwsToFunctionHttpResp(resp), run.objects, run.calls)
        case Threw(_) => Effect(Response(500, None, Text(InternalS3Error), false), run.objects, run.calls)
  }

  /** An authorized GET answers with the service's reply verbatim: the stored
      payload with status 200 when the key exists, and the service's own
      error answer (a 404 included) otherwise. */
  lemma GetPassesThrough(objects: Objects, req: Request, credential: string, fate: Fate, nextFate: Fate)
    requires Authorized(req.authorization, credential) && req.verb == "GET"
    ensures var e := TriggerEffect(objects, req, credential, fate, nextFate);
      && e.calls == [GetCall(req.filename)]
      && e.objects == objects
      && e.value == match Serve(objects, GetCall(req.filename), fate).result
        case Done(reply) => Response(reply.status, Some(reply.headers), Raw(reply.body), true)
        case Failed(err) => Response(err.status, Some(err.headers), Raw(err.body), true)
  {
  }

  /** An authorized PUT stores its body under the route key and answers with
      the service's reply. */
  lemma PutStores(objects: Objects, req: Request, credential: string, headers: Headers, nextFate: Fate)
    requires Authorized(req.authorization, credential) && req.verb == "PUT"
    ensures var e := TriggerEffect(objects, req, credential, Proceed(headers), nextFate);
      && e.calls == [PutCall(req.filename, req.body)]
      && e.objects == objects[req.filename := req.body]
      && e.value == Response(200, Some(headers), Raw([]), true)
  {
  }

  /** An authorized MOVE whose copy is refused answers 500, issues no delete
      and leaves the bucket as it was. */
  lemma MoveCopyRefused(objects: Objects, req: Request, credential: string, error: ServiceError, nextFate: Fate)
    requires Authorized(req.authorization, credential) && ParseOp(req).Ok? && req.verb == "MOVE"
    ensures var e := TriggerEffect(objects, req, credential, Fault(error), nextFate);
      && e.calls == [CopyCall(req.filename, ParseOp(req).value.to)]
      && e.objects == objects
      && e.value == Response(500, None, Text(InternalS3Error), false)
  {
  }

  /** An authorized MOVE whose two calls both succeed answers 201 with an
      empty body, and the payload now sits under the destination key alone. */
  lemma MoveRenames(objects: Objects, req: Request, credential: string, copyHeaders: Headers, deleteHeaders: Headers)
    requires Authorized(req.authorization, credential) && ParseOp(req).Ok? && req.verb == "MOVE"
    requires req.filename in objects
    ensures var e := TriggerEffect(objects, req, credential, Proceed(copyHeaders), Proceed(deleteHeaders));
      var to := ParseOp(req).value.to;
      && e.calls == [CopyCall(req.filename, to), DeleteCall(req.filename)]
      && e.value == Response(201, None, Text(""), true)
      && e.objects == objects[to := objects[req.filename]] - {req.filename}
      && (req.filename != to ==> to in e.objects && e.objects[to] == objects[req.filename])
  {
  }

  /** An authorized GET, DELETE or PUT issues exactly its one call, and the
      bucket ends as the service left it; whatever the service answers,
      success or error, reaches the client as its status, headers and body,
      marked raw. */
  lemma SingleCallPassesThrough(objects: Objects, req: Request, credential: string, fate: Fate, nextFate: Fate)
    requires Authorized(req.authorization, credential) && ParseOp(req).Ok? && !ParseOp(req).value.Move?
    ensures var e := TriggerEffect(objects, req, credential, fate, nextFate);
      var s := Serve(objects, CallOf(ParseOp(req).value), fate);
      && e.calls == [CallOf(ParseOp(req).value)]
      && e.objects == s.objects
      && e.value == match s.result
        case Done(reply) => Response(reply.status, Some(reply.headers), Raw(reply.body), true)
        case Failed(err) => Response(err.status, Some(err.headers), Raw(err.body), true)
  {
  }

  /** An authorized MOVE answers 201 with an empty raw body exactly when the
      copy succeeds (the service proceeds and the source exists) and then the
      delete succeeds; every other outcome, a missing source or a refused
      delete included, answers the fixed 500. */
  lemma MoveAnswers(objects: Objects, req: Request, credential: string, fate: Fate, nextFate: Fate)
    requires Authorized(req.authorization, credential) && ParseOp(req).Ok? && req.verb == "MOVE"
    ensures var e := TriggerEffect(objects, req, credential, fate, nextFate);
      e.value == if fate.Proceed? && req.filename in objects && nextFate.Proceed?
                 then Response(201, None, Text(""), true)
                 else Response(500, None, Text(InternalS3Error), false)
  {
  }

  /** The function host's context: the response slot the handler writes. */
  class Context {
    var res: Option<Response>
    /** How many times `res` has been written. */
    ghost var writes: nat

    constructor ()
      ensures res == None && writes == 0
    {
      res := None;
      writes := 0;
    }

    method SetRes(r: Response)
      modifies this
      ensures res == Some(r) && writes == old(writes) + 1
    {
      res := Some(r);
      writes := writes + 1;
    }
  }

  /** Runs `op` against the bucket (`performS3Operation`). */
  method PerformS3Operation(bucket: Bucket, op: Operation, fate: Fate, nextFate: Fate) returns (r: Completion)
    modifies bucket
    ensures var e := OperationEffect(old(bucket.objects), op, fate, nextFate);
      r == e.value && bucket.objects == e.objects && bucket.log == old(bucket.log) + e.calls
  {
    match op {
      case Get(key) =>
        var got := bucket.GetObject(key, fate);
        r := Completed(RawHttpResponse(got));
      case Delete(key) =>
        var deleted := bucket.DeleteObject(key, fate);
        r := Completed(RawHttpResponse(deleted));
      case Put(key, body) =>
        var put := bucket.PutObject(key, body, fate);
        r := Completed(RawHttpResponse(put));
      case Move(from, to) =>
        var copyResult := bucket.CopyObject(from, to, fate);
        if copyResult.Failed? {
          r := Threw(copyResult.error);
          return;
        }
        var deleteResult := bucket.DeleteObject(from, nextFate);
        if deleteResult.Failed? {
          r := Threw(deleteResult.error);
          return;
        }
        r := Completed(ResponseLike(201, Text(""), None));
    }
  }

  /** The handler (`httpTrigger`): every path writes `context.res` exactly
      once. */
  method HttpTrigger(context: Context, bucket: Bucket, req: Request, credential: string, fate: Fate, nextFate: Fate)
    modifies context, bucket
    ensures var e := TriggerEffect(old(bucket.objects), req, credential, fate, nextFate);
      && context.res == Some(e.value)
      && context.writes == old(context.writes) + 1
      && bucket.objects == e.objects
      && bucket.log == old(bucket.log) + e.calls
  {
    if req.authorization.None? || req.authorization.value == "" || req.authorization.value != credential {
      context.SetRes(Response(401, None, Text(IncorrectAuth), false));
      return;
    }
    var parseres := ParseOp(req);
    if parseres.Err? {
      match parseres.error {
        case UnsupportedMethod =>
          context.SetRes(Response(405, None, Text(NotAllowed(req.verb)), false));
          return;
        case MalformedDestHeader =>
          context.SetRes(Response(400, None, Text(MalformedDest), false));
          return;
      }
    }
    var op := parseres.value;
    var s3resp := PerformS3Operation(bucket, op, fate, nextFate);
    match s3resp {
      case Completed(resp) =>
        context.SetRes(AwsToFunctionHttpResp(resp));
      case Threw(_) =>
        context.SetRes(Response(500, None, Text(InternalS3Error), false));
    }
  }
}
