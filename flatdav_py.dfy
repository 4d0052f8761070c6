/** The Python host's handler (FlatDav/__init__.py): the same translation as
    the JavaScript one, except that the parser answers refused requests
    itself with bare 400/405 responses, every storage call raises on a
    service error, and a raised error is answered with the service's own
    status. */
module FlatDavPy {
  import opened Http
  import opened Segments
  import opened DestKey
  import opened Operations
  import opened ObjectStore

  /** The storage client's response dictionary: `ResponseMetadata`'s
      `HTTPStatusCode` and optional `HTTPHeaders`, and `Body`, which only a
      get carries. */
  datatype S3Result = S3Result(status: int, headers: Option<Headers>, body: Option<Bytes>)

  /** How a storage step ends: it returns a response dictionary or raises a
      client error. */
  datatype S3Outcome = Returned(result: S3Result) | Raised(error: ServiceError)

  /** What the parser gives back: an operation, or a response to send as is. */
  datatype ParseOutcome = Parsed(op: Operation) | Answered(response: Response)

  const IncorrectAuth := "Incorrect HTTP Auth\n"

  /** The authorization check: a missing header counts as the empty string,
      and the value must equal the configured `Basic` credential. */
  predicate Authorized(authorization: Option<string>, credential: string)
    ensures Authorized(authorization, credential) <==>
      authorization == Some(credential) || (authorization.None? && credential == "")
  {
    authorization.GetOr("") == credential
  }

  /** The request parser. */
  function ParseOp(req: Request): (r: ParseOutcome)
    ensures req.verb == "GET" ==> r == Parsed(Get(req.filename))
    ensures req.verb == "DELETE" ==> r == Parsed(Delete(req.filename))
    ensures req.verb == "PUT" ==> r == Parsed(Put(req.filename, req.body))
    ensures !Supported(req.verb) ==> r == Answered(Response(405, None, NoBody, false))
    ensures r.Answered? && req.verb == "MOVE" ==> r == Answered(Response(400, None, NoBody, false))
    ensures r.Parsed? && r.op.Move? ==>
      && req.verb == "MOVE"
      && r.op.from == req.filename
      && r.op.to != "" && '/' !in r.op.to
      && req.destination == Some(DropLast(req.url) + "/" + r.op.to)
  {
    if req.verb == "GET" then
      Parsed(Get(req.filename))
    else if req.verb == "DELETE" then
      Parsed(Delete(req.filename))
    else if req.verb == "PUT" then
      Parsed(Put(req.filename, req.body))
    else if req.verb == "MOVE" then
      var movedest := ResolveDestKey(req.destination, req.url);
      if movedest.None? || movedest.value == "" then
        Answered(Response(400, None, NoBody, false))
      else
        Parsed(Move(req.filename, movedest.value))
    else
      Answered(Response(405, None, NoBody, false))
  }

  /** A storage client call's outcome: the response dictionary of an answered
      call (with the payload only for a get), or the raised error. */
  function ClientOutcome(call: Call, r: CallResult): (o: S3Outcome)
    ensures o.Raised? <==> r.Failed?
    ensures r.Failed? ==> o.error == r.error
    ensures r.Done? ==> o.result.status == r.reply.status && o.result.headers == Some(r.reply.headers)
    ensures r.Done? ==> (o.result.body.Some? <==> call.GetCall?)
    ensures r.Done? && call.GetCall? ==> o.result.body.value == r.reply.body
  {
    match r
    case Done(reply) =>
      Returned(S3Result(reply.status, Some(reply.headers), if call.GetCall? then Some(reply.body) else None))
    case Failed(e) => Raised(e)
  }

  /** What `do_s3_op` does: one call for GET, DELETE and PUT, and for MOVE a
      copy followed, only if it succeeded, by a delete of the source; the
      first refused call raises. */
  function S3OpEffect(objects: Objects, op: Operation, fate: Fate, nextFate: Fate): (e: Effect<S3Outcome>)
    ensures fate.Fault? ==> e.value == Raised(fate.error) && e.objects == objects
    ensures !op.Move? ==> e.calls == [CallOf(op)]
    ensures op.Get? ==> e.objects == objects
    ensures op.Get? && fate.Proceed? ==>
      e.value == if op.key in objects
                 then Returned(S3Result(200, Some(fate.headers), Some(objects[op.key])))
                 else Raised(NoSuchKey(fate.headers))
    ensures (op.Put? || op.Delete?) && fate.Proceed? ==>
      e.value.Returned? && e.value.result.headers == Some(fate.headers) && e.value.result.body == None
    ensures op.Put? && fate.Proceed? ==> e.objects == objects[op.key := op.body]
    ensures op.Delete? && fate.Proceed? ==> e.objects == objects - {op.key}
    ensures op.Move? ==>
      e.calls == if fate.Proceed? && op.from in objects
                 then [CopyCall(op.from, op.to), DeleteCall(op.from)]
                 else [CopyCall(op.from, op.to)]
    ensures op.Move? && |e.calls| == 1 ==> e.value.Raised? && e.objects == objects
    ensures op.Move? && |e.calls| == 2 && e.value.Raised? ==>
      nextFate.Fault? && e.value == Raised(nextFate.error) && e.objects == objects[op.to := objects[op.from]]
    ensures op.Move? && e.value.Returned? ==>
      && op.from in objects
      && e.value.result == S3Result(201, None, None)
      && e.objects == objects[op.to := objects[op.from]] - {op.from}
  {
    match op
    case Get(key) =>
      var s := Serve(objects, GetCall(key), fate);
      Effect(ClientOutcome(GetCall(key), s.result), s.objects, [GetCall(key)])
    case Delete(key) =>
      var s := Serve(objects, DeleteCall(key), fate);
      Effect(ClientOutcome(DeleteCall(key), s.result), s.objects, [DeleteCall(key)])
    case Put(key, body) =>
      var s := Serve(objects, PutCall(key, body), fate);
      Effect(ClientOutcome(PutCall(key, body), s.result), s.objects, [PutCall(key, body)])
    case Move(from, to) =>
      var copied := Serve(objects, CopyCall(from, to), fate);
      if copied.result.Failed? then
        Effect(Raised(copied.result.error), copied.objects, [CopyCall(from, to)])
      else
        var deleted := Serve(copied.objects, DeleteCall(from), nextFate);
        var calls := [CopyCall(from, to), DeleteCall(from)];
        if deleted.result.Failed? then Effect(Raised(deleted.result.error), deleted.objects, calls)
        else Effect(Returned(S3Result(201, None, None)), deleted.objects, calls)
  }

  /** The response dictionary as an HTTP response: its status, its headers
      when present, and its payload when it has one. */
  function S3ToHttp(res: S3Result): Response
  {
    Response(res.status, res.headers, if res.body.Some? then Raw(res.body.value) else NoBody, false)
  }

  const ErrorPrefix := "Error from S3: "

  /** The text answered for a raised client error: the fixed prefix, then the
      error code and the message, each ended by a newline. */
  function ErrorText(e: ServiceError): (text: string)
    ensures |text| == |ErrorPrefix| + |e.code| + |e.message| + 2
    ensures text[..|ErrorPrefix|] == ErrorPrefix
    ensures text[|ErrorPrefix|..|ErrorPrefix| + |e.code|] == e.code
    ensures text[|ErrorPrefix| + |e.code|] == '\n'
    ensures text[|ErrorPrefix| + |e.code| + 1..|text| - 1] == e.message
    ensures text[|text| - 1] == '\n'
  {
    ErrorPrefix + e.code + "\n" + e.message + "\n"
  }

  /** The whole request: the response returned and what happened to the bucket. */
  function MainEffect(objects: Objects, req: Request, credential: string, fate: Fate, nextFate: Fate): (e: Effect<Response>)
    ensures !Authorized(req.authorization, credential) ==>
      e == Effect(Response(401, None, Text(IncorrectAuth), false), objects, [])
    ensures Authorized(req.authorization, credential) && ParseOp(req).Answered? ==>
      e == Effect(ParseOp(req).response, objects, [])
    ensures e.calls != [] <==> Authorized(req.authorization, credential) && ParseOp(req).Parsed?
    ensures Authorized(req.authorization, credential) && ParseOp(req).Parsed? && fate.Fault? ==>
      && e.value == Response(fate.error.status, None, Text(ErrorText(fate.error)), false)
      && e.objects == objects
    ensures Authorized(req.authorization, credential) && ParseOp(req).Parsed? && ParseOp(req).op.Move? ==>
      e.value.status == 201 || e.value.body.Text?
  {
    if !Authorized(req.authorization, credential) then
      Effect(Response(401, None, Text(IncorrectAuth), false), objects, [])
    else
      match ParseOp(req)
      case Answered(resp) => Effect(resp, objects, [])
      case Parsed(op) =>
        var run := S3OpEffect(objects, op, fate, nextFate);
        match run.value
        case Returned(res) => Effect(S3ToHttp(res), run.objects, run.calls)
        case Raised(err) => Effect(Response(err.status, None, Text(ErrorText(err)), false), run.objects, run.calls)
  }

  /** An authorized GET of an absent key answers with the service's 404 and
      its NoSuchKey error text, not with a fixed status. */
  lemma GetMissingIs404(objects: Objects, req: Request, credential: string, headers: Headers, nextFate: Fate)
    requires Authorized(req.authorization, credential) && req.verb == "GET" && req.filename !in objects
    ensures var e := MainEffect(objects, req, credential, Proceed(headers), nextFate);
      && e.value == Response(404, None, Text(ErrorText(NoSuchKey(headers))), false)
      && e.calls == [GetCall(req.filename)]
      && e.objects == objects
  {
  }

  /** An authorized GET of a present key answers 200 with the stored payload
      and the service's headers. */
  lemma GetPassesThrough(objects: Objects, req: Request, credential: string, headers: Headers, nextFate: Fate)
    requires Authorized(req.authorization, credential) && req.verb == "GET" && req.filename in objects
    ensures var e := MainEffect(objects, req, credential, Proceed(headers), nextFate);
      && e.calls == [GetCall(req.filename)]
      && e.objects == objects
      && e.value == Response(200, Some(headers), Raw(objects[req.filename]), false)
  {
  }

  /** An authorized MOVE whose two calls both succeed answers 201 with no
      body and no headers, and the payload now sits under the destination key
      alone. */
  lemma MoveRenames(objects: Objects, req: Request, credential: string, copyHeaders: Headers, deleteHeaders: Headers)
    requires Authorized(req.authorization, credential) && ParseOp(req).Parsed? && req.verb == "MOVE"
    requires req.filename in objects
    ensures var e := MainEffect(objects, req, credential, Proceed(copyHeaders), Proceed(deleteHeaders));
      var to := ParseOp(req).op.to;
      && e.calls == [CopyCall(req.filename, to), DeleteCall(req.filename)]
      && e.value == Response(201, None, NoBody, false)
      && e.objects == objects[to := objects[req.filename]] - {req.filename}
      && (req.filename != to ==> to in e.objects && e.objects[to] == objects[req.filename])
  {
  }

  /** An authorized GET, DELETE or PUT issues exactly its one call, and the
      bucket ends as the service left it. An answered call gives the service's
      status and headers, with the payload for a get and no body otherwise; a
      refused one gives the service's status and the error's code and
      message as text. */
  lemma SingleCallAnswers(objects: Objects, req: Request, credential: string, fate: Fate, nextFate: Fate)
    requires Authorized(req.authorization, credential) && ParseOp(req).Parsed? && !ParseOp(req).op.Move?
    ensures var e := MainEffect(objects, req, credential, fate, nextFate);
      var op := ParseOp(req).op;
      var s := Serve(objects, CallOf(op), fate);
      && e.calls == [CallOf(op)]
      && e.objects == s.objects
      && e.value == match s.result
        case Done(reply) => Response(reply.status, Some(reply.headers), if op.Get? then Raw(reply.body) else NoBody, false)
        case Failed(err) => Response(err.status, None, Text(ErrorText(err)), false)
  {
  }

  /** An authorized MOVE answers 201 with no body only when both calls
      succeed. A refused copy or delete answers with that error's status and
      text, and a copy of a missing source with the service's 404 NoSuchKey. */
  lemma MoveAnswers(objects: Objects, req: Request, credential: string, fate: Fate, nextFate: Fate)
    requires Authorized(req.authorization, credential) && ParseOp(req).Parsed? && req.verb == "MOVE"
    ensures var e := MainEffect(objects, req, credential, fate, nextFate);
      e.value ==
        if fate.Fault? then Response(fate.error.status, None, Text(ErrorText(fate.error)), false)
        else if req.filename !in objects then Response(404, None, Text(ErrorText(NoSuchKey(fate.headers))), false)
        else if nextFate.Fault? then Response(nextFate.error.status, None, Text(ErrorText(nextFate.error)), false)
        else Response(201, None, NoBody, false)
  {
  }

  /** Runs `op` against the bucket (`do_s3_op`). */
  method DoS3Op(bucket: Bucket, op: Operation, fate: Fate, nextFate: Fate) returns (r: S3Outcome)
    modifies bucket
    ensures var e := S3OpEffect(old(bucket.objects), op, fate, nextFate);
      r == e.value && bucket.objects == e.objects && bucket.log == old(bucket.log) + e.calls
  {
    match op {
      case Get(key) =>
        var got := bucket.GetObject(key, fate);
        r := ClientOutcome(GetCall(key), got);
      case Delete(key) =>
        var deleted := bucket.DeleteObject(key, fate);
        r := ClientOutcome(DeleteCall(key), deleted);
      case Put(key, body) =>
        var put := bucket.PutObject(key, body, fate);
        r := ClientOutcome(PutCall(key, body), put);
      case Move(from, to) =>
        var copyres := bucket.CopyObject(from, to, fate);
        if copyres.Failed? {
          r := Raised(copyres.error);
          return;
        }
        var deleteres := bucket.DeleteObject(from, nextFate);
        if deleteres.Failed? {
          r := Raised(deleteres.error);
          return;
        }
        r := Returned(S3Result(201, None, None));
    }
  }

  /** The handler (`main`): returns exactly the response `MainEffect`
      describes and leaves the bucket as it says. */
  method HandleMain(bucket: Bucket, req: Request, credential: string, fate: Fate, nextFate: Fate) returns (resp: Response)
    modifies bucket
    ensures var e := MainEffect(old(bucket.objects), req, credential, fate, nextFate);
      resp == e.value && bucket.objects == e.objects && bucket.log == old(bucket.log) + e.calls
  {
    if req.authorization.GetOr("") != credential {
      return Response(401, None, Text(IncorrectAuth), false);
    }
    var op := ParseOp(req);
    if op.Answered? {
      return op.response;
    }
    var s3resp := DoS3Op(bucket, op.op, fate, nextFate);
    match s3resp {
      case Returned(res) =>
        resp := S3ToHttp(res);
      case Raised(e) =>
        resp := Response(e.status, None, Text(ErrorText(e)), false);
    }
  }
}
