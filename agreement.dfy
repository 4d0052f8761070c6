/** How the two hosts' handlers relate: they accept the same requests, parse
    them to the same operations and do the same things to the bucket; they
    differ only in the responses they write. */
module Agreement {
  import opened Http
  import opened ObjectStore
  import Ts = FlatDavTs
  import Py = FlatDavPy

  /** With any non-empty credential (the configured one always starts with
      `Basic `), both hosts let the same requests through. */
  lemma AuthorizationAgrees(authorization: Option<string>, credential: string)
    requires credential != ""
    ensures Ts.Authorized(authorization, credential) <==> Py.Authorized(authorization, credential)
  {
  }

  /** With an empty credential the two checks part: an absent header passes
      the Python check and fails the JavaScript one. */
  lemma AuthorizationPartsOnEmptyCredential()
    ensures Py.Authorized(None, "") && !Ts.Authorized(None, "")
  {
  }

  /** The Python parser is the JavaScript one with its two failures answered
      as bare 405 and 400 responses. */
  lemma ParseAgrees(req: Request)
    ensures Ts.ParseOp(req).Ok? ==> Py.ParseOp(req) == Py.Parsed(Ts.ParseOp(req).value)
    ensures Ts.ParseOp(req) == Ts.Err(Ts.UnsupportedMethod) ==>
      Py.ParseOp(req) == Py.Answered(Response(405, None, NoBody, false))
    ensures Ts.ParseOp(req) == Ts.Err(Ts.MalformedDestHeader) ==>
      Py.ParseOp(req) == Py.Answered(Response(400, None, NoBody, false))
  {
  }

  /** Both hosts issue the same calls and leave the bucket in the same
      state, for every request and every behaviour of the service. */
  lemma SameStorageEffect(objects: Objects, req: Request, credential: string, fate: Fate, nextFate: Fate)
    requires credential != ""
    ensures var ts := Ts.TriggerEffect(objects, req, credential, fate, nextFate);
      var py := Py.MainEffect(objects, req, credential, fate, nextFate);
      ts.calls == py.calls && ts.objects == py.objects
  {
  }

  /** Where the answers part: a MOVE whose copy the service refuses is a 500
      from the JavaScript host but carries the service's own status, code
      and message from the Python host. */
  lemma RefusedCopyAnswers(objects: Objects, req: Request, credential: string, error: ServiceError, nextFate: Fate)
    requires credential != "" && Ts.Authorized(req.authorization, credential)
    requires req.verb == "MOVE" && Ts.ParseOp(req).Ok?
    ensures Ts.TriggerEffect(objects, req, credential, Fault(error), nextFate).value ==
      Response(500, None, Text(Ts.InternalS3Error), false)
    ensures Py.MainEffect(objects, req, credential, Fault(error), nextFate).value ==
      Response(error.status, None, Text(Py.ErrorText(error)), false)
  {
  }
}
