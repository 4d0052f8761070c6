/** The flat object store behind the handler: a bucket of byte payloads by
    key, reached through four calls (get, put, delete, copy). Every call is
    recorded in the bucket's log, and whether it is answered or refused is
    decided by a `Fate` the caller supplies, standing in for the service's
    own judgement (permissions, throttling, outages). */
module ObjectStore {
  import opened Http

  /** The bucket's contents. */
  type Objects = map<string, Bytes>

  /** One backend call, as issued. */
  datatype Call =
    | GetCall(key: string)
    | PutCall(key: string, body: Bytes)
    | DeleteCall(key: string)
    | CopyCall(source: string, dest: string)

  /** A successful raw HTTP answer of the service. */
  datatype Reply = Reply(status: int, headers: Headers, body: Bytes)

  /** An error answer of the service: its HTTP status, headers and raw body
      (the error document), plus the error code and message parsed from it. */
  datatype ServiceError = ServiceError(status: int, headers: Headers, body: Bytes, code: string, message: string)

  /** What the service does with the next call: carry it out, answering with
      these headers, or refuse it with this error. */
  datatype Fate = Proceed(headers: Headers) | Fault(error: ServiceError)

  /** The answer to one call. */
  datatype CallResult = Done(reply: Reply) | Failed(error: ServiceError)

  /** The answer to one call together with the bucket's contents afterwards. */
  datatype Served = Served(result: CallResult, objects: Objects)

  /** What a request did to the bucket: its result, the bucket's contents
      afterwards, and the backend calls it issued, in order. */
  datatype Effect<T> = Effect(value: T, objects: Objects, calls: seq<Call>)

  /** The service's answer to a get or copy whose source key is absent. */
  function NoSuchKey(headers: Headers): ServiceError
  {
    ServiceError(404, headers, [], "NoSuchKey", "The specified key does not exist.")
  }

  /** The key a call may change. */
  function Target(call: Call): string
  {
    match call
    case GetCall(k) => k
    case PutCall(k, _) => k
    case DeleteCall(k) => k
    case CopyCall(_, d) => d
  }

  /** How the service answers `call` against `objects` under `fate`. */
  function Serve(objects: Objects, call: Call, fate: Fate): (s: Served)
    ensures fate.Fault? ==> s.result == Failed(fate.error)
    ensures s.result.Failed? || call.GetCall? ==> s.objects == objects
    ensures forall k :: k != Target(call) ==> (k in s.objects <==> k in objects)
    ensures forall k :: k != Target(call) && k in objects ==> s.objects[k] == objects[k]
    ensures s.result.Done? ==> s.result.reply.headers == fate.headers
    ensures s.result.Done? && call.GetCall? ==> call.key in objects && s.result.reply.body == objects[call.key]
    ensures s.result.Done? && call.PutCall? ==> s.objects == objects[call.key := call.body]
    ensures s.result.Done? && call.DeleteCall? ==> s.objects == objects - {call.key}
    ensures s.result.Done? && call.CopyCall? ==>
      call.source in objects && s.objects == objects[call.dest := objects[call.source]]
    ensures fate.Proceed? && s.result.Failed? ==>
      && s.result.error == NoSuchKey(fate.headers)
      && (call.GetCall? || call.CopyCall?)
      && (call.GetCall? ==> call.key !in objects)
      && (call.CopyCall? ==> call.source !in objects)
  {
    match fate
    case Fault(e) => Served(Failed(e), objects)
    case Proceed(h) =>
      match call
      case GetCall(k) =>
        if k in objects then Served(Done(Reply(200, h, objects[k])), objects)
        else Served(Failed(NoSuchKey(h)), objects)
      case PutCall(k, b) => Served(Done(Reply(200, h, [])), objects[k := b])
      case DeleteCall(k) => Served(Done(Reply(204, h, [])), objects - {k})
      case CopyCall(src, dst) =>
        if src in objects then Served(Done(Reply(200, h, [])), objects[dst := objects[src]])
        else Served(Failed(NoSuchKey(h)), objects)
  }

  /** The bucket, as the storage client sees it. */
  class Bucket {
    var objects: Objects
    var log: seq<Call>

    constructor (objects: Objects)
      ensures this.objects == objects && log == []
    {
      this.objects := objects;
      log := [];
    }

    method GetObject(key: string, fate: Fate) returns (r: CallResult)
      modifies this
      ensures Served(r, objects) == Serve(old(objects), GetCall(key), fate)
      ensures log == old(log) + [GetCall(key)]
    {
      log := log + [GetCall(key)];
      if fate.Fault? {
        r := Failed(fate.error);
      } else if key in objects {
        r := Done(Reply(200, fate.headers, objects[key]));
      } else {
        r := Failed(NoSuchKey(fate.headers));
      }
    }

    method PutObject(key: string, body: Bytes, fate: Fate) returns (r: CallResult)
      modifies this
      ensures Served(r, objects) == Serve(old(objects), PutCall(key, body), fate)
      ensures log == old(log) + [PutCall(key, body)]
    {
      log := log + [PutCall(key, body)];
      if fate.Fault? {
        r := Failed(fate.error);
      } else {
        objects := objects[key := body];
        r := Done(Reply(200, fate.headers, []));
      }
    }

    method DeleteObject(key: string, fate: Fate) returns (r: CallResult)
      modifies this
      ensures Served(r, objects) == Serve(old(objects), DeleteCall(key), fate)
      ensures log == old(log) + [DeleteCall(key)]
    {
      log := log + [DeleteCall(key)];
      if fate.Fault? {
        r := Failed(fate.error);
      } else {
        objects := objects - {key};
        r := Done(Reply(204, fate.headers, []));
      }
    }

    method CopyObject(source: string, dest: string, fate: Fate) returns (r: CallResult)
      modifies this
      ensures Served(r, objects) == Serve(old(objects), CopyCall(source, dest), fate)
      ensures log == old(log) + [CopyCall(source, dest)]
    {
      log := log + [CopyCall(source, dest)];
      if fate.Fault? {
        r := Failed(fate.error);
      } else if source in objects {
        objects := objects[dest := objects[source]];
        r := Done(Reply(200, fate.headers, []));
      } else {
        r := Failed(NoSuchKey(fate.headers));
      }
    }
  }

  /** The contents after a copy from `from` to `to` followed by a delete of
      `from`: when the two keys differ the payload now sits at `to` alone and
      nothing else changed; when they coincide the object is gone. */
  lemma MoveEffect(objects: Objects, from: string, to: string)
    requires from in objects
    ensures var moved := objects[to := objects[from]] - {from};
      && from !in moved
      && (from != to ==> to in moved && moved[to] == objects[from])
      && (forall k :: k != from && k != to ==> (k in moved <==> k in objects))
      && (forall k :: k != from && k != to && k in objects ==> moved[k] == objects[k])
  {
  }
}
