/** The storage operation a request is translated into, one variant per
    supported verb (`Operation` in index.ts, the op dictionaries built by
    `parse_op` in __init__.py). */
module Operations {
  import opened Http
  import opened ObjectStore

  datatype Operation =
    | Get(key: string)
    | Delete(key: string)
    | Put(key: string, body: Bytes)
    | Move(from: string, to: string)

  /** The one backend call a GET, DELETE or PUT issues: the call of the same
      kind on the operation's key, carrying PUT's body. */
  function CallOf(op: Operation): (call: Call)
    requires !op.Move?
    ensures Target(call) == op.key
    ensures call.GetCall? <==> op.Get?
    ensures call.DeleteCall? <==> op.Delete?
    ensures call.PutCall? <==> op.Put?
    ensures call.PutCall? ==> call.body == op.body
  {
    match op
    case Get(key) => GetCall(key)
    case Delete(key) => DeleteCall(key)
    case Put(key, body) => PutCall(key, body)
  }
}
