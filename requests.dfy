/**
 * The request record and the shared FIFO of requests that the connection
 * side fills and the dispatcher drains.
 */
module Requests {

  /** A raw protocol line tagged with the id of the session or thread it came from; nothing is validated. */
  datatype ClientRequest = ClientRequest(sessionID: int, request: string)

  /** Every line tagged with the same id, in order. */
  function Tagged(id: int, lines: seq<string>): (r: seq<ClientRequest>)
    ensures |r| == |lines|
    ensures forall k :: 0 <= k < |r| ==> r[k] == ClientRequest(id, lines[k])
  {
    if |lines| == 0 then [] else Tagged(id, lines[..|lines| - 1]) + [ClientRequest(id, lines[|lines| - 1])]
  }

  /** The server's clientRequests queue, taken one request at a time. */
  class RequestQueue {
    var items: seq<ClientRequest>

    constructor ()
      ensures items == []
    {
      items := [];
    }

    /** clientRequests.put(r) */
    method Put(r: ClientRequest)
      modifies this
      ensures items == old(items) + [r]
    {
      items := items + [r];
    }

    /** clientRequests.take(), which would block on an empty queue. */
    method Take() returns (r: ClientRequest)
      requires items != []
      modifies this
      ensures r == old(items)[0] && items == old(items)[1..]
    {
      r := items[0];
      items := items[1..];
    }
  }
}
