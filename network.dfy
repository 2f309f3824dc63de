/**
 * The network seen from the client: an oracle that answers the k-th request
 * ever sent through it, and the log of what was sent. Every remote call in the
 * model goes through one of these, so the log counts invocations exactly.
 */
module Network {

  class Transport<Req, Resp> {
    /** The answer to the request sent as number k (counting from 0). */
    const answer: (nat, Req) -> Resp
    /** Every request sent so far, in order. */
    var sent: seq<Req>

    constructor (answer: (nat, Req) -> Resp)
      ensures this.answer == answer && sent == []
    {
      this.answer := answer;
      sent := [];
    }

    method Send(r: Req) returns (o: Resp)
      modifies this`sent
      ensures sent == old(sent) + [r]
      ensures o == answer(|old(sent)|, r)
    {
      o := answer(|sent|, r);
      sent := sent + [r];
    }
  }
}
