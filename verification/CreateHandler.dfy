/** The API's POST /v1/payouts, from the decoded body to the status line. */
module CreateHandler {
  import opened Wrappers
  import opened PayoutDomain
  import opened Fallback
  import Registry
  import opened PayoutProtocol
  import opened PayoutService
  import opened ReplayMatch

  datatype Body = Body(amount: int, currency: string, rail: string)

  datatype Reply = Reply(status: int, payout: Option<(PayoutId, PayoutState)>)

  // What the client is told when the RPC's answer arrives.
  function Told(resp: Response): Reply {
    match resp
    case Accepted(id, status) => Reply(202, Some((id, status)))
    case Rejected(AlreadyExists) => Reply(409, None)
    case _ => Reply(502, None)
  }

  class Handler {
    const api: Api
    const orchestrator: Server

    constructor (api: Api, orchestrator: Server)
      ensures this.api == api && this.orchestrator == orchestrator
    {
      this.api, this.orchestrator := api, orchestrator;
    }

    /** The body is None when it does not decode. What is refused here never reaches the orchestrator. What is sent on
        carries the canonical hash, and a 202 names the payout that the stored order is for: the order that was asked
        for, unless the hash has collided, provided all creates come through the API. `sent` and `answered` say whether
        the RPC arrives and whether its answer does. */
    method CreatePayout(ghost c: CallId, key: string, body: Option<Body>,
      sends: (Registry.ClientId, Payout, nat) -> Answer, sent: bool, answered: bool)
      returns (reply: Reply)
      requires orchestrator.Valid() && c !in orchestrator.sys.calls
      modifies orchestrator, orchestrator.store, orchestrator.orchestrator.tracker, orchestrator.orchestrator.directory
      ensures orchestrator.Valid() && old(orchestrator.trace) <= orchestrator.trace
      ensures key == "" || body.None? || body.value.amount <= 0 || body.value.rail == "" ==>
        reply == Reply(400, None) && orchestrator.trace == old(orchestrator.trace)
      ensures !(key == "" || body.None? || body.value.amount <= 0 || body.value.rail == "") ==>
        var b := body.value;
        if !sent then reply == Reply(502, None) && orchestrator.trace == old(orchestrator.trace)
        else
          && c in orchestrator.sys.calls && orchestrator.sys.calls[c].at.Answered?
          && orchestrator.sys.calls[c].req ==
               Create(key, api.CanonicalHash(b.amount, b.currency, b.rail), b.amount, b.currency, b.rail)
          && reply == if !answered then Reply(502, None)
                      else match orchestrator.sys.calls[c].at.resp
                        case Accepted(id, status) => Reply(202, Some((id, status)))
                        case Rejected(code) => Reply(if code == AlreadyExists then 409 else 502, None)
                        case Success => Reply(502, None)
      ensures reply.status == 202 && api.ThroughApi(orchestrator.trace) ==>
        && reply.payout.Some? && reply.payout.value.0 in orchestrator.sys.db.payouts
        && var row := orchestrator.sys.db.payouts[reply.payout.value.0];
           var req := Create(key, api.CanonicalHash(body.value.amount, body.value.currency, body.value.rail),
                             body.value.amount, body.value.currency, body.value.rail);
           api.SameAsStored(req, row) || api.CollidesWithStored(req, row)
    {
      hide Exec;
      if key == "" { return Reply(400, None); }
      if body.None? { return Reply(400, None); }
      if body.value.amount <= 0 { return Reply(400, None); }
      if body.value.rail == "" { return Reply(400, None); }
      var hash := api.CanonicalHash(body.value.amount, body.value.currency, body.value.rail);
      if !sent { return Reply(502, None); }
      var resp, _ :=
        orchestrator.CreatePayout(c, key, hash, body.value.amount, body.value.currency, body.value.rail, sends);
      if answered && resp.Accepted? && api.ThroughApi(orchestrator.trace) {
        api.AcceptedMatchesStored(orchestrator.trace, c);
      }
      return if answered then Told(resp) else Reply(502, None);
    }
  }
}
