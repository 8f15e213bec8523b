/** The entities of the orchestrator's domain package, and the requests and answers of its RPCs. */
module PayoutDomain {
  import opened Wrappers

  // A payout's UUID. Only equality matters.
  type PayoutId = nat

  datatype PayoutState =
    | Created | Queued | Pending | Processing | Completed | Sent | Failed | Canceled

  const CANCELABLE_STATES: seq<PayoutState> := [Created, Queued, Sent, Pending]

  // The provider is "" until one has been chosen.
  datatype Payout = Payout(
    id: PayoutId,
    state: PayoutState,
    amountCents: int,
    currency: string,
    rail: string,
    provider: string,
    externalId: Option<string>)

  /** An RPC request. `uuid` is what the UUID parser makes of `ref`: None when it does not parse. */
  datatype Request =
    | Create(key: string, hash: string, amountCents: int, currency: string, rail: string)
    | Cancel(ref: string, uuid: Option<PayoutId>)
    | Apply(ref: string, uuid: Option<PayoutId>, providerStatus: string)

  datatype Code = InvalidArgument | NotFound | AlreadyExists | FailedPrecondition | Internal

  datatype Response =
    | Rejected(code: Code)
    | Accepted(payout: PayoutId, status: PayoutState)
    | Success

  /** mapProviderStatusToState */
  function MapProviderStatus(providerStatus: string): (r: Option<PayoutState>)
  {
    match providerStatus
    case "payout_succeeded" => Some(Completed)
    case "payout_failed" => Some(Failed)
    case "payout_canceled" => Some(Canceled)
    case _ => None
  }
}
