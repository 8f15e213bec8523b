/** The payout RPCs as a transition system over the shared tables.

    An RPC in flight is a program point; it moves from one database statement (or transaction, or provider
    pass) to the next in a single step, and steps of different calls interleave freely. Everything the
    service does not decide is in the action: which call moves, how the database replies, the random UUID,
    the providers' answers. A call that is never stepped again has crashed. */
module PayoutProtocol {
  import opened Wrappers
  import opened PayoutDomain
  import opened PayoutTables
  import opened Fallback

  type CallId = nat

  datatype Point =
    | Opening                                       // CreatePayout, before its transaction
    | Replaying(existing: PayoutId)                 // the key exists with this hash: before GetPayout
    | Sending(payout: Payout)                       // committed: before the pass over the providers
    | Recording(payout: Payout, result: SendResult) // before UpdatePayoutState
    | Checking(id: PayoutId)                        // CancelPayout, before GetPayout
    | Recalling(payout: Payout)                     // before the provider's cancel
    | Canceling(id: PayoutId)                       // before CancelPayoutIfCancelable
    | Finding                                       // ApplyProviderUpdate, before FindPayoutByExternalID
    | LookingUp(id: PayoutId)                       // before GetPayout on the parsed UUID
    | Applying(payout: Payout, newState: PayoutState) // before UpdatePayoutState
    | Answered(resp: Response)

  datatype Call = Call(req: Request, at: Point)

  /** How the database treats a statement: it runs and says so; it runs, or commits, and the reply is an
      error; it does nothing and the reply is an error. */
  datatype Fate = Acked | Lost | Dropped

  datatype Env = Env(fate: Fate, newId: PayoutId, attempts: seq<Attempt>)

  datatype Action = Begin(call: CallId, req: Request) | Step(call: CallId, env: Env)

  /** What has happened so far, counted. */
  datatype Event =
    | SendPhase(key: string)                                // a create entered its send phase
    | SendOk(key: string)                                   // a provider send returned no error
    | Delivered(id: PayoutId, provider: string, ref: string) // ... and this is what it returned
    | Wrote(id: PayoutId, state: PayoutState)               // the row was written with this state
    | Recalled(id: PayoutId, provider: string, target: Option<string>) // a provider was asked to cancel
    | CancelOk(id: PayoutId)                                // a CancelPayout returned success

  datatype Sys = Sys(db: Db, calls: map<CallId, Call>, tally: multiset<Event>)

  const INIT := Sys(EMPTY, map[], multiset{})

  datatype Effect = Effect(db: Db, at: Point, events: multiset<Event>)

  /** Argument validation, up to the first database statement. */
  function Start(req: Request): Point {
    match req
    case Create(key, hash, _, _, _) =>
      if key == "" || hash == "" then Answered(Rejected(InvalidArgument)) else Opening
    case Cancel(ref, uuid) =>
      if ref == "" || uuid.None? then Answered(Rejected(InvalidArgument)) else Checking(uuid.value)
    case Apply(ref, _, _) =>
      if ref == "" then Answered(Rejected(InvalidArgument)) else Finding
  }

  function Only(db: Db, at: Point): Effect {
    Effect(db, at, multiset{})
  }

  /** The transaction: insert the payout, then the key; a key conflict rolls both back. */
  function Open(db: Db, req: Request, env: Env): Effect
    requires req.Create?
  {
    var row := Row(Created, req.amountCents, req.currency, req.rail, None, None);
    var inserted := InsertPayout(db, env.newId, row);
    if env.fate.Dropped? || inserted.None? then
      Only(db, Answered(Rejected(Internal)))
    else if req.key in db.keys then
      if env.fate.Lost? then Only(db, Answered(Rejected(Internal)))
      else if db.keys[req.key].requestHash != req.hash then Only(db, Answered(Rejected(AlreadyExists)))
      else Only(db, Replaying(db.keys[req.key].payout))
    else
      var db' := inserted.value.(keys := db.keys[req.key := KeyRow(req.hash, env.newId)]);
      var wrote := multiset{Wrote(env.newId, Created)};
      if env.fate.Lost? then Effect(db', Answered(Rejected(Internal)), wrote)
      else Effect(db', Sending(ToDomain(env.newId, row)), wrote + multiset{SendPhase(req.key)})
  }

  /** The answers in a pass that are references. */
  function Deliveries(key: string, id: PayoutId, attempts: seq<Attempt>): multiset<Event> {
    if attempts == [] then multiset{}
    else
      var last := attempts[|attempts| - 1];
      Deliveries(key, id, attempts[..|attempts| - 1]) +
      if last.answer.Reference?
      then multiset{SendOk(key), Delivered(id, last.provider, last.answer.externalId)}
      else multiset{}
  }

  /** One unconditional update. The answer tells whether the caller saw it succeed. */
  function Update(db: Db, id: PayoutId, state: PayoutState, ref: Option<string>, provider: string, fate: Fate)
    : (Db, bool, multiset<Event>)
  {
    var updated := UpdateRow(db, id, state, ref, provider);
    if fate.Dropped? || updated.None? then (db, false, multiset{})
    else (updated.value, fate.Acked?, multiset{Wrote(id, state)})
  }

  /** What the send phase writes: sent with its reference and provider, or failed with the last provider. */
  function RecordedState(result: SendResult): PayoutState {
    if result.success then Sent else Failed
  }

  function RecordedRef(result: SendResult): Option<string> {
    if result.success then Some(result.externalId) else None
  }

  function RecordedProvider(result: SendResult): string {
    if result.success then result.usedProvider
    else if result.triedProviders == [] then ""
    else result.triedProviders[|result.triedProviders| - 1]
  }

  function Record(db: Db, payout: Payout, result: SendResult, fate: Fate): Effect {
    var state := RecordedState(result);
    var (db', seen, events) := Update(db, payout.id, state, RecordedRef(result), RecordedProvider(result), fate);
    // When the update fails the snapshot taken at creation is returned.
    Effect(db', Answered(Accepted(payout.id, if seen then state else payout.state)), events)
  }

  function Check(db: Db, id: PayoutId, env: Env): Point {
    if !env.fate.Acked? then Answered(Rejected(Internal))
    else if id !in db.payouts then Answered(Rejected(NotFound))
    else
      var payout := ToDomain(id, db.payouts[id]);
      if payout.state !in CANCELABLE_STATES then Answered(Rejected(FailedPrecondition))
      else if payout.provider != "" then Recalling(payout)
      else Canceling(id)
  }

  function DoCancel(db: Db, id: PayoutId, fate: Fate): Effect {
    var canceled := CancelRow(db, id);
    if fate.Dropped? || canceled.None? then Only(db, Answered(Rejected(Internal)))
    else if fate.Lost? then Effect(canceled.value, Answered(Rejected(Internal)), multiset{Wrote(id, Canceled)})
    else Effect(canceled.value, Answered(Success), multiset{Wrote(id, Canceled), CancelOk(id)})
  }

  /** The snapshot is in hand; the status is mapped before the update. */
  function Found(payout: Payout, status: string): Point {
    match MapProviderStatus(status)
    case None => Answered(Rejected(InvalidArgument))
    case Some(newState) => Applying(payout, newState)
  }

  ghost function Find(db: Db, req: Request, env: Env): Point
    requires req.Apply?
  {
    var hit := if env.fate.Acked? then FindByRef(db, req.ref) else None; // any error falls through
    match hit
    case Some(p) => Found(ToDomain(p, db.payouts[p]), req.providerStatus)
    case None => if req.uuid.None? then Answered(Rejected(NotFound)) else LookingUp(req.uuid.value)
  }

  function LookUp(db: Db, id: PayoutId, req: Request, env: Env): Point
    requires req.Apply?
  {
    if !env.fate.Acked? then Answered(Rejected(Internal))
    else if id !in db.payouts then Answered(Rejected(NotFound))
    else Found(ToDomain(id, db.payouts[id]), req.providerStatus)
  }

  function DoApply(db: Db, payout: Payout, newState: PayoutState, fate: Fate): Effect {
    var (db', seen, events) := Update(db, payout.id, newState, payout.externalId, payout.provider, fate);
    Effect(db', Answered(if seen then Success else Rejected(Internal)), events)
  }

  /** One step of one call. A point that does not belong to the request, or a list of attempts that no pass
      makes, is not a step. */
  ghost function Perform(db: Db, call: Call, env: Env): Effect {
    var req := call.req;
    match call.at
    case Opening => if req.Create? then Open(db, req, env) else Only(db, call.at)
    case Replaying(id) =>
      Only(db, Answered(if env.fate.Acked? && id in db.payouts then Accepted(id, db.payouts[id].state)
                        else Rejected(Internal)))
    case Sending(payout) =>
      if req.Create? && IsPass(env.attempts)
      then Effect(db, Recording(payout, Report(env.attempts)), Deliveries(req.key, payout.id, env.attempts))
      else Only(db, call.at)
    case Recording(payout, result) => Record(db, payout, result, env.fate)
    case Checking(id) => Only(db, Check(db, id, env))
    case Recalling(payout) => // the provider's answer is only logged
      Effect(db, Canceling(payout.id), multiset{Recalled(payout.id, payout.provider, payout.externalId)})
    case Canceling(id) => DoCancel(db, id, env.fate)
    case Finding => if req.Apply? then Only(db, Find(db, req, env)) else Only(db, call.at)
    case LookingUp(id) => if req.Apply? then Only(db, LookUp(db, id, req, env)) else Only(db, call.at)
    case Applying(payout, newState) => DoApply(db, payout, newState, env.fate)
    case Answered(_) => Only(db, call.at)
  }

  ghost function Next(s: Sys, a: Action): Sys {
    match a
    case Begin(c, req) =>
      if c in s.calls then s else s.(calls := s.calls[c := Call(req, Start(req))])
    case Step(c, env) =>
      if c !in s.calls then s
      else
        var e := Perform(s.db, s.calls[c], env);
        Sys(e.db, s.calls[c := s.calls[c].(at := e.at)], s.tally + e.events)
  }

  /** A run: any finite sequence of actions. */
  ghost function Exec(s: Sys, acts: seq<Action>): Sys {
    if acts == [] then s else Next(Exec(s, acts[..|acts| - 1]), acts[|acts| - 1])
  }
}
