/** The RPC methods, run step by step against a database that other calls change between any two statements.

    Each method is proved to be a run of one call of the protocol, interleaved with arbitrary steps of other
    calls, and to return what that call answers. Every theorem about runs therefore holds of these methods. */
module PayoutService {
  import opened Wrappers
  import opened PayoutDomain
  import opened PayoutTables
  import opened Fallback
  import opened PayoutProtocol
  import opened ProtocolInvariant
  import opened ProtocolTheorems
  import opened PayoutStore
  import opened ProtocolAnswers
  import Registry
  import Orchestrator

  // ---------- traces

  ghost predicate IsRun(trace: seq<Action>, sys: Sys) {
    After(trace) == sys
  }

  /** From `was` to `now` only calls other than c moved. */
  ghost predicate OthersMoved(was: seq<Action>, now: seq<Action>, c: CallId) {
    was <= now && forall i :: |was| <= i < |now| ==> now[i].call != c
  }

  lemma {:induction false} OthersLeaveCallAlone(was: seq<Action>, now: seq<Action>, c: CallId)
    requires OthersMoved(was, now, c)
    ensures c in After(was).calls <==> c in After(now).calls
    ensures c in After(was).calls ==> After(now).calls[c] == After(was).calls[c]
    decreases |now|
  {
    if |was| < |now| {
      var init := now[..|now| - 1];
      OthersLeaveCallAlone(was, init, c);
      assert now[|now| - 1].call != c;
    } else {
      assert now == was;
    }
  }

  lemma RunStep(trace: seq<Action>, sys: Sys, a: Action)
    requires IsRun(trace, sys)
    ensures IsRun(trace + [a], Next(sys, a))
  {
    ExecAppend(INIT, trace, a);
  }

  lemma RunHasUniqueRefs(trace: seq<Action>, sys: Sys)
    requires IsRun(trace, sys)
    ensures UniqueRefs(sys.db)
  {
    RunKeepsInv(trace);
  }

  lemma EmptyRun()
    ensures IsRun([], INIT)
  {
  }

  // ---------- canceling with the sender

  /** When names stay unique, the provider that a payout's cancel is put to is the client that took the payout:
      the last of the route that the pass tried, whatever registrations and toggles have happened since. It is
      asked under the reference that it returned. */
  lemma CancelReachesSender(acts: seq<Action>, p: PayoutId, provider: string, ref: Option<string>,
    rails: Registry.Rails, cs: seq<Registry.Change>, rail: string, route: seq<Registry.Entry>,
    attempts: seq<Attempt>, asked: Option<Registry.ClientId>)
    requires Orchestrator.IsRoute(rails, rail, route) && Orchestrator.FirstDecisive(route, attempts)
    requires var r := Report(attempts); r.success && Delivered(p, r.usedProvider, r.externalId) in After(acts).tally
    requires Recalled(p, provider, ref) in After(acts).tally
    requires Registry.UniqueNames(Registry.ChangedAll(rails, cs))
    requires Registry.CanReturn(Registry.ChangedAll(rails, cs), provider, asked)
    ensures asked == Some(route[|attempts| - 1].client)
    ensures ref == Some(attempts[|attempts| - 1].answer.externalId)
  {
    RecallFindsSender(acts, p, provider, ref);
    var sender := route[|attempts| - 1];
    assert sender in multiset(route);
    var i := Registry.ActivesAreEntries(Registry.EntriesOf(rails, rail), sender);
    Registry.LookupReachesSender(rails, cs, rail, i, asked);
  }

  // What a success stands for, of a run.
  lemma RunUpdateWrote(trace: seq<Action>, sys: Sys, c: CallId)
    requires IsRun(trace, sys) && c in sys.calls && sys.calls[c].req.Apply? && sys.calls[c].at == Answered(Success)
    ensures WroteItsStatus(sys.tally, sys.calls[c].req.providerStatus)
  {
    RunOnCourse(trace);
    assert OnCourse(sys.tally, sys.calls[c]);
  }

  lemma RunCancelCounted(trace: seq<Action>, sys: Sys, c: CallId, p: PayoutId)
    requires IsRun(trace, sys) && c in sys.calls && sys.calls[c].req.Cancel? && sys.calls[c].req.uuid == Some(p)
    requires sys.calls[c].at == Answered(Success)
    ensures sys.tally[CancelOk(p)] >= 1
  {
    SuccessesAreCounted(trace, p);
    assert c in Succeeded(sys, p);
  }

  // A committed create is about to send what was asked for.
  lemma SendsWhatWasAsked(trace: seq<Action>, sys: Sys, c: CallId)
    requires IsRun(trace, sys) && c in sys.calls && sys.calls[c].at.Sending?
    ensures var (req, payout) := (sys.calls[c].req, sys.calls[c].at.payout);
      && req.Create?
      && payout == Payout(payout.id, Created, req.amountCents, req.currency, req.rail, "", None)
  {
    SenderHoldsOrder(trace, c);
  }

  /** A pass over the providers: the registry it was routed by, its route, and its attempts. */
  datatype Pass = Pass(rails: Registry.Rails, route: seq<Registry.Entry>, attempts: seq<Attempt>)

  // The pass is one for this payout, on its rail, with clients that answer `sends`.
  ghost predicate PassFor(pass: Pass, payout: Payout, sends: (Registry.ClientId, Payout, nat) -> Answer) {
    && Orchestrator.IsRoute(pass.rails, payout.rail, pass.route)
    && Orchestrator.FirstDecisive(pass.route, pass.attempts)
    && Orchestrator.AnsweredBy(pass.route, pass.attempts, payout, sends)
  }

  class Server {
    const store: Store
    const orchestrator: Orchestrator.Service

    // The run so far, and the protocol state it leads to.
    ghost var trace: seq<Action>
    ghost var sys: Sys

    ghost predicate Valid()
      reads this, store, orchestrator.tracker
    {
      IsRun(trace, sys) && sys.db == store.Contents() && orchestrator.Valid()
    }

    constructor (orchestrator: Orchestrator.Service)
      requires orchestrator.Valid()
      ensures Valid() && trace == [] && fresh(store)
    {
      store := new Store();
      this.orchestrator := orchestrator;
      trace, sys := [], INIT;
      EmptyRun();
    }

    // Call c is at this point.
    ghost predicate At(c: CallId, req: Request, at: Point)
      reads this
    {
      c in sys.calls && sys.calls[c] == Call(req, at)
    }

    /** Any number of steps of other calls. Callers know this contract only. */
    method Others(ghost c: CallId)
      requires Valid()
      modifies this`trace, this`sys, store, orchestrator.tracker, orchestrator.directory
      ensures Valid() && OthersMoved(old(trace), trace, c)
      ensures c in sys.calls <==> c in old(sys).calls
      ensures c in sys.calls ==> sys.calls[c] == old(sys).calls[c]
    {
    }

    // How the database will treat the next statement.
    method AnyFate() returns (fate: Fate)
    {
      fate := *;
    }

    // The protocol side of what call c has just done to the store.
    ghost method Moved(c: CallId, env: Env)
      requires IsRun(trace, sys) && c in sys.calls
      modifies this`trace, this`sys
      ensures IsRun(trace, sys) && trace == old(trace) + [Step(c, env)]
      ensures sys.db == Perform(old(sys).db, old(sys).calls[c], env).db
      ensures sys.calls == old(sys).calls[c := old(sys).calls[c].(at := Perform(old(sys).db, old(sys).calls[c],
          env).at)]
    {
      RunStep(trace, sys, Step(c, env));
      trace, sys := trace + [Step(c, env)], Next(sys, Step(c, env));
    }

    ghost method Began(c: CallId, req: Request)
      requires IsRun(trace, sys) && c !in sys.calls
      modifies this`trace, this`sys
      ensures IsRun(trace, sys) && trace == old(trace) + [Begin(c, req)] && sys == Next(old(sys), Begin(c, req))
      ensures sys.db == old(sys).db && sys.calls == old(sys).calls[c := Call(req, Start(req))]
    {
      RunStep(trace, sys, Begin(c, req));
      trace, sys := trace + [Begin(c, req)], Next(sys, Begin(c, req));
    }

    /** CreatePayout, where the providers' clients answer `sends`. The pass, when it comes to one, is for the payout
        that was asked for. */
    method CreatePayout(ghost c: CallId, key: string, hash: string, amountCents: int, currency: string, rail: string,
      sends: (Registry.ClientId, Payout, nat) -> Answer)
      returns (resp: Response, ghost pass: Option<Pass>)
      requires Valid() && c !in sys.calls
      modifies this, store, orchestrator.tracker, orchestrator.directory
      ensures Valid() && old(trace) <= trace
      ensures At(c, Create(key, hash, amountCents, currency, rail), Answered(resp))
      ensures pass.Some? ==>
        && resp.Accepted? && Step(c, Env(Acked, 0, pass.value.attempts)) in trace
        && PassFor(pass.value, Payout(resp.payout, Created, amountCents, currency, rail, "", None), sends)
    {
      hide IsRun, Open, DoCancel, Check, Find, LookUp, Deliveries, Report, Record, DoApply, PassFor;
      pass := None;
      var req := Create(key, hash, amountCents, currency, rail);
      Began(c, req);
      if key == "" || hash == "" { return Rejected(InvalidArgument), None; }
      Others(c);
      var newId: PayoutId := *;
      var fate := AnyFate();
      var result := store.CreateInTx(req, newId, fate);
      Moved(c, Env(fate, newId, []));
      match result
      case TxFailed => return Rejected(Internal), None;
      case KeyExists(existing) =>
        if existing.requestHash != hash { return Rejected(AlreadyExists), None; }
        resp := Replay(c, req, existing.payout);
      case Committed(payout) =>
        SendsWhatWasAsked(trace, sys, c);
        var sent, made := SendPayoutWithOrchestrator(c, req, payout, sends);
        return Accepted(sent.id, sent.state), Some(made);
    }

    // The same hash: return the existing payout.
    method Replay(ghost c: CallId, ghost req: Request, id: PayoutId) returns (resp: Response)
      requires Valid() && At(c, req, Replaying(id))
      modifies this, store, orchestrator.tracker, orchestrator.directory
      ensures Valid() && old(trace) <= trace && At(c, req, Answered(resp))
    {
      hide IsRun;
      Others(c);
      var fate := AnyFate();
      var existing := store.GetPayout(id, fate);
      Moved(c, Env(fate, 0, []));
      return if existing.Ok? then Accepted(existing.value.id, existing.value.state) else Rejected(Internal);
    }

    /** sendPayoutWithOrchestrator */
    method SendPayoutWithOrchestrator(ghost c: CallId, ghost req: Request, payout: Payout,
      sends: (Registry.ClientId, Payout, nat) -> Answer)
      returns (sent: Payout, ghost pass: Pass)
      requires Valid() && At(c, req, Sending(payout)) && req.Create?
      modifies this, store, orchestrator.tracker, orchestrator.directory
      ensures Valid() && old(trace) <= trace && At(c, req, Answered(Accepted(sent.id, sent.state)))
      ensures sent.id == payout.id && Step(c, Env(Acked, 0, pass.attempts)) in trace && PassFor(pass, payout, sends)
    {
      hide IsRun, Open, Update, DoCancel, Check, Find, LookUp, Deliveries, Report;
      Others(c);
      var result, attempts, route, rails, _ := orchestrator.SendPayoutWithFallback(payout, sends, false);
      pass := Pass(rails, route, attempts);
      Moved(c, Env(Acked, 0, attempts));
      assert trace[|trace| - 1] == Step(c, Env(Acked, 0, attempts));
      sent := RecordOutcome(c, req, payout, result);
    }

    // The update that ends the send phase; when it fails the caller gets the snapshot back.
    method RecordOutcome(ghost c: CallId, ghost req: Request, payout: Payout, result: SendResult) returns (sent: Payout)
      requires Valid() && At(c, req, Recording(payout, result))
      modifies this, store, orchestrator.tracker, orchestrator.directory
      ensures Valid() && old(trace) <= trace && At(c, req, Answered(Accepted(sent.id, sent.state)))
      ensures sent.id == payout.id
    {
      hide IsRun, Open, DoCancel, Check, Find, LookUp, Deliveries;
      Others(c);
      var fate := AnyFate();
      var updated;
      if result.success {
        updated := store.UpdatePayoutState(payout.id, Sent, Some(result.externalId), result.usedProvider, fate);
      } else {
        var lastProvider := "";
        if |result.triedProviders| > 0 { lastProvider := result.triedProviders[|result.triedProviders| - 1]; }
        updated := store.UpdatePayoutState(payout.id, PayoutState.Failed, None, lastProvider, fate);
      }
      Moved(c, Env(fate, 0, []));
      return if updated.Ok? then updated.value else payout;
    }

    /** CancelPayout, where the clients' cancels fail as `fails` says. */
    method CancelPayout(ghost c: CallId, ref: string, uuid: Option<PayoutId>,
      fails: (Registry.ClientId, Payout) -> bool)
      returns (resp: Response)
      requires Valid() && c !in sys.calls
      modifies this, store, orchestrator.tracker, orchestrator.directory
      ensures Valid() && old(trace) <= trace
      ensures At(c, Cancel(ref, uuid), Answered(resp))
      ensures resp == Success ==> uuid.Some? && sys.tally[CancelOk(uuid.value)] >= 1
    {
      hide IsRun, Open, Update, DoCancel, Check, Find, LookUp, Deliveries, Report, Record, DoApply;
      ghost var req := Cancel(ref, uuid);
      Began(c, req);
      if ref == "" || uuid.None? { return Rejected(InvalidArgument); }
      var payout, refusal := ReadCancelable(c, req, uuid.value);
      if payout.None? { return refusal; }
      var answer, _, _ := CancelRead(c, req, payout.value, fails);
      resp := answer;
      if resp == Success { RunCancelCounted(trace, sys, c, uuid.value); }
    }

    // The read, and the check of the state that it finds.
    method ReadCancelable(ghost c: CallId, ghost req: Request, id: PayoutId)
      returns (payout: Option<Payout>, refusal: Response)
      requires Valid() && At(c, req, Checking(id))
      modifies this, store, orchestrator.tracker, orchestrator.directory
      ensures Valid() && old(trace) <= trace && refusal != Success && (payout.Some? ==> payout.value.id == id)
      ensures At(c, req, if payout.None? then Answered(refusal)
                         else if payout.value.provider != "" then Recalling(payout.value) else Canceling(id))
    {
      hide IsRun, Open, Update, DoCancel, Find, LookUp, Deliveries, Report, Record, DoApply;
      Others(c);
      var fate := AnyFate();
      var read := store.GetPayout(id, fate);
      Moved(c, Env(fate, 0, []));
      if read.ErrNotFound? { return None, Rejected(NotFound); }
      if !read.Ok? { return None, Rejected(Internal); }
      var isCancelable := IsCancelable(read.value.state);
      if !isCancelable { return None, Rejected(FailedPrecondition); }
      return Some(read.value), Rejected(Internal);
    }

    // The provider first, when there is one, and then the row, whatever the provider said. The client that is asked
    // is one that the registry, as it then is, has under the payout's provider.
    method CancelRead(ghost c: CallId, ghost req: Request, payout: Payout, fails: (Registry.ClientId, Payout) -> bool)
      returns (resp: Response, ghost rails: Registry.Rails, ghost asked: Option<Registry.ClientId>)
      requires Valid() && At(c, req, if payout.provider != "" then Recalling(payout) else Canceling(payout.id))
      modifies this, store, orchestrator.tracker, orchestrator.directory
      ensures Valid() && old(trace) <= trace && At(c, req, Answered(resp))
      ensures payout.provider != "" ==> Registry.CanReturn(rails, payout.provider, asked)
    {
      hide IsRun, Open, Update, Check, Find, LookUp, Deliveries, Report, DoCancel;
      rails, asked := map[], None;
      if payout.provider != "" {
        Others(c);
        rails := orchestrator.directory.rails;
        var _, client := orchestrator.CancelPayout(payout, fails);
        asked := client;
        Moved(c, Env(Acked, 0, []));
      }
      resp := CancelInStore(c, req, payout.id);
    }

    method CancelInStore(ghost c: CallId, ghost req: Request, id: PayoutId) returns (resp: Response)
      requires Valid() && At(c, req, Canceling(id))
      modifies this, store, orchestrator.tracker, orchestrator.directory
      ensures Valid() && old(trace) <= trace && At(c, req, Answered(resp))
    {
      hide IsRun, Open, Update, Check, Find, LookUp, Deliveries, Report;
      Others(c);
      var fate := AnyFate();
      var canceled := store.CancelPayout(id, CANCELABLE_STATES, fate);
      assert fate.Lost? || fate.Acked? || fate.Dropped?;
      Moved(c, Env(fate, 0, []));
      return if canceled.Ok? then Success else Rejected(Internal);
    }

    method IsCancelable(state: PayoutState) returns (isCancelable: bool)
      ensures isCancelable <==> state in CANCELABLE_STATES
    {
      isCancelable := false;
      for i := 0 to |CANCELABLE_STATES|
        invariant !isCancelable && forall j :: 0 <= j < i ==> CANCELABLE_STATES[j] != state
      {
        if state == CANCELABLE_STATES[i] {
          isCancelable := true;
          break;
        }
      }
    }

    /** ApplyProviderUpdate */
    method ApplyProviderUpdate(ghost c: CallId, ref: string, uuid: Option<PayoutId>, providerStatus: string)
      returns (resp: Response)
      requires Valid() && c !in sys.calls
      modifies this, store, orchestrator.tracker, orchestrator.directory
      ensures Valid() && old(trace) + [Begin(c, Apply(ref, uuid, providerStatus))] <= trace
      ensures At(c, Apply(ref, uuid, providerStatus), Answered(resp))
      ensures resp == Success ==>
        exists p, state :: Wrote(p, state) in sys.tally && StatusMeans(providerStatus, state)
    {
      hide IsRun, Open, DoCancel, Check, Find, LookUp, Deliveries, Report, UpdateRow, MapProviderStatus;
      ghost var req := Apply(ref, uuid, providerStatus);
      Began(c, req);
      if ref == "" { return Rejected(InvalidArgument); }
      var payout, failure := FindPayoutByExternalIDOrID(c, req, ref, uuid);
      if payout.None? { return failure; }
      var newState := MapProviderStatus(providerStatus);
      if newState.None? { return Rejected(InvalidArgument); }
      Others(c);
      var fate := AnyFate();
      var updated := store.UpdatePayoutState(payout.value.id, newState.value, payout.value.externalId,
        payout.value.provider, fate);
      Moved(c, Env(fate, 0, []));
      if updated.Ok? { RunUpdateWrote(trace, sys, c); }
      return if updated.Ok? then Success else Rejected(Internal);
    }

    /** findPayoutByExternalIDOrID: any error of the first lookup falls through to the second. */
    method FindPayoutByExternalIDOrID(ghost c: CallId, ghost req: Request, ref: string, uuid: Option<PayoutId>)
      returns (payout: Option<Payout>, failure: Response)
      requires Valid() && req.Apply? && req.ref == ref && req.uuid == uuid && At(c, req, Finding)
      modifies this, store, orchestrator.tracker, orchestrator.directory
      ensures Valid() && old(trace) <= trace
      ensures At(c, req, if payout.Some? then Found(payout.value, req.providerStatus) else Answered(failure))
      ensures failure != Success
    {
      hide IsRun, Open, DoCancel, Check, Update, Deliveries, Report, MapProviderStatus;
      failure := Rejected(NotFound);
      Others(c);
      RunHasUniqueRefs(trace, sys);
      var fate := AnyFate();
      var found := store.FindByExternalID(ref, fate);
      Moved(c, Env(fate, 0, []));
      if found.Ok? { return Some(found.value), failure; }
      if uuid.None? { return None, failure; }
      Others(c);
      fate := AnyFate();
      var read := store.GetPayout(uuid.value, fate);
      Moved(c, Env(fate, 0, []));
      if read.Ok? { return Some(read.value), failure; }
      return None, if read.ErrNotFound? then Rejected(NotFound) else Rejected(Internal);
    }
  }
}
