/** What the callers are told, in every run, in the terms of the requests and the rows themselves. */
module ProtocolAnswers {
  import opened Wrappers
  import opened PayoutDomain
  import opened PayoutTables
  import opened Fallback
  import opened PayoutProtocol
  import opened ProtocolInvariant
  import opened ProtocolTheorems
  import opened Finality

  const INVALID := Answered(Rejected(InvalidArgument))

  // ---------- every call stays with its request

  // A create is at one of its own points, and carries the order that was asked for; it was refused at once if
  // and only if it came without a key or a hash.
  ghost predicate CreateOnCourse(call: Call)
    requires call.req.Create?
  {
    var (req, at) := (call.req, call.at);
    && (at.Opening? || at.Replaying? || at.Sending? || at.Recording? ||
        (at.Answered? && (at.resp.Rejected? || at.resp.Accepted?)))
    && (at.Sending? || at.Recording? ==>
          at.payout == Payout(at.payout.id, Created, req.amountCents, req.currency, req.rail, "", None))
    && (at == INVALID <==> req.key == "" || req.hash == "")
  }

  // A cancel is on the payout that its UUID names; it was refused at once if and only if it came without one.
  ghost predicate CancelOnCourse(call: Call)
    requires call.req.Cancel?
  {
    var (req, at) := (call.req, call.at);
    && ((at.Checking? && req.uuid == Some(at.id)) || (at.Recalling? && req.uuid == Some(at.payout.id)) ||
        (at.Canceling? && req.uuid == Some(at.id)) ||
        (at.Answered? && (at.resp.Rejected? || at.resp.Success?)))
    && (at == INVALID <==> req.ref == "" || req.uuid.None?)
  }

  /** The state that a provider's status stands for. */
  predicate StatusMeans(status: string, state: PayoutState) {
    && state in {Completed, Failed, Canceled}
    && (state.Completed? <==> status == "payout_succeeded")
    && (state.Failed? <==> status == "payout_failed")
    && (state.Canceled? <==> status == "payout_canceled")
  }

  ghost predicate WroteItsStatus(tally: multiset<Event>, status: string) {
    exists p, state :: StatusMeans(status, state) && Wrote(p, state) in tally
  }

  // A provider update holds the state that its status stands for, and has written it when it has succeeded; it is
  // invalid only without a reference or with an unknown status.
  ghost predicate UpdateOnCourse(tally: multiset<Event>, call: Call)
    requires call.req.Apply?
  {
    var (req, at) := (call.req, call.at);
    && (at.Finding? || (at.LookingUp? && req.uuid == Some(at.id)) || at.Applying? ||
        (at.Answered? && (at.resp.Rejected? || at.resp.Success?)))
    && (at.Applying? ==> StatusMeans(req.providerStatus, at.newState))
    && (at == Answered(Success) ==> WroteItsStatus(tally, req.providerStatus))
    && (req.ref == "" ==> at == INVALID)
    && (at == INVALID ==> req.ref == "" || forall state :: !StatusMeans(req.providerStatus, state))
  }

  ghost predicate OnCourse(tally: multiset<Event>, call: Call) {
    match call.req
    case Create(_, _, _, _, _) => CreateOnCourse(call)
    case Cancel(_, _) => CancelOnCourse(call)
    case Apply(_, _, _) => UpdateOnCourse(tally, call)
  }

  ghost predicate AllOnCourse(s: Sys) {
    forall c :: c in s.calls ==> OnCourse(s.tally, s.calls[c])
  }

  lemma MappedStatus(status: string)
    ensures match MapProviderStatus(status)
            case Some(state) => StatusMeans(status, state)
            case None => forall state :: !StatusMeans(status, state)
  {
  }

  lemma CreateMoves(db: Db, call: Call, env: Env)
    requires call.req.Create? && CreateOnCourse(call)
    ensures CreateOnCourse(call.(at := Perform(db, call, env).at))
  {
    hide Update, InsertPayout, Deliveries, IsPass, Report;
    match call.at
    case Opening => OpenMoves(db, call.req, env);
    case _ =>
  }

  lemma OpenMoves(db: Db, req: Request, env: Env)
    requires req.Create?
    ensures var at := Open(db, req, env).at;
      && at != INVALID
      && (at.Replaying? || (at.Answered? && at.resp.Rejected?) ||
          at == Sending(Payout(env.newId, Created, req.amountCents, req.currency, req.rail, "", None)))
  {
    hide InsertPayout;
  }

  lemma CancelMoves(db: Db, call: Call, env: Env)
    requires call.req.Cancel? && CancelOnCourse(call)
    ensures CancelOnCourse(call.(at := Perform(db, call, env).at))
  {
    hide CancelRow;
  }

  lemma UpdateReads(db: Db, tally: multiset<Event>, call: Call, env: Env)
    requires call.req.Apply? && UpdateOnCourse(tally, call) && (call.at.Finding? || call.at.LookingUp?)
    ensures var e := Perform(db, call, env);
      e.db == db && e.at != Answered(Success) && UpdateOnCourse(tally, call.(at := e.at))
  {
    hide MapProviderStatus, StatusMeans, WroteItsStatus;
    MappedStatus(call.req.providerStatus);
  }

  // Only the write answers an update with success, and then it has taken effect.
  lemma UpdateWrites(db: Db, call: Call, env: Env)
    requires call.req.Apply? && call.at.Applying?
    ensures var (e, p) := (Perform(db, call, env), call.at.payout.id);
      && (e.at == Answered(Success) || e.at == Answered(Rejected(Internal)))
      && (e.at == Answered(Success) ==>
            env.fate.Acked? && Wrote(p, call.at.newState) in e.events &&
            p in e.db.payouts && e.db.payouts[p].state == call.at.newState)
  {
  }

  lemma UpdateMoves(db: Db, tally: multiset<Event>, call: Call, env: Env)
    requires call.req.Apply? && UpdateOnCourse(tally, call)
    ensures var e := Perform(db, call, env); UpdateOnCourse(tally + e.events, call.(at := e.at))
  {
    hide Perform, StatusMeans;
    if call.at.Finding? || call.at.LookingUp? {
      UpdateReads(db, tally, call, env);
      UpdateStays(tally, Perform(db, call, env).events, call.(at := Perform(db, call, env).at));
    } else if call.at.Applying? {
      UpdateWrites(db, call, env);
      var (p, state) := (call.at.payout.id, call.at.newState);
      assert Perform(db, call, env).at == Answered(Success) ==>
        Wrote(p, state) in tally + Perform(db, call, env).events;
    } else {
      AnsweredStays(db, call, env);
      assert tally + multiset{} == tally;
    }
  }

  lemma AnsweredStays(db: Db, call: Call, env: Env)
    requires call.at.Answered?
    ensures Perform(db, call, env) == Only(db, call.at)
  {
  }

  lemma UpdateStays(tally: multiset<Event>, events: multiset<Event>, call: Call)
    requires call.req.Apply? && UpdateOnCourse(tally, call)
    ensures UpdateOnCourse(tally + events, call)
  {
    hide StatusMeans;
    if call.at == Answered(Success) {
      var p, state :| StatusMeans(call.req.providerStatus, state) && Wrote(p, state) in tally;
      assert Wrote(p, state) in tally + events;
    }
  }

  lemma CallMoves(db: Db, tally: multiset<Event>, call: Call, env: Env)
    requires OnCourse(tally, call)
    ensures var e := Perform(db, call, env); OnCourse(tally + e.events, call.(at := e.at))
  {
    hide Perform, CreateOnCourse, CancelOnCourse, UpdateOnCourse;
    match call.req
    case Create(_, _, _, _, _) => CreateMoves(db, call, env);
    case Cancel(_, _) => CancelMoves(db, call, env);
    case Apply(_, _, _) => UpdateMoves(db, tally, call, env);
  }

  lemma CallStays(tally: multiset<Event>, events: multiset<Event>, call: Call)
    requires OnCourse(tally, call)
    ensures OnCourse(tally + events, call)
  {
    hide CreateOnCourse, CancelOnCourse, UpdateOnCourse;
    if call.req.Apply? { UpdateStays(tally, events, call); }
  }

  lemma CallBegins(tally: multiset<Event>, req: Request)
    ensures OnCourse(tally, Call(req, Start(req)))
  {
  }

  lemma NextOnCourse(s: Sys, a: Action)
    requires AllOnCourse(s)
    ensures AllOnCourse(Next(s, a))
  {
    hide OnCourse, Start, Perform;
    if a.Begin? {
      CallBegins(s.tally, a.req);
    } else if a.call in s.calls {
      var e := Perform(s.db, s.calls[a.call], a.env);
      CallMoves(s.db, s.tally, s.calls[a.call], a.env);
      forall c | c in s.calls ensures OnCourse(s.tally + e.events, s.calls[c]) {
        CallStays(s.tally, e.events, s.calls[c]);
      }
    }
  }

  lemma {:induction false} RunOnCourse(acts: seq<Action>)
    ensures AllOnCourse(After(acts))
  {
    hide OnCourse, Next;
    if acts != [] {
      RunOnCourse(acts[..|acts| - 1]);
      NextOnCourse(After(acts[..|acts| - 1]), acts[|acts| - 1]);
    }
  }

  // ---------- refused arguments

  /** Creates without a key or a hash, and cancels without a UUID that parses, are refused as invalid, and no others
      are; a provider update is refused as invalid without a reference, and otherwise only for an unknown status. */
  lemma InvalidIff(acts: seq<Action>, c: CallId)
    requires c in After(acts).calls
    ensures var (req, at) := (After(acts).calls[c].req, After(acts).calls[c].at);
      && (req.Create? ==> (at == INVALID <==> req.key == "" || req.hash == ""))
      && (req.Cancel? ==> (at == INVALID <==> req.ref == "" || req.uuid.None?))
      && (req.Apply? && req.ref == "" ==> at == INVALID)
      && (req.Apply? && at == INVALID && req.ref != "" ==>
            req.providerStatus !in {"payout_succeeded", "payout_failed", "payout_canceled"})
  {
    RunOnCourse(acts);
    var s := After(acts);
    assert OnCourse(s.tally, s.calls[c]);
    if s.calls[c].req.Apply? {
      MappedStatus(s.calls[c].req.providerStatus);
      assert StatusMeans("payout_succeeded", Completed) && StatusMeans("payout_failed", Failed);
      assert StatusMeans("payout_canceled", Canceled);
    }
  }

  // ---------- provider updates

  /** What an update is about to write, and what one of its steps writes, is the state that its status names: no
      other row and nothing else of the row but what the snapshot held. */
  lemma UpdateWritesItsStatus(acts: seq<Action>, c: CallId, env: Env)
    requires c in After(acts).calls && After(acts).calls[c].req.Apply?
    ensures var (s, s') := (After(acts), Next(After(acts), Step(c, env)));
      var (status, at) := (s.calls[c].req.providerStatus, s.calls[c].at);
      && (at.Applying? ==>
            && (at.newState == Completed <==> status == "payout_succeeded")
            && (at.newState == Failed <==> status == "payout_failed")
            && (at.newState == Canceled <==> status == "payout_canceled")
            && at.newState in {Completed, Failed, Canceled})
      && (s'.db != s.db ==>
            && at.Applying? && at.payout.id in s.db.payouts
            && var row := s.db.payouts[at.payout.id];
               s'.db == s.db.(payouts := s.db.payouts[at.payout.id :=
                 row.(state := at.newState, externalId := at.payout.externalId,
                      provider := if at.payout.provider == "" then None else Some(at.payout.provider))]))
      && (s'.calls[c].at == Answered(Success) && at != Answered(Success) ==>
            at.Applying? && at.payout.id in s'.db.payouts && s'.db.payouts[at.payout.id].state == at.newState)
  {
    RunOnCourse(acts);
    var s := After(acts);
    assert OnCourse(s.tally, s.calls[c]);
    UpdateStepCases(s.db, s.tally, s.calls[c], env);
    hide Perform, Exec;
  }

  lemma UpdateStepCases(db: Db, tally: multiset<Event>, call: Call, env: Env)
    requires call.req.Apply? && UpdateOnCourse(tally, call)
    ensures var (e, at) := (Perform(db, call, env), call.at);
      && (e.db != db ==>
            && at.Applying? && at.payout.id in db.payouts
            && var row := db.payouts[at.payout.id];
               e.db == db.(payouts := db.payouts[at.payout.id :=
                 row.(state := at.newState, externalId := at.payout.externalId,
                      provider := if at.payout.provider == "" then None else Some(at.payout.provider))]))
      && (e.at == Answered(Success) && at != Answered(Success) ==>
            at.Applying? && at.payout.id in e.db.payouts && e.db.payouts[at.payout.id].state == at.newState)
  {
    if call.at.Finding? || call.at.LookingUp? {
      UpdateReads(db, tally, call, env);
      hide Perform;
    } else if call.at.Applying? {
      UpdateWrites(db, call, env);
      var at := call.at;
      if at.payout.id in db.payouts {
        UpdateCases(db, at.payout.id, at.newState, at.payout.externalId, at.payout.provider, env.fate);
      }
    }
  }

  /** An update with any other status is never answered with success, and none of its steps writes anything. */
  lemma UnknownStatusDoesNothing(acts: seq<Action>, c: CallId, env: Env)
    requires c in After(acts).calls && After(acts).calls[c].req.Apply?
    requires After(acts).calls[c].req.providerStatus !in {"payout_succeeded", "payout_failed", "payout_canceled"}
    ensures After(acts).calls[c].at != Answered(Success) && !After(acts).calls[c].at.Applying?
    ensures Next(After(acts), Step(c, env)).db == After(acts).db
  {
    RunOnCourse(acts);
    var s := After(acts);
    assert OnCourse(s.tally, s.calls[c]);
    UpdateStepCases(s.db, s.tally, s.calls[c], env);
    hide Perform, Exec;
  }

  /** An update that was answered with success has written the state that its status names. */
  lemma SuccessfulUpdateWrote(acts: seq<Action>, c: CallId)
    requires c in After(acts).calls && After(acts).calls[c].req.Apply? && After(acts).calls[c].at == Answered(Success)
    ensures var (s, status) := (After(acts), After(acts).calls[c].req.providerStatus);
      exists p, state :: Wrote(p, state) in s.tally && p in s.db.payouts &&
        ((status == "payout_succeeded" && state == Completed) || (status == "payout_failed" && state == Failed) ||
         (status == "payout_canceled" && state == Canceled))
  {
    RunOnCourse(acts);
    RunKeepsInv(acts);
    var s := After(acts);
    assert OnCourse(s.tally, s.calls[c]);
    var p, state :| StatusMeans(s.calls[c].req.providerStatus, state) && Wrote(p, state) in s.tally;
    assert Known(s.db, Wrote(p, state));
  }

  // The first lookup of an update.
  ghost predicate FindsByRef(db: Db, req: Request, env: Env)
    requires req.Apply?
  {
    env.fate.Acked? && exists p :: p in db.payouts && db.payouts[p].externalId == Some(req.ref)
  }

  // The snapshot of p, or a status that is not known.
  predicate Resolved(db: Db, to: Point, p: PayoutId) {
    p in db.payouts && (to == INVALID || (to.Applying? && to.payout == ToDomain(p, db.payouts[p])))
  }

  lemma FindCase(db: Db, call: Call, env: Env)
    requires call.req.Apply? && call.at.Finding?
    ensures var to := Perform(db, call, env).at;
      if FindsByRef(db, call.req, env)
      then exists p :: Resolved(db, to, p) && db.payouts[p].externalId == Some(call.req.ref)
      else to == if call.req.uuid.None? then Answered(Rejected(NotFound)) else LookingUp(call.req.uuid.value)
  {
    hide MapProviderStatus;
    if FindsByRef(db, call.req, env) {
      var p := FindByRef(db, call.req.ref).value;
      assert Resolved(db, Perform(db, call, env).at, p);
    }
  }

  lemma LookUpCase(db: Db, call: Call, env: Env)
    requires call.req.Apply? && call.at.LookingUp?
    ensures var to := Perform(db, call, env).at;
      if !env.fate.Acked? then to == Answered(Rejected(Internal))
      else if call.at.id !in db.payouts then to == Answered(Rejected(NotFound))
      else Resolved(db, to, call.at.id)
  {
    hide MapProviderStatus;
  }

  /** How an update resolves its payout: by the external id where the read works and finds one, otherwise by the UUID
      where there is one; it is not found when neither is, and a failed second read is an internal error. */
  lemma UpdateResolves(acts: seq<Action>, c: CallId, env: Env)
    requires c in After(acts).calls && After(acts).calls[c].req.Apply?
    ensures var (db, call, to) := (After(acts).db, After(acts).calls[c], Next(After(acts), Step(c, env)).calls[c].at);
      && (call.at.Finding? ==>
            if FindsByRef(db, call.req, env)
            then exists p :: Resolved(db, to, p) && db.payouts[p].externalId == Some(call.req.ref)
            else to == if call.req.uuid.None? then Answered(Rejected(NotFound)) else LookingUp(call.req.uuid.value))
      && (call.at.LookingUp? ==>
            && call.req.uuid == Some(call.at.id)
            && if !env.fate.Acked? then to == Answered(Rejected(Internal))
               else if call.at.id !in db.payouts then to == Answered(Rejected(NotFound))
               else Resolved(db, to, call.at.id))
  {
    var s := After(acts);
    RunOnCourse(acts);
    assert OnCourse(s.tally, s.calls[c]);
    hide Exec, Next, Perform, Resolved, FindsByRef;
    CallsAfter(s, Step(c, env));
    if s.calls[c].at.Finding? { FindCase(s.db, s.calls[c], env); }
    if s.calls[c].at.LookingUp? { LookUpCase(s.db, s.calls[c], env); }
  }

  // ---------- cancels

  /** The cancels of p that have been answered with success. */
  ghost function Succeeded(s: Sys, p: PayoutId): set<CallId> {
    set c |
      c in s.calls && s.calls[c].req.Cancel? && s.calls[c].req.uuid == Some(p) && s.calls[c].at == Answered(Success)
  }

  /** What a cancel's step does: it is answered with success exactly when its write takes a row from a cancelable
      state to canceled, and only then is the success counted. */
  lemma CancelStep(db: Db, call: Call, env: Env)
    requires call.req.Cancel? && CancelOnCourse(call) && !call.at.Answered?
    ensures var (e, p) := (Perform(db, call, env), call.req.uuid.value);
      && (e.at == Answered(Success) <==>
            call.at.Canceling? && env.fate.Acked? &&
            p in db.payouts && db.payouts[p].state in {Created, Queued, Sent, Pending})
      && (e.at == Answered(Success) ==> e.db == db.(payouts := db.payouts[p := db.payouts[p].(state := Canceled)]))
      && (forall q :: e.events[CancelOk(q)] == if e.at == Answered(Success) && q == p then 1 else 0)
  {
    hide UpdateRow;
  }

  lemma NoCancelCounted(db: Db, call: Call, env: Env, p: PayoutId)
    requires !call.at.Canceling?
    ensures Perform(db, call, env).events[CancelOk(p)] == 0
  {
    hide UpdateRow, InsertPayout, Deliveries, Report, IsPass;
    if call.at.Sending? && call.req.Create? && IsPass(env.attempts) {
      PassDeliversOnce(call.req.key, call.at.payout.id, env.attempts);
    }
  }

  lemma CallStepCounts(s: Sys, a: Action, p: PayoutId)
    requires StepOf(s, a, a.call) && OnCourse(s.tally, s.calls[a.call])
    ensures var e := Perform(s.db, s.calls[a.call], a.env);
      && (a.call in Succeeded(s, p) ==> a.call in Succeeded(Next(s, a), p) && e.events[CancelOk(p)] == 0)
      && (a.call !in Succeeded(s, p) ==>
            e.events[CancelOk(p)] == if a.call in Succeeded(Next(s, a), p) then 1 else 0)
  {
    var call := s.calls[a.call];
    if !call.req.Cancel? {
      assert !call.at.Canceling?;
      NoCancelCounted(s.db, call, a.env, p);
    } else if call.at.Answered? {
      AnsweredStays(s.db, call, a.env);
    } else {
      CancelStep(s.db, call, a.env);
    }
    hide Perform;
  }

  lemma NextCountsSuccesses(s: Sys, a: Action, p: PayoutId)
    requires AllOnCourse(s) && |Succeeded(s, p)| == s.tally[CancelOk(p)]
    ensures |Succeeded(Next(s, a), p)| == Next(s, a).tally[CancelOk(p)]
  {
    hide OnCourse, Perform;
    if a.Begin? {
      StartsUnanswered(a.req);
      hide Start;
      assert Succeeded(Next(s, a), p) == Succeeded(s, p);
    } else if a.call in s.calls {
      CallStepCounts(s, a, p);
      var e := Perform(s.db, s.calls[a.call], a.env);
      assert Next(s, a).tally[CancelOk(p)] == s.tally[CancelOk(p)] + e.events[CancelOk(p)];
      if a.call in Succeeded(Next(s, a), p) && a.call !in Succeeded(s, p) {
        assert Succeeded(Next(s, a), p) == Succeeded(s, p) + {a.call};
      } else {
        assert Succeeded(Next(s, a), p) == Succeeded(s, p);
      }
    }
  }

  lemma StartsUnanswered(req: Request)
    ensures Start(req) != Answered(Success)
  {
  }

  /** In every run the cancels of a payout that were answered with success are exactly the ones counted. */
  lemma {:induction false} SuccessesAreCounted(acts: seq<Action>, p: PayoutId)
    ensures |Succeeded(After(acts), p)| == After(acts).tally[CancelOk(p)]
  {
    hide Next, Succeeded, OnCourse;
    if acts == [] {
      NobodyYet(p);
    } else {
      SuccessesAreCounted(acts[..|acts| - 1], p);
      RunOnCourse(acts[..|acts| - 1]);
      NextCountsSuccesses(After(acts[..|acts| - 1]), acts[|acts| - 1], p);
    }
  }

  lemma NobodyYet(p: PayoutId)
    ensures Succeeded(INIT, p) == {} && INIT.tally[CancelOk(p)] == 0
  {
  }

  /** However many CancelPayout calls race on a payout, at most two of them are ever answered with success, and one
      only unless it was recorded as sent in between. */
  lemma AtMostTwoCancelsSucceed(acts: seq<Action>, p: PayoutId)
    ensures |Succeeded(After(acts), p)| <= 1 + After(acts).tally[Wrote(p, Sent)] <= 2
  {
    SuccessesAreCounted(acts, p);
    AtMostTwoCancels(acts, p);
  }

  predicate Reached(row: Row) {
    row.state in {Created, Sent, Completed, Failed, Canceled}
  }

  lemma CancelReadCase(db: Db, call: Call, env: Env)
    requires call.at.Checking? && (call.at.id in db.payouts ==> Reached(db.payouts[call.at.id]))
    ensures Perform(db, call, env).db == db && CancelRead(db, call.at.id, env, Perform(db, call, env).at)
  {
  }

  // No row, a row past canceling, a failed read; or a created or sent row, whose provider is then asked.
  predicate CancelRead(db: Db, p: PayoutId, env: Env, to: Point) {
    if !env.fate.Acked? then to == Answered(Rejected(Internal))
    else if p !in db.payouts then to == Answered(Rejected(NotFound))
    else if db.payouts[p].state in {Completed, Failed, Canceled} then to == Answered(Rejected(FailedPrecondition))
    else
      && db.payouts[p].state in {Created, Sent}
      && to == if db.payouts[p].provider in {None, Some("")} then Canceling(p)
               else Recalling(ToDomain(p, db.payouts[p]))
  }

  lemma RowsAreReached(acts: seq<Action>, p: PayoutId)
    requires p in After(acts).db.payouts
    ensures Reached(After(acts).db.payouts[p])
  {
    RunKeepsInv(acts);
    assert RowInv(After(acts).db.payouts[p]);
  }

  /** What a cancel finds when it reads, in every reachable state: an absent row is not found; a row that is completed,
      failed or canceled fails the precondition; a failed read is internal; and from a created or sent row it goes on,
      asking its provider where there is one. Nothing is written. */
  lemma CancelReads(acts: seq<Action>, c: CallId, env: Env)
    requires c in After(acts).calls && After(acts).calls[c].req.Cancel? && After(acts).calls[c].at.Checking?
    ensures var (s, s', p) := (After(acts), Next(After(acts), Step(c, env)), After(acts).calls[c].at.id);
      After(acts).calls[c].req.uuid == Some(p) && s'.db == s.db && CancelRead(s.db, p, env, s'.calls[c].at)
  {
    var s := After(acts);
    RunOnCourse(acts);
    assert OnCourse(s.tally, s.calls[c]);
    hide Exec, Next, Perform, CancelRead, Reached;
    if s.calls[c].at.id in s.db.payouts { RowsAreReached(acts, s.calls[c].at.id); }
    CancelReadCase(s.db, s.calls[c], env);
    CallsAfter(s, Step(c, env));
  }

  lemma CancelWriteCase(db: Db, call: Call, env: Env)
    requires call.at.Canceling? && (call.at.id in db.payouts ==> Reached(db.payouts[call.at.id]))
    ensures var (e, p) := (Perform(db, call, env), call.at.id);
      var cancelable := p in db.payouts && db.payouts[p].state in {Created, Sent};
      && e.at == Answered(if env.fate.Acked? && cancelable then Success else Rejected(Internal))
      && e.db == (if !env.fate.Dropped? && cancelable
                  then db.(payouts := db.payouts[p := db.payouts[p].(state := Canceled)]) else db)
  {
  }

  /** A cancel is answered with success exactly when its write is acknowledged and takes the row from created or sent
      to canceled. A write that fails, is lost, or finds the row in another state is an internal error. */
  lemma CancelWrites(acts: seq<Action>, c: CallId, env: Env)
    requires c in After(acts).calls && After(acts).calls[c].req.Cancel? && After(acts).calls[c].at.Canceling?
    ensures var (s, s', p) := (After(acts), Next(After(acts), Step(c, env)), After(acts).calls[c].at.id);
      var cancelable := p in s.db.payouts && s.db.payouts[p].state in {Created, Sent};
      && After(acts).calls[c].req.uuid == Some(p)
      && s'.calls[c].at == Answered(if env.fate.Acked? && cancelable then Success else Rejected(Internal))
      && s'.db == (if !env.fate.Dropped? && cancelable
                   then s.db.(payouts := s.db.payouts[p := s.db.payouts[p].(state := Canceled)]) else s.db)
  {
    var s := After(acts);
    RunOnCourse(acts);
    assert OnCourse(s.tally, s.calls[c]);
    hide Exec, Next, Perform, Reached;
    if s.calls[c].at.id in s.db.payouts { RowsAreReached(acts, s.calls[c].at.id); }
    CancelWriteCase(s.db, s.calls[c], env);
    CallsAfter(s, Step(c, env));
  }

  // ---------- creates

  /** A create that is to be sent, or recorded, carries the order that was asked for, which is the one its row holds. */
  lemma SenderHoldsOrder(acts: seq<Action>, c: CallId)
    requires c in After(acts).calls && IsSender(After(acts).calls[c].at)
    ensures var (s, req, payout) := (After(acts), After(acts).calls[c].req, After(acts).calls[c].at.payout);
      && req.Create?
      && payout == Payout(payout.id, Created, req.amountCents, req.currency, req.rail, "", None)
  {
    RunOnCourse(acts);
    assert OnCourse(After(acts).tally, After(acts).calls[c]);
  }

  /** The transaction of a create whose key is free: it commits, and the send phase begins, exactly when the amount is
      positive, the rail is card or crypto, the new id is free and the database says so. Anything else is an internal
      error. */
  lemma FreeKeyOpens(acts: seq<Action>, c: CallId, env: Env)
    requires c in After(acts).calls && After(acts).calls[c].at.Opening? && After(acts).calls[c].req.Create?
    requires After(acts).calls[c].req.key !in After(acts).db.keys
    ensures var (s, s', req) := (After(acts), Next(After(acts), Step(c, env)), After(acts).calls[c].req);
      var valid := req.amountCents > 0 && req.rail in {"card", "crypto"} && env.newId !in s.db.payouts;
      && (if valid && !env.fate.Dropped?
          then s'.db == Db(s.db.payouts[env.newId := Row(Created, req.amountCents, req.currency, req.rail, None, None)],
                           s.db.keys[req.key := KeyRow(req.hash, env.newId)])
          else s'.db == s.db)
      && (if valid && env.fate.Acked? then s'.calls[c].at.Sending? else s'.calls[c].at == Answered(Rejected(Internal)))
  {
    hide Exec;
  }

  /** Every row that there is, in every run, is for a positive amount, on rail card or crypto, and with provider
      stripe, crypto_sim or none. */
  lemma RowsAreChecked(acts: seq<Action>, p: PayoutId)
    requires p in After(acts).db.payouts
    ensures var row := After(acts).db.payouts[p];
      && row.amountCents > 0 && row.rail in {"card", "crypto"}
      && row.provider in {None, Some("stripe"), Some("crypto_sim")}
  {
    RunKeepsInv(acts);
    assert RowInv(After(acts).db.payouts[p]);
  }

  lemma FailedRecordCase(db: Db, call: Call, env: Env)
    requires call.at.Recording? && !call.at.result.success && call.at.payout.state.Created?
    requires call.at.payout.id in db.payouts && Checked(db.payouts[call.at.payout.id])
    ensures FailedRecord(db, call.at.payout.id, call.at.result.triedProviders, env, Perform(db, call, env))
  {
  }

  // Failed, without a reference, with the provider tried last, unless the CHECK or the database refuses.
  predicate FailedRecord(db: Db, p: PayoutId, tried: seq<string>, env: Env, e: Effect)
    requires p in db.payouts
  {
    var last := if tried == [] || tried[|tried| - 1] == "" then None else Some(tried[|tried| - 1]);
    var recorded := !env.fate.Dropped? && last in {None, Some("stripe"), Some("crypto_sim")};
    var row := db.payouts[p].(state := Failed, externalId := None, provider := last);
    && e.db == (if recorded then db.(payouts := db.payouts[p := row]) else db)
    && e.at == Answered(Accepted(p, if recorded && env.fate.Acked? then Failed else Created))
  }

  // What a call in its send phase holds.
  lemma RecorderHolds(acts: seq<Action>, c: CallId)
    requires c in After(acts).calls && After(acts).calls[c].at.Recording?
    ensures var (db, payout) := (After(acts).db, After(acts).calls[c].at.payout);
      payout.state.Created? && payout.id in db.payouts && Checked(db.payouts[payout.id])
  {
    RunKeepsInv(acts);
    var s := After(acts);
    assert PointInv(s.db, s.tally, s.calls[c].req, s.calls[c].at);
    assert RowInv(s.db.payouts[s.calls[c].at.payout.id]);
  }

  /** What is recorded of a pass that failed: the payout is failed, without a reference, with the provider that was
      tried last, if and only if the database does not fail and the CHECK admits that provider; otherwise nothing is
      written. The client is told `failed` exactly when it was recorded and the reply arrived, and `created`
      otherwise. */
  lemma FailedPassIsRecordedIff(acts: seq<Action>, c: CallId, env: Env)
    requires c in After(acts).calls && After(acts).calls[c].at.Recording? && !After(acts).calls[c].at.result.success
    ensures var (s, s', at) := (After(acts), Next(After(acts), Step(c, env)), After(acts).calls[c].at);
      var (p, tried) := (at.payout.id, at.result.triedProviders);
      p in s.db.payouts && FailedRecord(s.db, p, tried, env, Effect(s'.db, s'.calls[c].at, multiset{}))
  {
    var s := After(acts);
    RecorderHolds(acts, c);
    hide Exec, Next, Perform, Checked;
    FailedRecordCase(s.db, s.calls[c], env);
    CallsAfter(s, Step(c, env));
  }

  // The CHECK and the UNIQUE constraint admit what the pass came to.
  ghost predicate Admitted(db: Db, p: PayoutId, r: SendResult) {
    if r.success then
      && r.usedProvider in {"", "stripe", "crypto_sim"}
      && forall q :: q in db.payouts && q != p ==> db.payouts[q].externalId != Some(r.externalId)
    else r.triedProviders == [] || r.triedProviders[|r.triedProviders| - 1] in {"", "stripe", "crypto_sim"}
  }

  lemma RecordCase(db: Db, call: Call, env: Env)
    requires call.at.Recording? && call.at.payout.state.Created?
    requires call.at.payout.id in db.payouts && Checked(db.payouts[call.at.payout.id])
    ensures var (e, p, r) := (Perform(db, call, env), call.at.payout.id, call.at.result);
      var taken := Admitted(db, p, r) && !env.fate.Dropped?;
      && p in e.db.payouts
      && (taken ==> e.db.payouts[p].state == if r.success then Sent else Failed)
      && (!taken ==> e.db == db)
      && e.at == Answered(Accepted(p, if taken && env.fate.Acked? then e.db.payouts[p].state else Created))
  {
  }

  lemma ReplayCase(db: Db, call: Call, env: Env)
    requires call.at.Replaying?
    ensures var (e, p) := (Perform(db, call, env), call.at.existing);
      && e.db == db
      && e.at == Answered(if env.fate.Acked? && p in db.payouts then Accepted(p, db.payouts[p].state)
                          else Rejected(Internal))
  {
  }

  // Only the record of a send and the replay answer a create with a payout.
  lemma AcceptedAnswers(db: Db, call: Call, env: Env)
    requires call.req.Create? && CreateOnCourse(call) && !call.at.Answered?
    requires Perform(db, call, env).at.Answered? && Perform(db, call, env).at.resp.Accepted?
    ensures call.at.Recording? || call.at.Replaying?
  {
    if call.at.Opening? { OpenMoves(db, call.req, env); }
    hide Update, Open;
  }

  /** What a create that is answered with a payout is told: as a replay, the state that the row has; after its own
      send, the state that the row has now, sent or failed, if the record was admitted and its reply arrived, and
      `created` otherwise. */
  lemma CreateIsToldItsState(acts: seq<Action>, c: CallId, env: Env)
    requires c in After(acts).calls && After(acts).calls[c].req.Create? && !After(acts).calls[c].at.Answered?
    requires var to := Next(After(acts), Step(c, env)).calls[c].at; to.Answered? && to.resp.Accepted?
    ensures var (s, s', at) := (After(acts), Next(After(acts), Step(c, env)), After(acts).calls[c].at);
      var Accepted(p, status) := s'.calls[c].at.resp;
      && p in s'.db.payouts
      && (at.Replaying? || at.Recording?)
      && (at.Replaying? ==> status == s'.db.payouts[p].state && s'.db == s.db)
      && (at.Recording? ==>
            && p == at.payout.id
            && status == (if env.fate.Acked? && Admitted(s.db, p, at.result) then s'.db.payouts[p].state else Created)
            && (status == Created || status == if at.result.success then Sent else Failed))
  {
    var (s, a) := (After(acts), Step(c, env));
    RunOnCourse(acts);
    assert OnCourse(s.tally, s.calls[c]);
    hide Exec, Next, Perform, Admitted, Checked;
    CallsAfter(s, a);
    AcceptedAnswers(s.db, s.calls[c], env);
    if s.calls[c].at.Recording? {
      RecorderHolds(acts, c);
      RecordCase(s.db, s.calls[c], env);
    } else {
      ReplayCase(s.db, s.calls[c], env);
    }
  }

  /** A replay: the payout of the key entry and the state that its row has, or an internal error when the read fails. */
  lemma ReplayIsToldItsState(acts: seq<Action>, c: CallId, env: Env)
    requires c in After(acts).calls && After(acts).calls[c].at.Replaying?
    ensures var (s, s', p) := (After(acts), Next(After(acts), Step(c, env)), After(acts).calls[c].at.existing);
      && p in s.db.payouts && s.calls[c].req.Create?
      && s.calls[c].req.key in s.db.keys && s.db.keys[s.calls[c].req.key].payout == p
      && s'.db == s.db
      && s'.calls[c].at ==
           Answered(if env.fate.Acked? then Accepted(p, s.db.payouts[p].state) else Rejected(Internal))
  {
    var s := After(acts);
    ReplayerHolds(acts, c);
    hide Exec, Next, Perform;
    ReplayCase(s.db, s.calls[c], env);
    CallsAfter(s, Step(c, env));
  }

  lemma ReplayerHolds(acts: seq<Action>, c: CallId)
    requires c in After(acts).calls && After(acts).calls[c].at.Replaying?
    ensures var (s, p) := (After(acts), After(acts).calls[c].at.existing);
      && p in s.db.payouts && s.calls[c].req.Create?
      && s.calls[c].req.key in s.db.keys && s.db.keys[s.calls[c].req.key].payout == p
  {
    RunKeepsInv(acts);
    var s := After(acts);
    assert PointInv(s.db, s.tally, s.calls[c].req, s.calls[c].at);
  }
}
