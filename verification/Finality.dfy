/** No state is final. "Canceled" is not: a send that was pending when the payout was canceled still writes its
    outcome, and so does a provider update that is under way; "completed" and "failed" are no better off. This
    module says exactly when a payout stays in such a state, unless a new provider update begins. */
module Finality {
  import opened Wrappers
  import opened PayoutDomain
  import opened PayoutTables
  import opened Fallback
  import opened PayoutProtocol
  import opened ProtocolInvariant
  import opened ProtocolTheorems

  // No provider update begins; those under way go on.
  predicate NoUpdates(acts: seq<Action>) {
    forall a :: a in acts && a.Begin? ==> !a.req.Apply?
  }

  ghost predicate InState(s: Sys, p: PayoutId, end: PayoutState) {
    p in s.db.payouts && s.db.payouts[p].state == end
  }

  // The states that a payout is meant to end in.
  predicate Ending(end: PayoutState) {
    end in {Canceled, Completed, Failed}
  }

  ghost predicate StaysIn(s: Sys, p: PayoutId, end: PayoutState) {
    forall more :: NoUpdates(more) ==> InState(Exec(s, more), p, end)
  }

  // ---------- the calls that can still take p out of its state

  // A provider update is about to overwrite q from a snapshot without a reference.
  ghost predicate Blanking(s: Sys, q: PayoutId) {
    exists c :: c in s.calls && BlankAt(s.calls[c].at, q)
  }

  predicate BlankAt(at: Point, q: PayoutId) {
    at.Applying? && at.payout.id == q && at.payout.externalId.None?
  }

  // No other payout holds the reference, or the one that does is about to lose it.
  ghost predicate Obtainable(s: Sys, p: PayoutId, ref: Option<string>) {
    ref.Some? ==>
      forall q :: q in s.db.payouts && q != p && s.db.payouts[q].externalId == ref ==> Blanking(s, q)
  }

  predicate RestoresAt(at: Point, p: PayoutId, ref: string) {
    at.Applying? && at.payout.id == p && at.payout.externalId == Some(ref)
  }

  // p can be found by the reference, now or after a provider update under way has restored it.
  ghost predicate Findable(s: Sys, p: PayoutId, ref: string)
    requires p in s.db.payouts
  {
    || s.db.payouts[p].externalId == Some(ref)
    || (Obtainable(s, p, Some(ref)) && exists d :: d in s.calls && RestoresAt(s.calls[d].at, p, ref))
  }

  predicate Overrides(req: Request, end: PayoutState) {
    && req.Apply? && MapProviderStatus(req.providerStatus).Some?
    && MapProviderStatus(req.providerStatus).value != end
  }

  /** Call c can still take p out of this state: it is about to send p, or to record another outcome that the
      database takes or can come to take, or it is a provider update to another state that has read p or will find
      it. */
  ghost predicate Threatens(s: Sys, c: CallId, p: PayoutId, end: PayoutState)
    requires c in s.calls && p in s.db.payouts
  {
    var req := s.calls[c].req;
    match s.calls[c].at
    case Sending(payout) => payout.id == p
    case Recording(payout, result) =>
      && payout.id == p && RecordedState(result) != end
      && Listed(RecordedProvider(result)) && Obtainable(s, p, RecordedRef(result))
    case Applying(payout, newState) =>
      payout.id == p && newState != end && Obtainable(s, p, payout.externalId)
    case LookingUp(id) => id == p && Overrides(req, end)
    case Finding => Overrides(req, end) && (req.uuid == Some(p) || Findable(s, p, req.ref))
    case _ => false
  }

  ghost predicate Settled(s: Sys, p: PayoutId, end: PayoutState)
    requires p in s.db.payouts
  {
    forall c :: c in s.calls ==> !Threatens(s, c, p, end)
  }

  // ---------- settled, so it stays

  ghost predicate Quiet(s: Sys, p: PayoutId, end: PayoutState) {
    Ending(end) && Inv(s) && InState(s, p, end) && Settled(s, p, end)
  }

  // A snapshot is the row as it was found, by reference or by id.
  lemma SnapshotIsRow(db: Db, call: Call, env: Env)
    requires !call.at.Applying? && Perform(db, call, env).at.Applying?
    ensures var at := Perform(db, call, env).at; var p := at.payout.id;
      && p in db.payouts && at.payout == ToDomain(p, db.payouts[p])
      && call.req.Apply? && MapProviderStatus(call.req.providerStatus) == Some(at.newState)
      && ((call.at.LookingUp? && call.at.id == p) ||
          (call.at.Finding? && db.payouts[p].externalId == Some(call.req.ref)))
  {
    hide Update, MapProviderStatus, Deliveries;
    match call.at
    case Opening => if call.req.Create? { OpenStaysFresh(db, call.req, env); }
    case Canceling(id) => CancelCases(db, id, env.fate);
    case Finding =>
    case LookingUp(_) =>
    case _ =>
  }

  // A reference whose holder no blank snapshot threatens stays with its holder.
  lemma HeldForGood(s: Sys, a: Action, q: PayoutId)
    requires Inv(s) && q in s.db.payouts && s.db.payouts[q].externalId.Some? && !Blanking(s, q)
    ensures q in Next(s, a).db.payouts && Next(s, a).db.payouts[q].externalId == s.db.payouts[q].externalId
    ensures !Blanking(Next(s, a), q)
  {
    hide Inv, Perform;
    ErasesIff(s, a, q);
    if a.Step? && a.call in s.calls {
      var at := Perform(s.db, s.calls[a.call], a.env).at;
      assert !BlankAt(s.calls[a.call].at, q);
      if BlankAt(at, q) {
        if s.calls[a.call].at.Applying? {
          ApplyingEnds(s.db, s.calls[a.call], a.env);
        } else {
          SnapshotIsRow(s.db, s.calls[a.call], a.env);
        }
      }
    }
  }

  lemma ApplyingEnds(db: Db, call: Call, env: Env)
    requires call.at.Applying?
    ensures Perform(db, call, env).at.Answered?
  {
  }

  lemma NothingBecomesObtainable(s: Sys, a: Action, p: PayoutId, ref: Option<string>)
    requires Inv(s) && Obtainable(Next(s, a), p, ref)
    ensures Obtainable(s, p, ref)
  {
    hide Next, Inv, Blanking;
    forall q | ref.Some? && q in s.db.payouts && q != p && s.db.payouts[q].externalId == ref ensures Blanking(s, q) {
      if !Blanking(s, q) { HeldForGood(s, a, q); }
    }
  }

  // What a call that is about to write p, and is no threat, can do to it: nothing, or record another failure.
  lemma HarmlessRecord(s: Sys, a: Action, p: PayoutId, end: PayoutState)
    requires Quiet(s, p, end) && StepOf(s, a, a.call)
    requires s.calls[a.call].at.Recording? && s.calls[a.call].at.payout.id == p
    ensures InState(Next(s, a), p, end)
    ensures Next(s, a).db == s.db || Next(s, a).db.payouts[p].externalId.None?
  {
    var r := s.calls[a.call].at.result;
    assert !Threatens(s, a.call, p, end);
    RefFreeIsObtainable(s, p, RecordedRef(r));
    hide Inv, UpdateRow, Obtainable, RefFree;
    if RecordedState(r) == end {
      UpdateCases(s.db, p, RecordedState(r), RecordedRef(r), RecordedProvider(r), a.env.fate);
    } else {
      UpdateIsRefused(s.db, p, RecordedState(r), RecordedRef(r), RecordedProvider(r), a.env.fate);
    }
  }

  lemma HarmlessUpdate(s: Sys, a: Action, p: PayoutId, end: PayoutState)
    requires Quiet(s, p, end) && StepOf(s, a, a.call)
    requires s.calls[a.call].at.Applying? && s.calls[a.call].at.payout.id == p
    ensures InState(Next(s, a), p, end)
  {
    var at := s.calls[a.call].at;
    assert !Threatens(s, a.call, p, end);
    RefFreeIsObtainable(s, p, at.payout.externalId);
    hide Inv, Obtainable;
    RefusedUnlessFree(s, a);
    if at.newState == end {
      UpdateCases(s.db, p, at.newState, at.payout.externalId, at.payout.provider, a.env.fate);
    }
    hide UpdateRow, RefFree;
  }

  lemma HarmlessWrite(s: Sys, a: Action, p: PayoutId, end: PayoutState)
    requires Quiet(s, p, end) && StepOf(s, a, a.call) && IsWriter(s.calls[a.call].at) && Target(s.calls[a.call].at) == p
    ensures InState(Next(s, a), p, end)
    ensures s.calls[a.call].at.Recording? ==> Next(s, a).db == s.db || Next(s, a).db.payouts[p].externalId.None?
  {
    hide Inv, Settled, Next;
    match s.calls[a.call].at
    case Recording(_, _) => HarmlessRecord(s, a, p, end);
    case Applying(_, _) => HarmlessUpdate(s, a, p, end);
    case Canceling(_) => HarmlessCancel(s, a, p, end);
  }

  lemma HarmlessCancel(s: Sys, a: Action, p: PayoutId, end: PayoutState)
    requires Ending(end) && InState(s, p, end) && StepOf(s, a, a.call)
    requires s.calls[a.call].at.Canceling? && s.calls[a.call].at.id == p
    ensures InState(Next(s, a), p, end)
  {
    CancelCases(s.db, p, a.env.fate);
    hide DoCancel;
  }

  lemma RefFreeIsObtainable(s: Sys, p: PayoutId, ref: Option<string>)
    ensures RefFree(s.db, p, ref) ==> Obtainable(s, p, ref)
  {
  }

  lemma NextStaysIn(s: Sys, a: Action, p: PayoutId, end: PayoutState)
    requires Quiet(s, p, end)
    ensures InState(Next(s, a), p, end)
  {
    hide Next, Written, Inv, Settled;
    ChangesAreWrites(s, a, p);
    if Next(s, a).db.payouts[p] != s.db.payouts[p] { HarmlessWrite(s, a, p, end); }
  }

  // A step writes p's reference only from a snapshot that has it.
  lemma RestoredBySnapshot(s: Sys, a: Action, p: PayoutId, ref: string, end: PayoutState)
    requires Quiet(s, p, end) && s.db.payouts[p].externalId != Some(ref)
    requires p in Next(s, a).db.payouts && Next(s, a).db.payouts[p].externalId == Some(ref)
    ensures Findable(s, p, ref)
  {
    ChangesAreWrites(s, a, p);
    hide Next, Inv, Obtainable;
    var at := s.calls[a.call].at;
    if at.Recording? {
      HarmlessWrite(s, a, p, end);
    } else {
      assert RestoresAt(at, p, ref);
      RefusedUnlessFree(s, a);
      RefFreeIsObtainable(s, p, Some(ref));
    }
  }

  lemma RefusedUnlessFree(s: Sys, a: Action)
    requires StepOf(s, a, a.call) && s.calls[a.call].at.Applying?
    ensures Next(s, a).db == s.db || RefFree(s.db, s.calls[a.call].at.payout.id, s.calls[a.call].at.payout.externalId)
  {
    hide RefFree, UpdateRow;
    var at := s.calls[a.call].at;
    if !RefFree(s.db, at.payout.id, at.payout.externalId) {
      UpdateIsRefused(s.db, at.payout.id, at.newState, at.payout.externalId, at.payout.provider, a.env.fate);
    }
  }

  lemma NothingBecomesFindable(s: Sys, a: Action, p: PayoutId, ref: string, end: PayoutState)
    requires Quiet(s, p, end) && p in Next(s, a).db.payouts && Findable(Next(s, a), p, ref)
    ensures Findable(s, p, ref)
  {
    var s' := Next(s, a);
    if s.db.payouts[p].externalId != Some(ref) {
      if s'.db.payouts[p].externalId == Some(ref) {
        RestoredBySnapshot(s, a, p, ref, end);
      } else {
        NothingBecomesObtainable(s, a, p, Some(ref));
        var d :| d in s'.calls && RestoresAt(s'.calls[d].at, p, ref);
        hide Quiet, Obtainable;
        SnapshotWasThere(s, a, d, p, ref);
      }
    }
  }

  lemma SnapshotWasThere(s: Sys, a: Action, d: CallId, p: PayoutId, ref: string)
    requires p in s.db.payouts && s.db.payouts[p].externalId != Some(ref)
    requires d in Next(s, a).calls && RestoresAt(Next(s, a).calls[d].at, p, ref)
    ensures d in s.calls && RestoresAt(s.calls[d].at, p, ref)
  {
    hide Perform;
    if a.Step? && a.call == d {
      if s.calls[d].at.Applying? {
        ApplyingEnds(s.db, s.calls[d], a.env);
      } else {
        SnapshotIsRow(s.db, s.calls[d], a.env);
      }
    }
  }

  // Where the reads of a provider update lead.
  lemma FindLeads(db: Db, req: Request, env: Env)
    requires req.Apply?
    ensures var at := Find(db, req, env);
      at.Answered? || at.Applying? || (at.LookingUp? && req.uuid == Some(at.id))
  {
    hide MapProviderStatus;
  }

  lemma LookUpLeads(db: Db, id: PayoutId, req: Request, env: Env)
    requires req.Apply?
    ensures LookUp(db, id, req, env).Answered? || LookUp(db, id, req, env).Applying?
  {
    hide MapProviderStatus;
  }

  lemma CheckLeads(db: Db, id: PayoutId, env: Env)
    ensures var at := Check(db, id, env); at.Answered? || at.Recalling? || at.Canceling?
  {
  }

  // Where a call that moved came from.
  lemma CameFrom(db: Db, call: Call, env: Env, p: PayoutId)
    requires p in db.payouts
    ensures var at := Perform(db, call, env).at;
      && (at.Sending? && at.payout.id == p ==> call.at == at)
      && (at.Recording? ==> call.at == at || (call.at.Sending? && call.at.payout == at.payout))
      && (at.LookingUp? ==>
            call.at == at || (call.at.Finding? && call.req.Apply? && call.req.uuid == Some(at.id)))
      && (at.Finding? ==> call.at == at)
  {
    hide Update, Find, LookUp, Check, Open, DoCancel, Deliveries, Report, IsPass;
    match call.at
    case Opening => if call.req.Create? { OpenCases(db, call.req, env); }
    case Checking(id) => CheckLeads(db, id, env);
    case Canceling(id) => CancelCases(db, id, env.fate);
    case Finding => if call.req.Apply? { FindLeads(db, call.req, env); }
    case LookingUp(id) => if call.req.Apply? { LookUpLeads(db, id, call.req, env); }
    case _ =>
  }

  // A call that stays where it is gets no more dangerous.
  lemma NoNewThreat(s: Sys, a: Action, c: CallId, p: PayoutId, end: PayoutState)
    requires Quiet(s, p, end) && p in Next(s, a).db.payouts && c in s.calls && c in Next(s, a).calls
    requires Next(s, a).calls[c] == s.calls[c] && Threatens(Next(s, a), c, p, end)
    ensures Threatens(s, c, p, end)
  {
    hide Next, Inv, Settled, Obtainable, Findable;
    var req := s.calls[c].req;
    match s.calls[c].at
    case Recording(_, result) => NothingBecomesObtainable(s, a, p, RecordedRef(result));
    case Applying(payout, _) => NothingBecomesObtainable(s, a, p, payout.externalId);
    case Finding => if Findable(Next(s, a), p, req.ref) { NothingBecomesFindable(s, a, p, req.ref, end); }
    case _ =>
  }

  // What a step of call c leaves of the calls.
  lemma CallsAfter(s: Sys, a: Action)
    requires StepOf(s, a, a.call)
    ensures var e := Perform(s.db, s.calls[a.call], a.env);
      Next(s, a).db == e.db && Next(s, a).calls == s.calls[a.call := s.calls[a.call].(at := e.at)]
  {
    hide Perform;
  }

  lemma ReadThreatens(s: Sys, c: CallId, env: Env, p: PayoutId, end: PayoutState)
    requires c in s.calls && p in s.db.payouts && !s.calls[c].at.Applying?
    requires var at := Perform(s.db, s.calls[c], env).at; at.Applying? && at.payout.id == p && at.newState != end
    ensures Threatens(s, c, p, end)
  {
    SnapshotIsRow(s.db, s.calls[c], env);
    hide Perform, Obtainable;
  }

  // A call that moves was as dangerous where it came from.
  lemma ThreatMoved(s: Sys, a: Action, p: PayoutId, end: PayoutState)
    requires p in s.db.payouts && StepOf(s, a, a.call) && p in Next(s, a).db.payouts
    requires Next(s, a).calls[a.call] != s.calls[a.call] && Threatens(Next(s, a), a.call, p, end)
    ensures Threatens(s, a.call, p, end)
  {
    hide Next, Perform, Obtainable, Findable;
    CallsAfter(s, a);
    var call := s.calls[a.call];
    CameFrom(s.db, call, a.env, p);
    if Next(s, a).calls[a.call].at.Applying? {
      if call.at.Applying? {
        ApplyingEnds(s.db, call, a.env);
      } else {
        ReadThreatens(s, a.call, a.env, p, end);
      }
    }
  }

  lemma NewCallIsHarmless(s: Sys, c: CallId, req: Request, p: PayoutId, end: PayoutState)
    requires p in s.db.payouts && c in s.calls && !req.Apply? && s.calls[c] == Call(req, Start(req))
    ensures !Threatens(s, c, p, end)
  {
    hide Obtainable, Findable;
  }

  lemma NextAddsNoThreat(s: Sys, a: Action, p: PayoutId, c: CallId, end: PayoutState)
    requires Quiet(s, p, end) && (a.Begin? ==> !a.req.Apply?) && p in Next(s, a).db.payouts && c in Next(s, a).calls
    ensures !Threatens(Next(s, a), c, p, end)
  {
    hide Inv, Perform, Threatens;
    if c in s.calls && Threatens(Next(s, a), c, p, end) {
      if Next(s, a).calls[c] == s.calls[c] { NoNewThreat(s, a, c, p, end); } else { ThreatMoved(s, a, p, end); }
    } else if c !in s.calls {
      NewCallIsHarmless(Next(s, a), c, a.req, p, end);
    }
  }

  lemma NextKeepsQuiet(s: Sys, a: Action, p: PayoutId, end: PayoutState)
    requires Quiet(s, p, end) && (a.Begin? ==> !a.req.Apply?)
    ensures Quiet(Next(s, a), p, end)
  {
    hide Inv, Next, Threatens;
    NextKeepsInv(s, a);
    NextStaysIn(s, a, p, end);
    forall c | c in Next(s, a).calls ensures !Threatens(Next(s, a), c, p, end) {
      NextAddsNoThreat(s, a, p, c, end);
    }
  }

  lemma {:induction false} QuietStays(s: Sys, more: seq<Action>, p: PayoutId, end: PayoutState)
    requires Quiet(s, p, end) && NoUpdates(more)
    ensures Quiet(Exec(s, more), p, end)
  {
    hide Quiet, Next;
    if more != [] {
      var init, last := more[..|more| - 1], more[|more| - 1];
      assert last in more && forall a :: a in init ==> a in more;
      QuietStays(s, init, p, end);
      NextKeepsQuiet(Exec(s, init), last, p, end);
    }
  }

  // ---------- not settled, so it can be overwritten

  const ACK := Env(Acked, 0, [])
  const FAILED := Env(Dropped, 0, [])

  // The run ends with p out of its state, and no provider update has begun in it.
  ghost predicate Overwrites(s: Sys, more: seq<Action>, p: PayoutId, end: PayoutState) {
    NoUpdates(more) && !InState(Exec(s, more), p, end)
  }

  lemma StepFirst(s: Sys, a: Action, rest: seq<Action>)
    ensures Exec(s, [a] + rest) == Exec(Next(s, a), rest)
  {
    ExecConcat(s, [a], rest);
    assert [a][..0] == [];
    assert Exec(s, [a]) == Next(Exec(s, []), a);
    hide Next;
  }

  // A step, and then a run that overwrites p.
  lemma StepThenOverwrites(s: Sys, a: Action, rest: seq<Action>, p: PayoutId, end: PayoutState)
    requires a.Step? && Overwrites(Next(s, a), rest, p, end)
    ensures Overwrites(s, [a] + rest, p, end)
  {
    hide Next;
    StepFirst(s, a, rest);
  }

  lemma NothingMore(s: Sys, p: PayoutId, end: PayoutState)
    requires !InState(s, p, end)
    ensures Overwrites(s, [], p, end)
  {
  }

  /** A reference that p can obtain: at most one step, of an update to another payout, makes it free. */
  lemma Frees(s: Sys, p: PayoutId, ref: Option<string>) returns (freeing: Option<Action>, s': Sys)
    requires Inv(s) && p in s.db.payouts && Obtainable(s, p, ref)
    ensures freeing.Some? ==> freeing.value.Step?
    ensures s' == if freeing.Some? then Next(s, freeing.value) else s
    ensures Inv(s') && p in s'.db.payouts && s'.db.payouts[p] == s.db.payouts[p] && RefFree(s'.db, p, ref)
    ensures forall c :: c in s.calls && !(s.calls[c].at.Applying? && s.calls[c].at.payout.id != p) ==>
      c in s'.calls && s'.calls[c] == s.calls[c]
  {
    hide Inv, RefFree, Next, Written;
    if RefFree(s.db, p, ref) {
      return None, s;
    }
    NotFree(s.db, p, ref);
    var q :| q in s.db.payouts && q != p && s.db.payouts[q].externalId == ref;
    var d :| d in s.calls && BlankAt(s.calls[d].at, q);
    FreesByBlank(s, p, ref, q, d);
    freeing, s' := Some(Step(d, ACK)), Next(s, Step(d, ACK));
  }

  lemma NotFree(db: Db, p: PayoutId, ref: Option<string>)
    requires !RefFree(db, p, ref)
    ensures ref.Some? && exists q :: q in db.payouts && q != p && db.payouts[q].externalId == ref
  {
  }

  lemma FreesByBlank(s: Sys, p: PayoutId, ref: Option<string>, q: PayoutId, d: CallId)
    requires Inv(s) && p in s.db.payouts && q in s.db.payouts && q != p && ref.Some?
    requires s.db.payouts[q].externalId == ref && d in s.calls && BlankAt(s.calls[d].at, q)
    ensures var s' := Next(s, Step(d, ACK));
      && Inv(s') && p in s'.db.payouts && s'.db.payouts[p] == s.db.payouts[p] && RefFree(s'.db, p, ref)
      && forall c :: c in s.calls && c != d ==> c in s'.calls && s'.calls[c] == s.calls[c]
  {
    hide Inv, Perform, RefFree, Next;
    BlankSnapshotIsTaken(s, Step(d, ACK), q);
    NextKeepsInv(s, Step(d, ACK));
    CallsAfter(s, Step(d, ACK));
    RowsAreGood(s, q);
    FreedByBlank(s.db, q, Written(s.db.payouts[q], s.calls[d].at), p, ref);
  }

  lemma FreedByBlank(db: Db, q: PayoutId, row: Row, p: PayoutId, ref: Option<string>)
    requires UniqueRefs(db) && q in db.payouts && ref.Some? && db.payouts[q].externalId == ref && row.externalId.None?
    ensures RefFree(db.(payouts := db.payouts[q := row]), p, ref)
  {
  }

  // Putting the step that frees the reference in front.
  lemma AfterFreeing(s: Sys, freeing: Option<Action>, s': Sys, rest: seq<Action>, p: PayoutId, end: PayoutState)
      returns (more: seq<Action>)
    requires freeing.Some? ==> freeing.value.Step?
    requires s' == if freeing.Some? then Next(s, freeing.value) else s
    requires Overwrites(s', rest, p, end)
    ensures Overwrites(s, more, p, end)
  {
    if freeing.Some? {
      StepThenOverwrites(s, freeing.value, rest, p, end);
      more := [freeing.value] + rest;
    } else {
      more := rest;
    }
  }

  /** A call about to record its outcome. */
  lemma RecordingOverwrites(s: Sys, c: CallId, p: PayoutId, end: PayoutState) returns (more: seq<Action>)
    requires Inv(s) && c in s.calls && p in s.db.payouts && s.calls[c].at.Recording? && Threatens(s, c, p, end)
    ensures Overwrites(s, more, p, end)
  {
    var r := s.calls[c].at.result;
    var freeing, s' := Frees(s, p, RecordedRef(r));
    hide Inv, Obtainable, RefFree, UpdateRow, Overwrites;
    RowsAreGood(s', p);
    UpdateIsTaken(s'.db, p, RecordedState(r), RecordedRef(r), RecordedProvider(r), Acked);
    NothingMore(Next(s', Step(c, ACK)), p, end);
    StepThenOverwrites(s', Step(c, ACK), [], p, end);
    more := AfterFreeing(s, freeing, s', [Step(c, ACK)] + [], p, end);
  }

  lemma RowsAreGood(s: Sys, p: PayoutId)
    requires Inv(s) && p in s.db.payouts
    ensures RowInv(s.db.payouts[p]) && UniqueRefs(s.db) && RefFree(s.db, p, s.db.payouts[p].externalId)
  {
  }

  /** A provider update that has read p. */
  lemma ApplyingOverwrites(s: Sys, c: CallId, p: PayoutId, end: PayoutState) returns (more: seq<Action>)
    requires Inv(s) && c in s.calls && p in s.db.payouts && s.calls[c].at.Applying? && Threatens(s, c, p, end)
    ensures Overwrites(s, more, p, end)
  {
    var (payout, newState) := (s.calls[c].at.payout, s.calls[c].at.newState);
    assert PointInv(s.db, s.tally, s.calls[c].req, s.calls[c].at);
    var freeing, s' := Frees(s, p, payout.externalId);
    hide Inv, Obtainable, RefFree, UpdateRow, Overwrites;
    RowsAreGood(s', p);
    UpdateIsTaken(s'.db, p, newState, payout.externalId, payout.provider, Acked);
    NothingMore(Next(s', Step(c, ACK)), p, end);
    StepThenOverwrites(s', Step(c, ACK), [], p, end);
    more := AfterFreeing(s, freeing, s', [Step(c, ACK)] + [], p, end);
  }

  // Some text is not among finitely many.
  lemma {:induction false} LongerThanAll(refs: set<string>) returns (n: nat)
    ensures forall ref :: ref in refs ==> |ref| < n
  {
    n := 0;
    if refs != {} {
      var ref :| ref in refs;
      n := LongerThanAll(refs - {ref});
      if n <= |ref| { n := |ref| + 1; }
    }
  }

  lemma FreshRef(db: Db, p: PayoutId) returns (ref: string)
    ensures RefFree(db, p, Some(ref))
  {
    var refs := set q | q in db.payouts && db.payouts[q].externalId.Some? :: db.payouts[q].externalId.value;
    var n := LongerThanAll(refs);
    ref := seq(n, _ => 'x');
    assert ref !in refs;
  }

  lemma StripeAccepts(ref: string)
    ensures var attempts := [Attempt("stripe", Reference(ref))];
      IsPass(attempts) && Report(attempts) == SendResult(ref, "stripe", ["stripe"], true)
  {
  }

  lemma SendsTo(db: Db, call: Call, env: Env)
    requires call.at.Sending? && call.req.Create? && IsPass(env.attempts)
    ensures var e := Perform(db, call, env); e.db == db && e.at == Recording(call.at.payout, Report(env.attempts))
  {
    hide IsPass, Report, Deliveries;
  }

  lemma SendersCreate(s: Sys, c: CallId)
    requires Inv(s) && c in s.calls && s.calls[c].at.Sending?
    ensures s.calls[c].req.Create?
  {
    assert PointInv(s.db, s.tally, s.calls[c].req, s.calls[c].at);
  }

  /** A call about to send p: a provider can accept it, and the send is recorded. */
  lemma SendingOverwrites(s: Sys, c: CallId, p: PayoutId, end: PayoutState) returns (more: seq<Action>)
    requires Ending(end)
    requires Inv(s) && c in s.calls && p in s.db.payouts && s.calls[c].at.Sending? && Threatens(s, c, p, end)
    ensures Overwrites(s, more, p, end)
  {
    hide Inv, Overwrites, Next, Perform, Report, IsPass, Obtainable, RefFree, Findable;
    SendersCreate(s, c);
    var ref := FreshRef(s.db, p);
    StripeAccepts(ref);
    var a := Step(c, Env(Acked, 0, [Attempt("stripe", Reference(ref))]));
    SendsTo(s.db, s.calls[c], a.env);
    NextKeepsInv(s, a);
    CallsAfter(s, a);
    RefFreeIsObtainable(Next(s, a), p, Some(ref));
    var rest := RecordingOverwrites(Next(s, a), c, p, end);
    StepThenOverwrites(s, a, rest, p, end);
    more := [a] + rest;
  }

  // A provider update that has just read p.
  lemma JustReadOverwrites(s: Sys, c: CallId, a: Action, p: PayoutId, end: PayoutState) returns (more: seq<Action>)
    requires Inv(s) && c in s.calls && p in s.db.payouts && a == Step(c, ACK) && Overrides(s.calls[c].req, end)
    requires Perform(s.db, s.calls[c], ACK) ==
      Only(s.db, Found(ToDomain(p, s.db.payouts[p]), s.calls[c].req.providerStatus))
    ensures Overwrites(s, more, p, end)
  {
    hide Inv, Overwrites, Perform, Next, Obtainable, RefFree;
    NextKeepsInv(s, a);
    CallsAfter(s, a);
    RowsAreGood(s, p);
    RefFreeIsObtainable(Next(s, a), p, s.db.payouts[p].externalId);
    var rest := ApplyingOverwrites(Next(s, a), c, p, end);
    StepThenOverwrites(s, a, rest, p, end);
    more := [a] + rest;
  }

  /** A provider update about to look p up. */
  lemma LookingUpOverwrites(s: Sys, c: CallId, p: PayoutId, end: PayoutState) returns (more: seq<Action>)
    requires Inv(s) && c in s.calls && p in s.db.payouts && s.calls[c].at.LookingUp? && Threatens(s, c, p, end)
    ensures Overwrites(s, more, p, end)
  {
    hide Inv, Overwrites;
    more := JustReadOverwrites(s, c, Step(c, ACK), p, end);
  }

  /** A provider update about to find p by its reference. */
  lemma FindingOverwrites(s: Sys, c: CallId, p: PayoutId, end: PayoutState) returns (more: seq<Action>)
    requires Inv(s) && c in s.calls && p in s.db.payouts && s.calls[c].at.Finding? && Overrides(s.calls[c].req, end)
    requires s.db.payouts[p].externalId == Some(s.calls[c].req.ref)
    ensures Overwrites(s, more, p, end)
  {
    assert FindByRef(s.db, s.calls[c].req.ref) == Some(p);
    hide Inv, Overwrites;
    more := JustReadOverwrites(s, c, Step(c, ACK), p, end);
  }

  // The reference is restored, and p is still in its state.
  lemma Restores(s: Sys, d: CallId, p: PayoutId, ref: string) returns (s': Sys)
    requires Inv(s) && p in s.db.payouts && d in s.calls && RestoresAt(s.calls[d].at, p, ref)
    requires RefFree(s.db, p, Some(ref))
    ensures s' == Next(s, Step(d, ACK)) && Inv(s')
    ensures p in s'.db.payouts && s'.db.payouts[p].externalId == Some(ref)
    ensures forall c :: c in s.calls && c != d ==> c in s'.calls && s'.calls[c] == s.calls[c]
  {
    var at := s.calls[d].at;
    s' := Next(s, Step(d, ACK));
    SnapshotsAreListed(s, d);
    RowsAreGood(s, p);
    hide Inv, RefFree, Next, Perform, RowInv;
    NextKeepsInv(s, Step(d, ACK));
    CallsAfter(s, Step(d, ACK));
    UpdateIsTaken(s.db, p, at.newState, at.payout.externalId, at.payout.provider, Acked);
    AppliesUpdate(s.db, s.calls[d], ACK);
    hide Update;
  }

  lemma SnapshotsAreListed(s: Sys, c: CallId)
    requires Inv(s) && c in s.calls && s.calls[c].at.Applying?
    ensures Listed(s.calls[c].at.payout.provider)
  {
    assert PointInv(s.db, s.tally, s.calls[c].req, s.calls[c].at);
  }

  lemma AppliesUpdate(db: Db, call: Call, env: Env)
    requires call.at.Applying?
    ensures var at := call.at;
      Perform(db, call, env).db == Update(db, at.payout.id, at.newState, at.payout.externalId, at.payout.provider,
        env.fate).0
  {
    hide Update;
  }

  // ... when another provider update restores the reference first.
  lemma RestoringOverwrites(s: Sys, c: CallId, d: CallId, p: PayoutId, end: PayoutState) returns (more: seq<Action>)
    requires Inv(s) && c in s.calls && p in s.db.payouts && s.calls[c].at.Finding? && Overrides(s.calls[c].req, end)
    requires d in s.calls && RestoresAt(s.calls[d].at, p, s.calls[c].req.ref)
    requires Obtainable(s, p, Some(s.calls[c].req.ref))
    ensures Overwrites(s, more, p, end)
  {
    hide Inv, Obtainable, RefFree, Overwrites, Next;
    if s.calls[d].at.newState != end {
      more := ApplyingOverwrites(s, d, p, end);
    } else {
      var freeing, s' := Frees(s, p, s.calls[d].at.payout.externalId);
      var s'' := Restores(s', d, p, s.calls[c].req.ref);
      var rest := FindingOverwrites(s'', c, p, end);
      StepThenOverwrites(s', Step(d, ACK), rest, p, end);
      more := AfterFreeing(s, freeing, s', [Step(d, ACK)] + rest, p, end);
    }
  }

  lemma FirstLookupFails(db: Db, call: Call, id: PayoutId)
    requires call.at.Finding? && call.req.Apply? && call.req.uuid == Some(id)
    ensures Perform(db, call, FAILED) == Only(db, LookingUp(id))
  {
  }

  // ... or when the first lookup fails and it names p by its UUID.
  lemma FallingThroughOverwrites(s: Sys, c: CallId, p: PayoutId, end: PayoutState) returns (more: seq<Action>)
    requires Inv(s) && c in s.calls && p in s.db.payouts && s.calls[c].at.Finding? && Overrides(s.calls[c].req, end)
    requires s.calls[c].req.uuid == Some(p)
    ensures Overwrites(s, more, p, end)
  {
    hide Inv, Overwrites, Perform, Next, Obtainable, Findable;
    var a := Step(c, FAILED);
    FirstLookupFails(s.db, s.calls[c], p);
    NextKeepsInv(s, a);
    CallsAfter(s, a);
    var rest := LookingUpOverwrites(Next(s, a), c, p, end);
    StepThenOverwrites(s, a, rest, p, end);
    more := [a] + rest;
  }

  /** Whatever the threat, some continuation carries it out. */
  lemma ThreatOverwrites(s: Sys, c: CallId, p: PayoutId, end: PayoutState) returns (more: seq<Action>)
    requires Ending(end) && Inv(s) && c in s.calls && p in s.db.payouts && Threatens(s, c, p, end)
    ensures Overwrites(s, more, p, end)
  {
    hide Inv, Overwrites, Obtainable;
    var req := s.calls[c].req;
    match s.calls[c].at
    case Sending(_) => more := SendingOverwrites(s, c, p, end);
    case Recording(_, _) => more := RecordingOverwrites(s, c, p, end);
    case Applying(_, _) => more := ApplyingOverwrites(s, c, p, end);
    case LookingUp(_) => more := LookingUpOverwrites(s, c, p, end);
    case Finding =>
      if req.uuid == Some(p) {
        more := FallingThroughOverwrites(s, c, p, end);
      } else if s.db.payouts[p].externalId == Some(req.ref) {
        more := FindingOverwrites(s, c, p, end);
      } else {
        var d :| d in s.calls && RestoresAt(s.calls[d].at, p, req.ref);
        more := RestoringOverwrites(s, c, d, p, end);
      }
  }

  /** After any run, a payout that is canceled, completed or failed stays so through everything but new provider
      updates if and only if no call is left that threatens to take it out of that state. */
  lemma StateIsFinalIff(acts: seq<Action>, p: PayoutId, end: PayoutState)
    requires Ending(end) && InState(After(acts), p, end)
    ensures StaysIn(After(acts), p, end) <==> Settled(After(acts), p, end)
  {
    var s := After(acts);
    RunKeepsInv(acts);
    hide Inv, Threatens, Exec;
    if Settled(s, p, end) {
      forall more | NoUpdates(more) ensures InState(Exec(s, more), p, end) {
        QuietStays(s, more, p, end);
      }
    } else {
      var c :| c in s.calls && Threatens(s, c, p, end);
      var more := ThreatOverwrites(s, c, p, end);
      assert NoUpdates(more) && !InState(Exec(s, more), p, end);
    }
  }

  // A status that leads out of this state.
  function OtherStatus(end: PayoutState): string {
    if end.Completed? then "payout_failed" else "payout_succeeded"
  }

  /** A new provider update that names the payout by its UUID can always take it out of such a state. */
  lemma NewUpdateOverwrites(acts: seq<Action>, p: PayoutId, c: CallId, ref: string, end: PayoutState)
    returns (more: seq<Action>)
    requires InState(After(acts), p, end) && c !in After(acts).calls && ref != ""
    ensures !InState(Exec(Next(After(acts), Begin(c, Apply(ref, Some(p), OtherStatus(end)))), more), p, end)
  {
    var (s, req) := (After(acts), Apply(ref, Some(p), OtherStatus(end)));
    RunKeepsInv(acts);
    hide Inv, Exec, Next, Start, MapProviderStatus, Overwrites, OtherStatus;
    NextKeepsInv(s, Begin(c, req));
    UpdateBegins(s, c, p, ref, end);
    more := FallingThroughOverwrites(Next(s, Begin(c, req)), c, p, end);
    OverwritesLeaves(Next(s, Begin(c, req)), more, p, end);
  }

  lemma OverwritesLeaves(s: Sys, more: seq<Action>, p: PayoutId, end: PayoutState)
    requires Overwrites(s, more, p, end)
    ensures !InState(Exec(s, more), p, end)
  {
  }

  lemma UpdateBegins(s: Sys, c: CallId, p: PayoutId, ref: string, end: PayoutState)
    requires c !in s.calls && ref != ""
    ensures var req := Apply(ref, Some(p), OtherStatus(end));
      var s' := Next(s, Begin(c, req));
      s'.db == s.db && c in s'.calls && s'.calls[c] == Call(req, Finding) && Overrides(req, end)
  {
    hide Perform;
  }
}
