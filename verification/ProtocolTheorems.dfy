/** What holds of the payout protocol in every run, however the calls interleave, commits get lost and
    updates fail. */
module ProtocolTheorems {
  import opened Wrappers
  import opened PayoutDomain
  import opened PayoutTables
  import opened Fallback
  import opened PayoutProtocol
  import opened ProtocolInvariant

  ghost function After(acts: seq<Action>): Sys {
    Exec(INIT, acts)
  }

  // ---------- runs

  lemma {:induction false} ExecConcat(s: Sys, acts: seq<Action>, more: seq<Action>)
    ensures Exec(s, acts + more) == Exec(Exec(s, acts), more)
  {
    if more == [] {
      assert acts + more == acts;
    } else {
      var init := more[..|more| - 1];
      assert (acts + more)[..|acts + more| - 1] == acts + init;
      ExecConcat(s, acts, init);
    }
  }

  lemma ExecAppend(s: Sys, acts: seq<Action>, a: Action)
    ensures Exec(s, acts + [a]) == Next(Exec(s, acts), a)
  {
    assert (acts + [a])[..|acts + [a]| - 1] == acts;
  }

  // Amount, currency and rail of a row.
  predicate SameOrder(r: Row, r': Row) {
    r'.amountCents == r.amountCents && r'.currency == r.currency && r'.rail == r.rail
  }

  ghost predicate Later(s: Sys, s': Sys) {
    && (forall k :: k in s.db.keys ==> k in s'.db.keys && s'.db.keys[k] == s.db.keys[k])
    && (forall p :: p in s.db.payouts ==> p in s'.db.payouts && SameOrder(s.db.payouts[p], s'.db.payouts[p]))
    && s.tally <= s'.tally
  }

  lemma NextIsLater(s: Sys, a: Action)
    ensures Later(s, Next(s, a))
  {
    if a.Step? && a.call in s.calls { PerformCases(s.db, s.calls[a.call], a.env); }
  }

  /** Key entries are immutable, payouts are never removed and keep their amount, currency and rail,
      whatever state a run starts in. */
  lemma {:induction false} TablesOnlyGrow(s: Sys, acts: seq<Action>)
    ensures Later(s, Exec(s, acts))
  {
    if acts != [] {
      TablesOnlyGrow(s, acts[..|acts| - 1]);
      NextIsLater(Exec(s, acts[..|acts| - 1]), acts[|acts| - 1]);
    }
  }

  // ---------- idempotency

  /** Each idempotency key enters the send phase at most once, and at most one provider send made for it
      returns without an error. */
  lemma OneSendPerKey(acts: seq<Action>, key: string)
    ensures After(acts).tally[SendPhase(key)] <= 1
    ensures After(acts).tally[SendOk(key)] <= After(acts).tally[SendPhase(key)]
  {
    RunKeepsInv(acts);
    var s := After(acts);
    if key in s.db.keys {
      assert KeyCounts(s.db, s.tally, key);
    } else {
      NothingKnown(s.db, s.tally, 0, key);
    }
  }

  /** Keys and payouts correspond one to one. */
  lemma KeysMatchPayouts(acts: seq<Action>)
    ensures var db := After(acts).db;
      && (forall k :: k in db.keys ==> db.keys[k].payout in db.payouts)
      && (forall k, l :: k in db.keys && l in db.keys && db.keys[k].payout == db.keys[l].payout ==> k == l)
      && (forall p :: p in db.payouts ==> exists k :: k in db.keys && db.keys[k].payout == p)
  {
    RunKeepsInv(acts);
    assert forall p :: p in After(acts).db.payouts ==> HasKey(After(acts).db, p);
  }

  ghost predicate AcceptedCreate(s: Sys, c: CallId) {
    c in s.calls && s.calls[c].req.Create? && s.calls[c].at.Answered? && s.calls[c].at.resp.Accepted?
  }

  /** All the successful answers for a key name the same payout, the one its key entry names, and were asked
      for with the same request hash. */
  lemma SameKeySamePayout(acts: seq<Action>, c: CallId, d: CallId)
    requires AcceptedCreate(After(acts), c) && AcceptedCreate(After(acts), d)
    requires After(acts).calls[c].req.key == After(acts).calls[d].req.key
    ensures var s := After(acts);
      && s.calls[c].at.resp.payout == s.calls[d].at.resp.payout
      && s.calls[c].req.hash == s.calls[d].req.hash
      && s.calls[c].req.key in s.db.keys
      && s.db.keys[s.calls[c].req.key] == KeyRow(s.calls[c].req.hash, s.calls[c].at.resp.payout)
  {
    RunKeepsInv(acts);
    var s := After(acts);
    assert PointInv(s.db, s.tally, s.calls[c].req, s.calls[c].at);
    assert PointInv(s.db, s.tally, s.calls[d].req, s.calls[d].at);
  }

  /** A key held with another hash: the transaction leaves both tables alone and the call is refused, with
      ALREADY_EXISTS whenever the payout itself could be inserted and the database replied. */
  lemma ConflictChangesNothing(db: Db, req: Request, env: Env)
    requires req.Create? && req.key in db.keys && db.keys[req.key].requestHash != req.hash
    ensures var e := Open(db, req, env);
      && e.db == db && e.events == multiset{}
      && e.at in {Answered(Rejected(AlreadyExists)), Answered(Rejected(Internal))}
      && (e.at == Answered(Rejected(AlreadyExists)) <==>
            env.fate.Acked? && env.newId !in db.payouts && Checked(NewRow(req)))
  {
  }

  // The key is taken by another request and the call has not found out, or has been told.
  ghost predicate Refused(s: Sys, c: CallId) {
    && c in s.calls && s.calls[c].req.Create?
    && var (req, at) := (s.calls[c].req, s.calls[c].at);
       || (at.Opening? && req.key in s.db.keys && s.db.keys[req.key].requestHash != req.hash)
       || (at.Answered? && at.resp.Rejected?)
  }

  lemma NextStaysRefused(s: Sys, a: Action, c: CallId)
    requires Refused(s, c)
    ensures Refused(Next(s, a), c)
    ensures a.Step? && a.call == c ==> Next(s, a).db == s.db
  {
    NextIsLater(s, a);
    hide Open;
    if a.Step? && a.call == c && s.calls[c].at.Opening? { ConflictChangesNothing(s.db, s.calls[c].req, a.env); }
  }

  /** A create that has not opened its transaction when its key is held with another hash is never answered
      with a payout and none of its steps writes anything, in any continuation of the run. */
  lemma ConflictIsRefusedForGood(acts: seq<Action>, more: seq<Action>, c: CallId, env: Env)
    requires c in After(acts).calls && After(acts).calls[c].at.Opening? && After(acts).calls[c].req.Create?
    requires After(acts).calls[c].req.key in After(acts).db.keys
    requires After(acts).db.keys[After(acts).calls[c].req.key].requestHash != After(acts).calls[c].req.hash
    ensures !AcceptedCreate(After(acts + more), c)
    ensures Next(After(acts + more), Step(c, env)).db == After(acts + more).db
  {
    ExecConcat(INIT, acts, more);
    StaysRefused(After(acts), more, c);
    NextStaysRefused(After(acts + more), Step(c, env), c);
    hide Next;
  }

  lemma {:induction false} StaysRefused(s: Sys, more: seq<Action>, c: CallId)
    requires Refused(s, c)
    ensures Refused(Exec(s, more), c)
  {
    hide Refused, Next;
    if more != [] {
      StaysRefused(s, more[..|more| - 1], c);
      NextStaysRefused(Exec(s, more[..|more| - 1]), more[|more| - 1], c);
    }
  }

  // ---------- the payout state machine

  /** The only writes to an existing row, and between which states. A pending send never finds `sent`. */
  predicate Edge(at: Point, p: PayoutId, from: PayoutState, to: PayoutState) {
    match at
    case Recording(payout, _) => payout.id == p && !from.Sent? && to in {Sent, Failed}
    case Canceling(id) => id == p && from in {Created, Sent} && to.Canceled?
    case Applying(payout, newState) => payout.id == p && to == newState && to in {Completed, Failed, Canceled}
    case _ => false
  }

  ghost predicate StepOf(s: Sys, a: Action, c: CallId) {
    a.Step? && a.call == c && c in s.calls
  }

  // A row that is about to be written is in a state the edge starts from.
  lemma WriterFollowsEdge(s: Sys, c: CallId)
    requires Inv(s) && c in s.calls && IsWriter(s.calls[c].at)
    requires var p := Target(s.calls[c].at);
      p in s.db.payouts && (s.calls[c].at.Canceling? ==> s.db.payouts[p].state in CANCELABLE_STATES)
    ensures var (at, row) := (s.calls[c].at, s.db.payouts[Target(s.calls[c].at)]);
      Edge(at, Target(at), row.state, Written(row, at).state)
  {
    var at := s.calls[c].at;
    assert PointInv(s.db, s.tally, s.calls[c].req, at);
    assert RowInv(s.db.payouts[Target(at)]) && PayoutCounts(s.db.payouts[Target(at)], s.tally, Target(at));
  }

  // A step that changes a row is the write of a call that is about to write that row.
  lemma ChangesAreWrites(s: Sys, a: Action, p: PayoutId)
    requires p in s.db.payouts
    ensures var s' := Next(s, a);
      && p in s'.db.payouts
      && (s'.db.payouts[p] != s.db.payouts[p] ==>
            && StepOf(s, a, a.call) && IsWriter(s.calls[a.call].at) && Target(s.calls[a.call].at) == p
            && (s.calls[a.call].at.Canceling? ==> s.db.payouts[p].state in CANCELABLE_STATES)
            && s'.db.payouts[p] == Written(s.db.payouts[p], s.calls[a.call].at))
  {
    if a.Step? && a.call in s.calls {
      PerformCases(s.db, s.calls[a.call], a.env);
      hide Perform, Written;
    }
  }

  /** In every reachable state, a step that changes a row follows an edge; the states are five. */
  lemma StateMachine(acts: seq<Action>, a: Action, p: PayoutId)
    requires p in After(acts).db.payouts
    ensures var (s, s') := (After(acts), Next(After(acts), a));
      && p in s'.db.payouts
      && s.db.payouts[p].state in {Created, Sent, Failed, Completed, Canceled}
      && (s'.db.payouts[p] != s.db.payouts[p] ==>
            StepOf(s, a, a.call) && Edge(s.calls[a.call].at, p, s.db.payouts[p].state, s'.db.payouts[p].state))
  {
    RunKeepsInv(acts);
    var s := After(acts);
    assert RowInv(s.db.payouts[p]);
    ChangesAreWrites(s, a, p);
    hide Next, Written, Edge, Inv;
    if Next(s, a).db.payouts[p] != s.db.payouts[p] {
      WriterFollowsEdge(s, a.call);
    }
  }

  /** A `created` row carries no provider and no reference, and was written once in that state. */
  lemma CreatedRowsAreBlank(acts: seq<Action>, p: PayoutId)
    requires p in After(acts).db.payouts
    ensures After(acts).tally[Wrote(p, Created)] == 1
    ensures var row := After(acts).db.payouts[p]; row.state.Created? ==> row.provider.None? && row.externalId.None?
  {
    RunKeepsInv(acts);
    assert PayoutCounts(After(acts).db.payouts[p], After(acts).tally, p) && RowInv(After(acts).db.payouts[p]);
  }

  ghost predicate PastCreated(s: Sys, p: PayoutId) {
    p in s.db.payouts && !s.db.payouts[p].state.Created?
  }

  lemma StepStaysPastCreated(acts: seq<Action>, a: Action, p: PayoutId)
    requires PastCreated(After(acts), p)
    ensures PastCreated(Next(After(acts), a), p)
  {
    StateMachine(acts, a, p);
  }

  /** `created` is never re-entered. */
  lemma {:induction false} CreatedNeverReentered(acts: seq<Action>, more: seq<Action>, p: PayoutId)
    requires PastCreated(After(acts), p)
    ensures PastCreated(After(acts + more), p)
  {
    if more == [] {
      assert acts + more == acts;
    } else {
      var init := more[..|more| - 1];
      CreatedNeverReentered(acts, init, p);
      assert acts + more == acts + init + [more[|more| - 1]];
      ExecAppend(INIT, acts + init, more[|more| - 1]);
      StepStaysPastCreated(acts + init, more[|more| - 1], p);
    }
  }

  /** `sent` is written at most once per payout, and always with a reference that a provider returned for
      that payout; the provider column names that provider. */
  lemma SentOnceWithReference(acts: seq<Action>, p: PayoutId)
    requires p in After(acts).db.payouts
    ensures var s := After(acts); var row := s.db.payouts[p];
      && s.tally[Wrote(p, Sent)] <= 1
      && (row.state.Sent? ==> row.externalId.Some?)
      && (row.externalId.Some? ==> Delivered(p, FromColumn(row.provider), row.externalId.value) in s.tally)
  {
    RunKeepsInv(acts);
    assert RowInv(After(acts).db.payouts[p]) && PayoutCounts(After(acts).db.payouts[p], After(acts).tally, p);
  }

  /** However many CancelPayout calls race, at most two per payout ever return success, and only one unless
      the payout was recorded as sent in between. */
  lemma AtMostTwoCancels(acts: seq<Action>, p: PayoutId)
    ensures After(acts).tally[CancelOk(p)] <= 1 + After(acts).tally[Wrote(p, Sent)] <= 2
  {
    RunKeepsInv(acts);
    var s := After(acts);
    if p in s.db.payouts {
      assert PayoutCounts(s.db.payouts[p], s.tally, p);
    } else {
      NothingKnown(s.db, s.tally, p, "");
    }
  }

  // ---------- provider references

  /** In any run a recorded reference can only be erased and restored, never replaced by another one, and its
      provider comes back with it. */
  lemma ReferenceNeverReplaced(acts: seq<Action>, more: seq<Action>, p: PayoutId)
    requires p in After(acts).db.payouts && After(acts).db.payouts[p].externalId.Some?
    ensures p in After(acts + more).db.payouts
    ensures var (row, row') := (After(acts).db.payouts[p], After(acts + more).db.payouts[p]);
      row'.externalId.None? || (row'.externalId == row.externalId && row'.provider == row.provider)
  {
    RunKeepsInv(acts);
    RunKeepsInv(acts + more);
    ExecConcat(INIT, acts, more);
    TablesOnlyGrow(After(acts), more);
    var (s, s') := (After(acts), After(acts + more));
    assert PayoutCounts(s.db.payouts[p], s.tally, p) && PayoutCounts(s'.db.payouts[p], s'.tally, p);
    assert RowInv(s.db.payouts[p]) && RowInv(s'.db.payouts[p]);
  }

  /** A provider is only ever asked to cancel a payout that it accepted, under the reference it returned. */
  lemma RecallFindsSender(acts: seq<Action>, p: PayoutId, provider: string, ref: Option<string>)
    requires Recalled(p, provider, ref) in After(acts).tally
    ensures ref.Some? && Delivered(p, provider, ref.value) in After(acts).tally
    ensures forall r, x :: Delivered(p, r, x) in After(acts).tally ==> r == provider && x == ref.value
  {
    RunKeepsInv(acts);
    assert DeliveriesCounted(After(acts).db, After(acts).tally);
  }

  /** The provider CHECK admits two names. A payout that any other named provider accepted, mock_card for one,
      is never recorded as sent: it has no reference, in no later state of any run. */
  lemma UnlistedProviderNeverRecorded(acts: seq<Action>, p: PayoutId, provider: string, ref: string)
    requires Delivered(p, provider, ref) in After(acts).tally
    requires provider !in {"", "stripe", "crypto_sim"}
    ensures p in After(acts).db.payouts
    ensures After(acts).db.payouts[p].externalId.None? && !After(acts).db.payouts[p].state.Sent?
  {
    RunKeepsInv(acts);
    var s := After(acts);
    assert Known(s.db, Delivered(p, provider, ref));
    assert RowInv(s.db.payouts[p]) && PayoutCounts(s.db.payouts[p], s.tally, p);
  }

  lemma UpdateIsRefused(db: Db, p: PayoutId, state: PayoutState, ref: Option<string>, provider: string, fate: Fate)
    requires fate.Dropped? || !Listed(provider) || !RefFree(db, p, ref)
    ensures Update(db, p, state, ref, provider, fate) == (db, false, multiset{})
  {
  }

  // What the database takes of a send that was accepted.
  predicate Recordable(db: Db, at: Point)
    requires at.Recording?
  {
    Listed(at.result.usedProvider) && RefFree(db, at.payout.id, Some(at.result.externalId))
  }

  /** A send that a provider accepted is recorded, with its reference and its provider, if and only if the
      database does not fail, the CHECK admits the provider and no other payout holds the reference. When it is
      not, nothing is written. The client is told `sent` exactly when it was recorded and the reply arrived. */
  lemma AcceptedSendIsRecordedIff(acts: seq<Action>, c: CallId, env: Env)
    requires c in After(acts).calls && After(acts).calls[c].at.Recording? && After(acts).calls[c].at.result.success
    ensures var (s, s', at) := (After(acts), Next(After(acts), Step(c, env)), After(acts).calls[c].at);
      var recorded := Recordable(s.db, at) && !env.fate.Dropped?;
      && at.payout.id in s.db.payouts && at.payout.id in s'.db.payouts
      && (s'.db.payouts[at.payout.id].state.Sent? <==> recorded)
      && (recorded ==> s'.db.payouts[at.payout.id] == s.db.payouts[at.payout.id].(state := Sent,
            externalId := Some(at.result.externalId), provider := ToColumn(at.result.usedProvider)))
      && (!recorded ==> s'.db == s.db)
      && s'.calls[c].at == Answered(Accepted(at.payout.id, if recorded && env.fate.Acked? then Sent else Created))
  {
    RunKeepsInv(acts);
    var (s, at) := (After(acts), After(acts).calls[c].at);
    var p := at.payout.id;
    assert PointInv(s.db, s.tally, s.calls[c].req, at) && RowInv(s.db.payouts[p]);
    WriterFollowsEdge(s, c);
    hide Inv, RowInv, PointInv, RefFree, UpdateRow, After;
    if Recordable(s.db, at) && !env.fate.Dropped? {
      UpdateIsTaken(s.db, p, Sent, Some(at.result.externalId), at.result.usedProvider, env.fate);
      TakenIsSeen(s.db, p, Sent, Some(at.result.externalId), at.result.usedProvider, env.fate);
    } else {
      UpdateIsRefused(s.db, p, Sent, Some(at.result.externalId), at.result.usedProvider, env.fate);
    }
  }

  lemma TakenIsSeen(db: Db, p: PayoutId, state: PayoutState, ref: Option<string>, provider: string, fate: Fate)
    requires p in db.payouts && RowInv(db.payouts[p]) && Listed(provider) && RefFree(db, p, ref)
    ensures Update(db, p, state, ref, provider, fate).1 <==> fate.Acked?
  {
    hide RefFree;
  }

  // The step overwrites p from a snapshot that has no reference, and the database does not fail.
  ghost predicate Erases(s: Sys, a: Action, p: PayoutId) {
    && StepOf(s, a, a.call) && s.calls[a.call].at.Applying? && !a.env.fate.Dropped?
    && s.calls[a.call].at.payout.id == p && s.calls[a.call].at.payout.externalId.None?
  }

  predicate SameReference(r: Row, r': Row) {
    r'.externalId == r.externalId && r'.provider == r.provider
  }

  // A write over a row that has a reference keeps it, unless the writer's snapshot has none.
  lemma WriteKeepsReference(s: Sys, c: CallId, p: PayoutId)
    requires Inv(s) && c in s.calls && IsWriter(s.calls[c].at) && Target(s.calls[c].at) == p
    requires p in s.db.payouts && s.db.payouts[p].externalId.Some?
    requires s.calls[c].at.Applying? ==> s.calls[c].at.payout.externalId.Some?
    ensures SameReference(s.db.payouts[p], Written(s.db.payouts[p], s.calls[c].at))
  {
    assert PointInv(s.db, s.tally, s.calls[c].req, s.calls[c].at);
    assert PayoutCounts(s.db.payouts[p], s.tally, p) && RowInv(s.db.payouts[p]);
  }

  // The database takes an update whose reference no other row holds.
  lemma UpdateIsTaken(db: Db, p: PayoutId, state: PayoutState, ref: Option<string>, provider: string, fate: Fate)
    requires p in db.payouts && RowInv(db.payouts[p]) && Listed(provider) && RefFree(db, p, ref) && !fate.Dropped?
    ensures Update(db, p, state, ref, provider, fate).0 ==
      db.(payouts := db.payouts[p := Updated(db.payouts[p], state, ref, provider)])
  {
    hide RefFree;
  }

  lemma BlankSnapshotIsTaken(s: Sys, a: Action, p: PayoutId)
    requires Inv(s) && p in s.db.payouts && Erases(s, a, p)
    ensures var row := s.db.payouts[p];
      Next(s, a).db == s.db.(payouts := s.db.payouts[p := Written(row, s.calls[a.call].at)])
  {
    var at := s.calls[a.call].at;
    assert PointInv(s.db, s.tally, s.calls[a.call].req, at) && RowInv(s.db.payouts[p]);
    hide Inv, RowInv, Update;
    UpdateIsTaken(s.db, p, at.newState, at.payout.externalId, at.payout.provider, a.env.fate);
  }

  lemma ErasesIff(s: Sys, a: Action, p: PayoutId)
    requires Inv(s) && p in s.db.payouts && s.db.payouts[p].externalId.Some?
    ensures p in Next(s, a).db.payouts
    ensures !SameReference(s.db.payouts[p], Next(s, a).db.payouts[p]) <==> Erases(s, a, p)
    ensures Erases(s, a, p) ==> Next(s, a).db.payouts[p].externalId.None?
  {
    hide Inv, Next, Perform;
    ChangesAreWrites(s, a, p);
    if Erases(s, a, p) {
      BlankSnapshotIsTaken(s, a, p);
    } else if Next(s, a).db.payouts[p] != s.db.payouts[p] {
      DroppedWritesNothing(s, a);
      WriteKeepsReference(s, a.call, p);
    }
  }

  lemma DroppedWritesNothing(s: Sys, a: Action)
    requires StepOf(s, a, a.call)
    ensures s.calls[a.call].at.Applying? && a.env.fate.Dropped? ==> Next(s, a).db == s.db
  {
  }

  /** In every reachable state, a step changes a recorded reference, or the provider beside it, if and only if
      it is the write of a provider update whose snapshot has no reference; and then it erases it. */
  lemma ReferenceLostIff(acts: seq<Action>, a: Action, p: PayoutId)
    requires p in After(acts).db.payouts && After(acts).db.payouts[p].externalId.Some?
    ensures var (s, s') := (After(acts), Next(After(acts), a));
      && p in s'.db.payouts
      && (!SameReference(s.db.payouts[p], s'.db.payouts[p]) <==> Erases(s, a, p))
      && (Erases(s, a, p) ==> s'.db.payouts[p].externalId.None?)
  {
    RunKeepsInv(acts);
    ErasesIff(After(acts), a, p);
  }

  // The step takes its snapshot by the UUID: the second lookup, which has found a row.
  ghost predicate TakesById(s: Sys, a: Action) {
    StepOf(s, a, a.call) && s.calls[a.call].at.LookingUp? && Perform(s.db, s.calls[a.call], a.env).at.Applying?
  }

  /** Every provider update in the run that resolves to a payout at all finds it by external id, whatever its
      reference looks like. */
  ghost predicate ByReference(acts: seq<Action>) {
    forall i :: 0 <= i < |acts| ==> !TakesById(After(acts[..i]), acts[i])
  }

  // The snapshot an update holds agrees with the row it is about to overwrite.
  ghost predicate Fresh(db: Db, call: Call) {
    call.at.Applying? ==>
      var payout := call.at.payout;
      payout.id in db.payouts && payout.externalId.Some? &&
      payout.externalId == db.payouts[payout.id].externalId &&
      payout.provider == FromColumn(db.payouts[payout.id].provider)
  }

  ghost predicate AllFresh(s: Sys) {
    forall c :: c in s.calls ==> Fresh(s.db, s.calls[c])
  }

  lemma NextKeepsReferences(s: Sys, a: Action)
    requires Inv(s) && AllFresh(s)
    ensures KeepsReferences(s.db, Next(s, a).db)
  {
    forall p | p in s.db.payouts && s.db.payouts[p].externalId.Some?
      ensures p in Next(s, a).db.payouts && SameReference(s.db.payouts[p], Next(s, a).db.payouts[p])
    {
      hide Next, Inv;
      assert StepOf(s, a, a.call) ==> Fresh(s.db, s.calls[a.call]);
      ErasesIff(s, a, p);
    }
  }

  ghost predicate KeepsReferences(db: Db, db': Db) {
    forall p :: p in db.payouts && db.payouts[p].externalId.Some? ==>
      p in db'.payouts && SameReference(db.payouts[p], db'.payouts[p])
  }

  lemma SnapshotStaysFresh(db: Db, db': Db, call: Call)
    requires Fresh(db, call) && KeepsReferences(db, db')
    ensures Fresh(db', call)
  {
  }

  // A call that moves takes its snapshot by reference, unless it looks it up by UUID.
  lemma MoveIsFresh(db: Db, call: Call, env: Env)
    requires Fresh(db, call) && !(call.at.LookingUp? && Perform(db, call, env).at.Applying?)
    ensures var e := Perform(db, call, env); Fresh(e.db, call.(at := e.at))
  {
    hide Update, Open, DoCancel, Check, Deliveries, Report;
    match call.at
    case Opening => if call.req.Create? { OpenStaysFresh(db, call.req, env); }
    case Finding =>
    case Checking(_) => CheckStaysFresh(db, call.at.id, env);
    case Canceling(_) => CancelCases(db, call.at.id, env.fate);
    case _ =>
  }

  lemma OpenStaysFresh(db: Db, req: Request, env: Env)
    requires req.Create?
    ensures !Open(db, req, env).at.Applying?
  {
  }

  lemma CheckStaysFresh(db: Db, id: PayoutId, env: Env)
    ensures !Check(db, id, env).Applying?
  {
  }

  lemma NextKeepsFresh(s: Sys, a: Action)
    requires Inv(s) && AllFresh(s) && !TakesById(s, a)
    ensures AllFresh(Next(s, a))
  {
    NextKeepsReferences(s, a);
    hide KeepsReferences, Fresh, Inv;
    if a.Begin? {
      assert Fresh(s.db, Call(a.req, Start(a.req))) by { StartsFresh(s.db, a.req); }
    } else if a.call in s.calls {
      MoveIsFresh(s.db, s.calls[a.call], a.env);
      hide Perform;
      forall c | c in s.calls ensures Fresh(Next(s, a).db, s.calls[c]) {
        SnapshotStaysFresh(s.db, Next(s, a).db, s.calls[c]);
      }
    }
  }

  lemma StartsFresh(db: Db, req: Request)
    ensures Fresh(db, Call(req, Start(req)))
  {
  }

  /** In such runs no snapshot is ever stale. */
  lemma {:induction false} RunKeepsFresh(acts: seq<Action>)
    requires ByReference(acts)
    ensures AllFresh(After(acts))
  {
    if acts != [] {
      var (init, last) := (acts[..|acts| - 1], acts[|acts| - 1]);
      assert init + [last] == acts;
      ByReferencePrefix(init, last);
      RunKeepsFresh(init);
      RunKeepsInv(init);
      NextKeepsFresh(After(init), last);
    }
  }

  lemma ByReferencePrefix(acts: seq<Action>, a: Action)
    requires ByReference(acts + [a])
    ensures ByReference(acts) && !TakesById(After(acts), a)
  {
    hide TakesById, After;
    forall i | 0 <= i < |acts| ensures !TakesById(After(acts[..i]), acts[i]) {
      assert (acts + [a])[..i] == acts[..i] && (acts + [a])[i] == acts[i];
    }
    assert (acts + [a])[..|acts|] == acts && (acts + [a])[|acts|] == a;
  }

  /** References that do not parse as a UUID, such as "pi_1", never get to the second lookup. */
  lemma {:induction false} PlainReferencesResolve(acts: seq<Action>)
    requires forall a :: a in acts && a.Begin? && a.req.Apply? ==> a.req.uuid.None?
    ensures ByReference(acts)
  {
    forall i | 0 <= i < |acts| ensures !TakesById(After(acts[..i]), acts[i]) {
      assert forall a :: a in acts[..i] ==> a in acts;
      UnparsedNeverLooksUp(acts[..i]);
    }
    hide Perform, Exec;
  }

  ghost predicate Unparsed(s: Sys) {
    forall c :: c in s.calls ==> !s.calls[c].at.LookingUp? && (s.calls[c].req.Apply? ==> s.calls[c].req.uuid.None?)
  }

  lemma {:induction false} UnparsedNeverLooksUp(acts: seq<Action>)
    requires forall a :: a in acts && a.Begin? && a.req.Apply? ==> a.req.uuid.None?
    ensures Unparsed(After(acts))
  {
    if acts != [] {
      var init, last := acts[..|acts| - 1], acts[|acts| - 1];
      assert last in acts && forall a :: a in init ==> a in acts;
      UnparsedNeverLooksUp(init);
      if last.Step? && last.call in After(init).calls { MoveStaysUnparsed(After(init).db,
        After(init).calls[last.call], last.env); }
      hide Perform;
    }
  }

  lemma MoveStaysUnparsed(db: Db, call: Call, env: Env)
    requires !call.at.LookingUp? && (call.req.Apply? ==> call.req.uuid.None?)
    ensures !Perform(db, call, env).at.LookingUp?
  {
    hide Update, InsertPayout, CancelRow, Deliveries, Report, FindByRef;
  }

  /** When provider updates resolve by external id, a reference is written once: from then on neither it nor
      the provider ever changes. */
  lemma {:induction false} ReferenceWrittenOnce(acts: seq<Action>, more: seq<Action>, p: PayoutId)
    requires ByReference(acts + more)
    requires p in After(acts).db.payouts && After(acts).db.payouts[p].externalId.Some?
    ensures p in After(acts + more).db.payouts
    ensures SameReference(After(acts).db.payouts[p], After(acts + more).db.payouts[p])
  {
    if more == [] {
      assert acts + more == acts;
    } else {
      var init, a := more[..|more| - 1], more[|more| - 1];
      assert acts + more == acts + init + [a];
      ByReferencePrefix(acts + init, a);
      ReferenceWrittenOnce(acts, init, p);
      ExecAppend(INIT, acts + init, a);
      RunKeepsInv(acts + init);
      RunKeepsFresh(acts + init);
      NextKeepsReferences(After(acts + init), a);
    }
  }
}
