/** The inductive invariant of the payout protocol. */
module ProtocolInvariant {
  import opened Wrappers
  import opened PayoutDomain
  import opened PayoutTables
  import opened Fallback
  import opened PayoutProtocol

  // ---------- the tables

  ghost predicate HasKey(db: Db, p: PayoutId) {
    exists k :: k in db.keys && db.keys[k].payout == p
  }

  predicate RowInv(row: Row) {
    && Checked(row)
    && row.state in {Created, Sent, Failed, Completed, Canceled}
    && (row.state.Created? ==> row.provider.None? && row.externalId.None?)
    && (row.state.Sent? ==> row.externalId.Some?)
  }

  ghost predicate DbInv(db: Db) {
    && (forall k :: k in db.keys ==> db.keys[k].payout in db.payouts)
    && (forall k, l :: k in db.keys && l in db.keys && k != l ==> db.keys[k].payout != db.keys[l].payout)
    && (forall p :: p in db.payouts ==> HasKey(db, p) && RowInv(db.payouts[p]))
    && UniqueRefs(db)
  }

  // ---------- the counts

  predicate Known(db: Db, e: Event) {
    match e
    case SendPhase(k) => k in db.keys
    case SendOk(k) => k in db.keys
    case Delivered(p, _, _) => p in db.payouts
    case Wrote(p, _) => p in db.payouts
    case Recalled(p, _, _) => p in db.payouts
    case CancelOk(p) => p in db.payouts
  }

  // A reference in hand for payout p was delivered for p by that provider, and p was written as sent.
  predicate Genuine(tally: multiset<Event>, p: PayoutId, provider: string, ref: Option<string>) {
    ref.Some? ==> Delivered(p, provider, ref.value) in tally && tally[Wrote(p, Sent)] >= 1
  }

  function Cancelable(row: Row): nat {
    if row.state in CANCELABLE_STATES then 1 else 0
  }

  predicate KeyCounts(db: Db, tally: multiset<Event>, k: string) {
    tally[SendPhase(k)] <= 1 && tally[SendOk(k)] <= tally[SendPhase(k)]
  }

  // Each successful cancel has used up one write of a cancelable state.
  predicate PayoutCounts(row: Row, tally: multiset<Event>, p: PayoutId) {
    && tally[Wrote(p, Created)] == 1
    && tally[Wrote(p, Sent)] <= 1
    && Genuine(tally, p, FromColumn(row.provider), row.externalId)
    && tally[CancelOk(p)] + Cancelable(row) <= tally[Wrote(p, Created)] + tally[Wrote(p, Sent)]
  }

  ghost predicate AllKnown(db: Db, tally: multiset<Event>) {
    forall e :: e in tally ==> Known(db, e)
  }

  ghost predicate KeysCounted(db: Db, tally: multiset<Event>) {
    forall k :: k in db.keys ==> KeyCounts(db, tally, k)
  }

  ghost predicate PayoutsCounted(db: Db, tally: multiset<Event>) {
    forall p :: p in db.payouts ==> PayoutCounts(db.payouts[p], tally, p)
  }

  // A delivery for a payout is a successful send for its key, and there is only one.
  ghost predicate DeliveriesCounted(db: Db, tally: multiset<Event>) {
    && (forall k, r, x :: k in db.keys && Delivered(db.keys[k].payout, r, x) in tally ==> tally[SendOk(k)] >= 1)
    && (forall p, r, x, r', x' :: Delivered(p, r, x) in tally && Delivered(p, r', x') in tally ==> r == r' && x == x')
  }

  ghost predicate RecallsGenuine(tally: multiset<Event>) {
    forall p, r, x :: Recalled(p, r, x) in tally ==> x.Some? && Delivered(p, r, x.value) in tally
  }

  ghost predicate TallyInv(db: Db, tally: multiset<Event>) {
    && AllKnown(db, tally) && KeysCounted(db, tally) && PayoutsCounted(db, tally)
    && DeliveriesCounted(db, tally) && RecallsGenuine(tally)
  }

  // ---------- the calls in flight

  predicate IsSender(at: Point) {
    at.Sending? || at.Recording?
  }

  ghost predicate KeyHeld(db: Db, req: Request, p: PayoutId) {
    req.Create? && req.key in db.keys && db.keys[req.key] == KeyRow(req.hash, p)
  }

  ghost predicate PointInv(db: Db, tally: multiset<Event>, req: Request, at: Point) {
    match at
    case Opening => req.Create?
    case Replaying(p) => KeyHeld(db, req, p)
    case Sending(payout) =>
      && KeyHeld(db, req, payout.id) && payout.state.Created?
      && tally[SendOk(req.key)] == 0 && tally[SendPhase(req.key)] == 1 && tally[Wrote(payout.id, Sent)] == 0
    case Recording(payout, result) =>
      && KeyHeld(db, req, payout.id) && payout.state.Created?
      && tally[Wrote(payout.id, Sent)] == 0
      && (result.success ==> Delivered(payout.id, result.usedProvider, result.externalId) in tally)
    case Checking(_) => req.Cancel?
    case Recalling(payout) =>
      && req.Cancel? && payout.id in db.payouts && payout.state.Sent? && payout.externalId.Some?
      && Genuine(tally, payout.id, payout.provider, payout.externalId)
    case Canceling(_) => req.Cancel?
    case Finding => req.Apply?
    case LookingUp(_) => req.Apply?
    case Applying(payout, newState) =>
      && req.Apply? && payout.id in db.payouts && newState in {Completed, Failed, Canceled}
      && Listed(payout.provider)
      && Genuine(tally, payout.id, payout.provider, payout.externalId)
    case Answered(resp) => req.Create? && resp.Accepted? ==> KeyHeld(db, req, resp.payout)
  }

  ghost predicate CallsInv(s: Sys) {
    && (forall c :: c in s.calls ==> PointInv(s.db, s.tally, s.calls[c].req, s.calls[c].at))
    && (forall c, d :: c in s.calls && d in s.calls && c != d && IsSender(s.calls[c].at) && IsSender(s.calls[d].at) ==>
          s.calls[c].at.payout.id != s.calls[d].at.payout.id)
  }

  ghost predicate Inv(s: Sys) {
    DbInv(s.db) && TallyInv(s.db, s.tally) && CallsInv(s)
  }

  // ---------- preservation

  /** Keys are only added, payouts are only added, and what was counted stays counted. */
  ghost predicate Grows(db: Db, tally: multiset<Event>, db': Db, tally': multiset<Event>) {
    && db.payouts.Keys <= db'.payouts.Keys
    && (forall k :: k in db.keys ==> k in db'.keys && db'.keys[k] == db.keys[k])
    && tally <= tally'
  }

  // The events a call in its send phase counts on being absent.
  predicate Disturbs(events: multiset<Event>, req: Request, at: Point) {
    && IsSender(at) && req.Create?
    && (SendOk(req.key) in events || SendPhase(req.key) in events || Wrote(at.payout.id, Sent) in events)
  }

  lemma PointStays(db: Db, tally: multiset<Event>, db': Db, events: multiset<Event>, req: Request, at: Point)
    requires PointInv(db, tally, req, at)
    requires Grows(db, tally, db', tally + events)
    requires !Disturbs(events, req, at)
    ensures PointInv(db', tally + events, req, at)
  {
  }

  ghost predicate Alone(s: Sys, c: CallId, at: Point) {
    IsSender(at) ==> forall d :: d in s.calls && d != c && IsSender(s.calls[d].at) ==>
      s.calls[d].at.payout.id != at.payout.id
  }

  ghost predicate OthersUndisturbed(s: Sys, c: CallId, events: multiset<Event>) {
    forall d :: d in s.calls && d != c ==> !Disturbs(events, s.calls[d].req, s.calls[d].at)
  }

  lemma StepKeepsCalls(s: Sys, c: CallId, e: Effect)
    requires CallsInv(s) && c in s.calls
    requires Grows(s.db, s.tally, e.db, s.tally + e.events)
    requires PointInv(e.db, s.tally + e.events, s.calls[c].req, e.at)
    requires Alone(s, c, e.at) && OthersUndisturbed(s, c, e.events)
    ensures CallsInv(Sys(e.db, s.calls[c := s.calls[c].(at := e.at)], s.tally + e.events))
  {
    forall d | d in s.calls && d != c
      ensures PointInv(e.db, s.tally + e.events, s.calls[d].req, s.calls[d].at)
    {
      PointStays(s.db, s.tally, e.db, e.events, s.calls[d].req, s.calls[d].at);
    }
  }

  /** A step that only moves the call. */
  lemma MoveKeepsInv(s: Sys, c: CallId, env: Env, at: Point)
    requires Inv(s) && c in s.calls
    requires Perform(s.db, s.calls[c], env) == Only(s.db, at)
    requires PointInv(s.db, s.tally, s.calls[c].req, at)
    requires IsSender(at) ==> at == s.calls[c].at
    ensures Inv(Next(s, Step(c, env)))
  {
    assert s.tally + multiset{} == s.tally;
    StepKeepsCalls(s, c, Only(s.db, at));
  }

  lemma InsertKeepsDb(db: Db, p: PayoutId, row: Row, key: string, hash: string)
    requires DbInv(db) && p !in db.payouts && key !in db.keys && RowInv(row) && row.externalId.None?
    ensures DbInv(Db(db.payouts[p := row], db.keys[key := KeyRow(hash, p)]))
  {
    var db' := Db(db.payouts[p := row], db.keys[key := KeyRow(hash, p)]);
    assert db'.keys[key].payout == p;
    forall q | q in db'.payouts ensures HasKey(db', q) {
      if q != p {
        var k :| k in db.keys && db.keys[k].payout == q;
        assert db'.keys[k].payout == q;
      }
    }
  }

  lemma KnownStays(db: Db, tally: multiset<Event>, db': Db, events: multiset<Event>)
    requires AllKnown(db, tally) && AllKnown(db', events)
    requires db.keys.Keys <= db'.keys.Keys && db.payouts.Keys <= db'.payouts.Keys
    ensures AllKnown(db', tally + events)
  {
    forall e | e in tally + events ensures Known(db', e) {
      assert e in tally ==> Known(db, e);
    }
  }

  lemma KeysStayCounted(db: Db, tally: multiset<Event>, db': Db, events: multiset<Event>)
    requires KeysCounted(db, tally) && db'.keys == db.keys
    requires forall k :: k in db.keys ==> SendPhase(k) !in events && SendOk(k) !in events
    ensures KeysCounted(db', tally + events)
  {
    forall k | k in db'.keys ensures KeyCounts(db', tally + events, k) {
      assert KeyCounts(db, tally, k);
    }
  }

  lemma DeliveriesStayCounted(db: Db, tally: multiset<Event>, db': Db, events: multiset<Event>)
    requires DeliveriesCounted(db, tally) && RecallsGenuine(tally) && db'.keys == db.keys
    requires forall e :: e in events ==> RowEvent(e)
    ensures DeliveriesCounted(db', tally + events) && RecallsGenuine(tally + events)
  {
    assert forall e :: e in tally + events && (e.Delivered? || e.Recalled?) ==> e in tally;
  }

  predicate RowEvent(e: Event) {
    e.Wrote? || e.CancelOk?
  }

  lemma PayoutsStayCounted(db: Db, tally: multiset<Event>, events: multiset<Event>)
    requires PayoutsCounted(db, tally)
    requires forall e :: e in events ==> !RowEvent(e)
    ensures PayoutsCounted(db, tally + events)
  {
    forall p | p in db.payouts ensures PayoutCounts(db.payouts[p], tally + events, p) {
      PayoutStaysCounted(db.payouts[p], tally, events, p);
    }
  }

  lemma PayoutStaysCounted(row: Row, tally: multiset<Event>, events: multiset<Event>, p: PayoutId)
    requires PayoutCounts(row, tally, p)
    requires Wrote(p, Created) !in events && Wrote(p, Sent) !in events && CancelOk(p) !in events
    ensures PayoutCounts(row, tally + events, p)
  {
  }

  // Nothing was counted yet for a payout, or a key, that is not there.
  lemma NothingKnown(db: Db, tally: multiset<Event>, p: PayoutId, key: string)
    requires AllKnown(db, tally)
    ensures p !in db.payouts ==>
      && (forall state :: Wrote(p, state) !in tally) && CancelOk(p) !in tally
      && (forall r, x :: Delivered(p, r, x) !in tally)
    ensures key !in db.keys ==> SendPhase(key) !in tally && SendOk(key) !in tally
  {
    if p !in db.payouts {
      assert forall state :: !Known(db, Wrote(p, state));
      assert !Known(db, CancelOk(p));
      assert forall r, x :: !Known(db, Delivered(p, r, x));
    }
    if key !in db.keys {
      assert !Known(db, SendPhase(key)) && !Known(db, SendOk(key));
    }
  }

  function InsertEvents(p: PayoutId, key: string, sending: bool): multiset<Event> {
    multiset{Wrote(p, Created)} + if sending then multiset{SendPhase(key)} else multiset{}
  }

  lemma InsertKeepsPayoutCounts(db: Db, tally: multiset<Event>, p: PayoutId, row: Row, key: string, sending: bool)
    requires AllKnown(db, tally) && PayoutsCounted(db, tally) && p !in db.payouts
    requires row.state.Created? && row.externalId.None?
    ensures PayoutsCounted(db.(payouts := db.payouts[p := row]), tally + InsertEvents(p, key, sending))
  {
    NothingKnown(db, tally, p, key);
    var payouts := db.payouts[p := row];
    forall q | q in payouts ensures PayoutCounts(payouts[q], tally + InsertEvents(p, key, sending), q) {
      if q != p { assert PayoutCounts(db.payouts[q], tally, q); }
    }
  }

  lemma InsertKeepsTally(db: Db, tally: multiset<Event>, p: PayoutId, row: Row, key: string, hash: string,
      sending: bool)
    requires TallyInv(db, tally) && p !in db.payouts && key !in db.keys
    requires forall k :: k in db.keys ==> db.keys[k].payout in db.payouts
    requires row.state.Created? && row.externalId.None?
    ensures TallyInv(Db(db.payouts[p := row], db.keys[key := KeyRow(hash, p)]), tally + InsertEvents(p, key, sending))
  {
    var db' := Db(db.payouts[p := row], db.keys[key := KeyRow(hash, p)]);
    var tally' := tally + InsertEvents(p, key, sending);
    NothingKnown(db, tally, p, key);
    assert PayoutsCounted(db', tally') by {
      InsertKeepsPayoutCounts(db, tally, p, row, key, sending);
    }
    assert KeysCounted(db', tally') by {
      forall k | k in db'.keys ensures KeyCounts(db', tally', k) {
        if k != key { assert KeyCounts(db, tally, k); }
      }
    }
    assert AllKnown(db', tally') by {
      forall e | e in tally' ensures Known(db', e) {
        assert e in tally ==> Known(db, e);
      }
    }
  }

  // What the transaction can do: nothing to the tables, or one row and one key.
  lemma OpenCases(db: Db, req: Request, env: Env)
    requires req.Create?
    ensures var e := Open(db, req, env);
      || (e == Only(db, e.at) && PointInv(db, multiset{}, req, e.at) && !IsSender(e.at))
      || Inserts(db, req, env.newId, e)
  {
  }

  function NewRow(req: Request): Row
    requires req.Create?
  {
    Row(Created, req.amountCents, req.currency, req.rail, None, None)
  }

  predicate Inserts(db: Db, req: Request, p: PayoutId, e: Effect) {
    && req.Create? && p !in db.payouts && req.key !in db.keys && RowInv(NewRow(req))
    && e.db == Db(db.payouts[p := NewRow(req)], db.keys[req.key := KeyRow(req.hash, p)])
    && e.events == InsertEvents(p, req.key, e.at.Sending?)
    && (e.at == Sending(ToDomain(p, NewRow(req))) || e.at == Answered(Rejected(Internal)))
  }

  lemma OpenKeepsInv(s: Sys, c: CallId, env: Env)
    requires Inv(s) && c in s.calls && s.calls[c].at.Opening?
    ensures Inv(Next(s, Step(c, env)))
  {
    var e := Open(s.db, s.calls[c].req, env);
    OpenCases(s.db, s.calls[c].req, env);
    if Inserts(s.db, s.calls[c].req, env.newId, e) {
      InsertStepKeepsInv(s, c, env.newId, e);
    } else {
      MoveKeepsInv(s, c, env, e.at);
    }
  }

  lemma InsertStepKeepsInv(s: Sys, c: CallId, p: PayoutId, e: Effect)
    requires Inv(s) && c in s.calls && Inserts(s.db, s.calls[c].req, p, e)
    ensures Inv(Sys(e.db, s.calls[c := s.calls[c].(at := e.at)], s.tally + e.events))
  {
    var req := s.calls[c].req;
    InsertKeepsDb(s.db, p, NewRow(req), req.key, req.hash);
    InsertKeepsTally(s.db, s.tally, p, NewRow(req), req.key, req.hash, e.at.Sending?);
    InsertStepKeepsCalls(s, c, p, e);
  }

  lemma InsertStepKeepsCalls(s: Sys, c: CallId, p: PayoutId, e: Effect)
    requires CallsInv(s) && AllKnown(s.db, s.tally) && c in s.calls && Inserts(s.db, s.calls[c].req, p, e)
    requires forall k :: k in s.db.keys ==> s.db.keys[k].payout in s.db.payouts
    ensures CallsInv(Sys(e.db, s.calls[c := s.calls[c].(at := e.at)], s.tally + e.events))
  {
    var req := s.calls[c].req;
    NothingKnown(s.db, s.tally, p, req.key);
    StepKeepsCalls(s, c, e);
  }

  // ---------- a row is written

  lemma WriteKeepsDb(db: Db, p: PayoutId, row: Row)
    requires DbInv(db) && p in db.payouts && RowInv(row) && RefFree(db, p, row.externalId)
    ensures DbInv(db.(payouts := db.payouts[p := row]))
  {
    var db' := db.(payouts := db.payouts[p := row]);
    forall q | q in db'.payouts ensures HasKey(db', q) {
      assert HasKey(db, q);
      var k :| k in db.keys && db.keys[k].payout == q;
      assert db'.keys[k].payout == q;
    }
  }

  function WriteEvents(p: PayoutId, state: PayoutState, canceled: bool): multiset<Event> {
    multiset{Wrote(p, state)} + if canceled then multiset{CancelOk(p)} else multiset{}
  }

  lemma WriteKeepsPayoutCounts(db: Db, tally: multiset<Event>, p: PayoutId, row: Row, canceled: bool)
    requires PayoutsCounted(db, tally) && p in db.payouts && !row.state.Created?
    requires PayoutCounts(row, tally + WriteEvents(p, row.state, canceled), p)
    ensures PayoutsCounted(db.(payouts := db.payouts[p := row]), tally + WriteEvents(p, row.state, canceled))
  {
    var db' := db.(payouts := db.payouts[p := row]);
    var events := WriteEvents(p, row.state, canceled);
    forall q | q in db'.payouts ensures PayoutCounts(db'.payouts[q], tally + events, q) {
      if q != p { PayoutStaysCounted(db.payouts[q], tally, events, q); }
    }
  }

  lemma WriteKeepsTally(db: Db, tally: multiset<Event>, p: PayoutId, row: Row, canceled: bool)
    requires TallyInv(db, tally) && p in db.payouts && !row.state.Created?
    requires PayoutCounts(row, tally + WriteEvents(p, row.state, canceled), p)
    ensures TallyInv(db.(payouts := db.payouts[p := row]), tally + WriteEvents(p, row.state, canceled))
  {
    var db' := db.(payouts := db.payouts[p := row]);
    var events := WriteEvents(p, row.state, canceled);
    KnownStays(db, tally, db', events);
    KeysStayCounted(db, tally, db', events);
    DeliveriesStayCounted(db, tally, db', events);
    WriteKeepsPayoutCounts(db, tally, p, row, canceled);
  }

  predicate Writes(s: Sys, c: CallId, p: PayoutId, row: Row, canceled: bool, e: Effect)
    requires c in s.calls
  {
    && p in s.db.payouts && RowInv(row) && RefFree(s.db, p, row.externalId) && !row.state.Created?
    && e.db == s.db.(payouts := s.db.payouts[p := row])
    && e.events == WriteEvents(p, row.state, canceled)
    && !IsSender(e.at)
    && (row.state.Sent? ==> s.calls[c].at.Recording? && s.calls[c].at.payout.id == p)
  }

  lemma WriteKeepsInv(s: Sys, c: CallId, p: PayoutId, row: Row, canceled: bool, e: Effect)
    requires Inv(s) && c in s.calls && Writes(s, c, p, row, canceled, e)
    requires PayoutCounts(row, s.tally + e.events, p)
    requires PointInv(e.db, s.tally + e.events, s.calls[c].req, e.at)
    ensures Inv(Sys(e.db, s.calls[c := s.calls[c].(at := e.at)], s.tally + e.events))
  {
    WriteKeepsDb(s.db, p, row);
    WriteKeepsTally(s.db, s.tally, p, row, canceled);
    WriteKeepsCalls(s, c, p, row, canceled, e);
  }

  lemma WriteKeepsCalls(s: Sys, c: CallId, p: PayoutId, row: Row, canceled: bool, e: Effect)
    requires CallsInv(s) && c in s.calls && Writes(s, c, p, row, canceled, e)
    requires PointInv(e.db, s.tally + e.events, s.calls[c].req, e.at)
    ensures CallsInv(Sys(e.db, s.calls[c := s.calls[c].(at := e.at)], s.tally + e.events))
  {
    StepKeepsCalls(s, c, e);
  }

  // The counts of p in a reachable state, and after one more write.
  lemma WriteCounts(db: Db, tally: multiset<Event>, p: PayoutId, row: Row, canceled: bool)
    requires p in db.payouts && PayoutCounts(db.payouts[p], tally, p) && !row.state.Created?
    requires row.state.Sent? ==> tally[Wrote(p, Sent)] == 0
    requires canceled ==> db.payouts[p].state in CANCELABLE_STATES
    requires row.state in {Sent, Failed, Completed, Canceled} && (canceled ==> row.state.Canceled?)
    requires Genuine(tally + WriteEvents(p, row.state, canceled), p, FromColumn(row.provider), row.externalId)
    ensures PayoutCounts(row, tally + WriteEvents(p, row.state, canceled), p)
  {
  }

  // The row an unconditional update leaves behind, when it has an effect.
  function Updated(row: Row, state: PayoutState, ref: Option<string>, provider: string): Row {
    row.(state := state, externalId := ref, provider := ToColumn(provider))
  }

  lemma UpdateCases(db: Db, p: PayoutId, state: PayoutState, ref: Option<string>, provider: string, fate: Fate)
    requires p in db.payouts
    ensures var (db', seen, events) := Update(db, p, state, ref, provider, fate);
      var row := Updated(db.payouts[p], state, ref, provider);
      || (db' == db && !seen && events == multiset{})
      || (db' == db.(payouts := db.payouts[p := row]) && Checked(row) && RefFree(db, p, ref) &&
          events == WriteEvents(p, state, false))
  {
  }

  // The two callers of UpdatePayoutState: the send phase, and a provider update.
  ghost predicate MayUpdate(s: Sys, c: CallId, p: PayoutId, state: PayoutState, ref: Option<string>, provider: string)
    requires c in s.calls
  {
    && p in s.db.payouts
    && state in {Sent, Failed, Completed, Canceled}
    && (state.Sent? ==>
          && s.calls[c].at.Recording? && s.calls[c].at.payout.id == p
          && ref.Some? && s.tally[Wrote(p, Sent)] == 0)
    && Genuine(s.tally + multiset{Wrote(p, state)}, p, provider, ref)
  }

  lemma UpdateKeepsInv(s: Sys, c: CallId, p: PayoutId, state: PayoutState, ref: Option<string>, provider: string,
      env: Env)
    requires Inv(s) && c in s.calls && MayUpdate(s, c, p, state, ref, provider)
    requires var e := Perform(s.db, s.calls[c], env);
      (e.db, e.events) == (Update(s.db, p, state, ref, provider, env.fate).0, Update(s.db, p, state, ref, provider,
        env.fate).2) &&
      e.at.Answered? && PointInv(s.db, s.tally, s.calls[c].req, e.at)
    ensures Inv(Next(s, Step(c, env)))
  {
    var e := Perform(s.db, s.calls[c], env);
    var row := Updated(s.db.payouts[p], state, ref, provider);
    UpdateCases(s.db, p, state, ref, provider, env.fate);
    if e.events == multiset{} {
      MoveKeepsInv(s, c, env, e.at);
    } else {
      StepWritesRow(s, c, p, row, false, e);
    }
  }

  lemma RecordKeepsInv(s: Sys, c: CallId, env: Env)
    requires Inv(s) && c in s.calls && s.calls[c].at.Recording?
    ensures Inv(Next(s, Step(c, env)))
  {
    var payout, result := s.calls[c].at.payout, s.calls[c].at.result;
    assert PointInv(s.db, s.tally, s.calls[c].req, s.calls[c].at);
    UpdateKeepsInv(s, c, payout.id, RecordedState(result), RecordedRef(result), RecordedProvider(result), env);
  }

  lemma ApplyKeepsInv(s: Sys, c: CallId, env: Env)
    requires Inv(s) && c in s.calls && s.calls[c].at.Applying?
    ensures Inv(Next(s, Step(c, env)))
  {
    var payout, newState := s.calls[c].at.payout, s.calls[c].at.newState;
    assert PointInv(s.db, s.tally, s.calls[c].req, s.calls[c].at);
    UpdateKeepsInv(s, c, payout.id, newState, payout.externalId, payout.provider, env);
  }

  lemma CancelCases(db: Db, p: PayoutId, fate: Fate)
    ensures var e := DoCancel(db, p, fate);
      || e == Only(db, Answered(Rejected(Internal)))
      || (p in db.payouts && db.payouts[p].state in CANCELABLE_STATES && e.at.Answered? && !e.at.resp.Accepted? &&
          e.db == db.(payouts := db.payouts[p := db.payouts[p].(state := Canceled)]) &&
          e.events == WriteEvents(p, Canceled, fate.Acked?))
  {
  }

  // ---------- all the writes to existing rows

  predicate IsWriter(at: Point) {
    at.Recording? || at.Canceling? || at.Applying?
  }

  function Target(at: Point): PayoutId
    requires IsWriter(at)
  {
    if at.Canceling? then at.id else at.payout.id
  }

  function Written(row: Row, at: Point): Row
    requires IsWriter(at)
  {
    match at
    case Recording(_, result) => Updated(row, RecordedState(result), RecordedRef(result), RecordedProvider(result))
    case Applying(payout, newState) => Updated(row, newState, payout.externalId, payout.provider)
    case Canceling(_) => row.(state := Canceled)
  }

  predicate RowWrite(db: Db, at: Point, e: Effect) {
    && IsWriter(at) && Target(at) in db.payouts
    && e.db == db.(payouts := db.payouts[Target(at) := Written(db.payouts[Target(at)], at)])
    && (at.Canceling? ==> db.payouts[Target(at)].state in CANCELABLE_STATES)
  }

  /** What a step can do to the tables: nothing, insert a payout with its key, or write one row. */
  lemma PerformCases(db: Db, call: Call, env: Env)
    ensures var e := Perform(db, call, env);
      || e.db == db
      || (call.at.Opening? && Inserts(db, call.req, env.newId, e))
      || RowWrite(db, call.at, e)
  {
    match call.at
    case Opening => if call.req.Create? { OpenCases(db, call.req, env); }
    case Canceling(id) => CancelCases(db, id, env.fate);
    case _ =>
  }

  lemma CancelPerforms(db: Db, call: Call, env: Env)
    requires call.at.Canceling?
    ensures Perform(db, call, env) == DoCancel(db, call.at.id, env.fate)
  {
    hide DoCancel;
  }

  lemma CancelersCancel(s: Sys, c: CallId)
    requires Inv(s) && c in s.calls && s.calls[c].at.Canceling?
    ensures s.calls[c].req.Cancel?
  {
    assert PointInv(s.db, s.tally, s.calls[c].req, s.calls[c].at);
  }

  lemma CancelKeepsInv(s: Sys, c: CallId, env: Env)
    requires Inv(s) && c in s.calls && s.calls[c].at.Canceling?
    ensures Inv(Next(s, Step(c, env)))
  {
    hide Inv, Perform, DoCancel;
    var p := s.calls[c].at.id;
    var e := DoCancel(s.db, p, env.fate);
    CancelPerforms(s.db, s.calls[c], env);
    CancelCases(s.db, p, env.fate);
    CancelersCancel(s, c);
    if e == Only(s.db, Answered(Rejected(Internal))) {
      MoveKeepsInv(s, c, env, e.at);
    } else {
      CancelStepKeepsInv(s, c, p, env.fate.Acked?, e);
    }
  }

  lemma CancelStepKeepsInv(s: Sys, c: CallId, p: PayoutId, canceled: bool, e: Effect)
    requires Inv(s) && c in s.calls && s.calls[c].at.Canceling?
    requires p in s.db.payouts && s.db.payouts[p].state in CANCELABLE_STATES && e.at.Answered? && !e.at.resp.Accepted?
    requires e.db == s.db.(payouts := s.db.payouts[p := s.db.payouts[p].(state := Canceled)])
    requires e.events == WriteEvents(p, Canceled, canceled)
    ensures Inv(Sys(e.db, s.calls[c := s.calls[c].(at := e.at)], s.tally + e.events))
  {
    CanceledRow(s.db, s.tally, p);
    StepWritesRow(s, c, p, s.db.payouts[p].(state := Canceled), canceled, e);
  }

  // A canceled row is as good as the row was.
  lemma CanceledRow(db: Db, tally: multiset<Event>, p: PayoutId)
    requires DbInv(db) && PayoutsCounted(db, tally) && p in db.payouts
    ensures var row := db.payouts[p].(state := Canceled);
      RowInv(row) && RefFree(db, p, row.externalId) && Genuine(tally, p, FromColumn(row.provider), row.externalId)
  {
    assert RowInv(db.payouts[p]) && PayoutCounts(db.payouts[p], tally, p);
  }

  lemma StepWritesRow(s: Sys, c: CallId, p: PayoutId, row: Row, canceled: bool, e: Effect)
    requires Inv(s) && c in s.calls && Writes(s, c, p, row, canceled, e)
    requires row.state.Sent? ==> s.tally[Wrote(p, Sent)] == 0
    requires canceled ==> s.db.payouts[p].state in CANCELABLE_STATES && row.state.Canceled?
    requires Genuine(s.tally + e.events, p, FromColumn(row.provider), row.externalId)
    requires PointInv(s.db, s.tally, s.calls[c].req, e.at) && e.at.Answered?
    ensures Inv(Sys(e.db, s.calls[c := s.calls[c].(at := e.at)], s.tally + e.events))
  {
    WriteCounts(s.db, s.tally, p, row, canceled);
    WriteKeepsInv(s, c, p, row, canceled, e);
  }

  // ---------- a pass over the providers

  /** At most one attempt of a pass is answered with a reference, and the report tells which. */
  lemma {:induction false} PassDeliversOnce(key: string, id: PayoutId, attempts: seq<Attempt>)
    requires IsPass(attempts)
    ensures var r := Report(attempts);
      Deliveries(key, id, attempts) ==
        if r.success then multiset{SendOk(key), Delivered(id, r.usedProvider, r.externalId)} else multiset{}
  {
    if attempts != [] {
      var init := attempts[..|attempts| - 1];
      PassDeliversOnce(key, id, init);
      assert init != [] ==> init[|init| - 1] == attempts[|attempts| - 2];
      assert !Report(init).success;
    }
  }

  lemma DeliveryKeepsKeyCounts(db: Db, tally: multiset<Event>, key: string, e: Event)
    requires KeysCounted(db, tally) && tally[SendOk(key)] == 0 && tally[SendPhase(key)] == 1 && e.Delivered?
    ensures KeysCounted(db, tally + multiset{SendOk(key), e})
  {
    forall k | k in db.keys ensures KeyCounts(db, tally + multiset{SendOk(key), e}, k) {
      assert KeyCounts(db, tally, k);
    }
  }

  lemma DeliveryKeepsDeliveries(db: Db, tally: multiset<Event>, key: string, p: PayoutId, r: string, x: string)
    requires DeliveriesCounted(db, tally) && DbInv(db)
    requires key in db.keys && db.keys[key].payout == p && tally[SendOk(key)] == 0
    ensures DeliveriesCounted(db, tally + multiset{SendOk(key), Delivered(p, r, x)})
  {
    assert forall r', x' :: Delivered(p, r', x') !in tally;
  }

  lemma DeliveryKeepsRecalls(tally: multiset<Event>, events: multiset<Event>)
    requires RecallsGenuine(tally) && forall e :: e in events ==> !e.Recalled?
    ensures RecallsGenuine(tally + events)
  {
    assert forall e :: e in tally + events && e.Recalled? ==> e in tally;
  }

  lemma DeliveryKeepsTally(db: Db, tally: multiset<Event>, key: string, p: PayoutId, r: string, x: string)
    requires DbInv(db) && TallyInv(db, tally)
    requires key in db.keys && db.keys[key].payout == p && tally[SendOk(key)] == 0 && tally[SendPhase(key)] == 1
    ensures TallyInv(db, tally + multiset{SendOk(key), Delivered(p, r, x)})
  {
    var events := multiset{SendOk(key), Delivered(p, r, x)};
    assert p in db.payouts;
    assert AllKnown(db, events);
    DeliveryKeepsDeliveries(db, tally, key, p, r, x);
    hide DbInv, AllKnown, PayoutsCounted, KeysCounted, DeliveriesCounted, RecallsGenuine;
    KnownStays(db, tally, db, events);
    PayoutsStayCounted(db, tally, events);
    DeliveryKeepsKeyCounts(db, tally, key, Delivered(p, r, x));
    DeliveryKeepsRecalls(tally, events);
  }

  lemma SendKeepsInv(s: Sys, c: CallId, env: Env)
    requires Inv(s) && c in s.calls && s.calls[c].at.Sending?
    ensures Inv(Next(s, Step(c, env)))
  {
    var req, payout := s.calls[c].req, s.calls[c].at.payout;
    if IsPass(env.attempts) {
      PassDeliversOnce(req.key, payout.id, env.attempts);
      var e := Perform(s.db, s.calls[c], env);
      assert TallyInv(s.db, s.tally + e.events) by {
        if e.at.result.success {
          DeliveryKeepsTally(s.db, s.tally, req.key, payout.id, e.at.result.usedProvider, e.at.result.externalId);
        } else {
          assert s.tally + e.events == s.tally;
        }
      }
      SendKeepsCalls(s, c, e);
    } else {
      MoveKeepsInv(s, c, env, s.calls[c].at);
    }
  }

  lemma SendKeepsCalls(s: Sys, c: CallId, e: Effect)
    requires CallsInv(s) && c in s.calls && s.calls[c].at.Sending? && e.db == s.db && e.at.Recording?
    requires e.at.payout == s.calls[c].at.payout
    requires var (key, r) := (s.calls[c].req.key, e.at.result);
      s.calls[c].req.Create? && e.events ==
        if r.success then multiset{SendOk(key), Delivered(e.at.payout.id, r.usedProvider, r.externalId)} else multiset{}
    ensures CallsInv(Sys(e.db, s.calls[c := s.calls[c].(at := e.at)], s.tally + e.events))
  {
    StepKeepsCalls(s, c, e);
  }

  // ---------- the remaining steps

  lemma RecallKeepsInv(s: Sys, c: CallId, env: Env)
    requires Inv(s) && c in s.calls && s.calls[c].at.Recalling?
    ensures Inv(Next(s, Step(c, env)))
  {
    var payout := s.calls[c].at.payout;
    var e := Perform(s.db, s.calls[c], env);
    RecallKeepsTally(s.db, s.tally, payout.id, payout.provider, payout.externalId);
    StepKeepsCalls(s, c, e);
  }

  lemma RecallKeepsTally(db: Db, tally: multiset<Event>, p: PayoutId, r: string, x: Option<string>)
    requires TallyInv(db, tally) && p in db.payouts && x.Some? && Delivered(p, r, x.value) in tally
    ensures TallyInv(db, tally + multiset{Recalled(p, r, x)})
  {
    var events := multiset{Recalled(p, r, x)};
    KnownStays(db, tally, db, events);
    PayoutsStayCounted(db, tally, events);
    KeysStayCounted(db, tally, db, events);
  }

  // A row that is read has a listed provider and a genuine reference, and the snapshot is either refused or
  // good enough to be written back.
  lemma FoundCases(db: Db, tally: multiset<Event>, req: Request, p: PayoutId)
    requires req.Apply? && p in db.payouts && RowInv(db.payouts[p]) && PayoutCounts(db.payouts[p], tally, p)
    ensures var at := Found(ToDomain(p, db.payouts[p]), req.providerStatus);
      PointInv(db, tally, req, at) && !IsSender(at)
  {
  }

  lemma FindCases(db: Db, tally: multiset<Event>, req: Request, env: Env)
    requires req.Apply? && PayoutsCounted(db, tally) && forall p :: p in db.payouts ==> RowInv(db.payouts[p])
    ensures PointInv(db, tally, req, Find(db, req, env)) && !IsSender(Find(db, req, env))
  {
    hide Found, RowInv, PayoutCounts;
    var hit := if env.fate.Acked? then FindByRef(db, req.ref) else None;
    if hit.Some? { FoundCases(db, tally, req, hit.value); }
  }

  lemma LookUpCases(db: Db, tally: multiset<Event>, id: PayoutId, req: Request, env: Env)
    requires req.Apply? && PayoutsCounted(db, tally) && forall p :: p in db.payouts ==> RowInv(db.payouts[p])
    ensures PointInv(db, tally, req, LookUp(db, id, req, env)) && !IsSender(LookUp(db, id, req, env))
  {
    hide Found, RowInv, PayoutCounts;
    if id in db.payouts { FoundCases(db, tally, req, id); }
  }

  lemma CheckCases(db: Db, tally: multiset<Event>, id: PayoutId, req: Request, env: Env)
    requires req.Cancel? && PayoutsCounted(db, tally) && forall p :: p in db.payouts ==> RowInv(db.payouts[p])
    ensures PointInv(db, tally, req, Check(db, id, env)) && !IsSender(Check(db, id, env))
  {
    assert id in db.payouts ==> PayoutCounts(db.payouts[id], tally, id) && RowInv(db.payouts[id]);
  }

  predicate Looks(at: Point) {
    at.Replaying? || at.Checking? || at.Finding? || at.LookingUp? || at.Answered?
  }

  // Where the reads lead.
  lemma LookCases(db: Db, tally: multiset<Event>, call: Call, env: Env)
    requires PointInv(db, tally, call.req, call.at) && Looks(call.at)
    requires PayoutsCounted(db, tally) && forall p :: p in db.payouts ==> RowInv(db.payouts[p])
    ensures var e := Perform(db, call, env);
      e == Only(db, e.at) && PointInv(db, tally, call.req, e.at) && !IsSender(e.at)
  {
    hide PayoutsCounted, RowInv, Find, LookUp, Check, Open, Record, DoCancel, DoApply, Deliveries, Report;
    match call.at
    case Checking(id) => CheckCases(db, tally, id, call.req, env);
    case Finding => FindCases(db, tally, call.req, env);
    case LookingUp(id) => LookUpCases(db, tally, id, call.req, env);
    case _ =>
  }

  lemma LookKeepsInv(s: Sys, c: CallId, env: Env)
    requires Inv(s) && c in s.calls && Looks(s.calls[c].at)
    ensures Inv(Next(s, Step(c, env)))
  {
    LookCases(s.db, s.tally, s.calls[c], env);
    MoveKeepsInv(s, c, env, Perform(s.db, s.calls[c], env).at);
  }

  lemma BeginKeepsCalls(s: Sys, c: CallId, req: Request)
    requires CallsInv(s) && c !in s.calls
    ensures CallsInv(s.(calls := s.calls[c := Call(req, Start(req))]))
  {
  }

  lemma BeginKeepsInv(s: Sys, c: CallId, req: Request)
    requires Inv(s)
    ensures Inv(Next(s, Begin(c, req)))
  {
    if c !in s.calls { BeginKeepsCalls(s, c, req); }
  }

  /** Every step keeps the invariant. */
  lemma NextKeepsInv(s: Sys, a: Action)
    requires Inv(s)
    ensures Inv(Next(s, a))
  {
    match a
    case Begin(c, req) => BeginKeepsInv(s, c, req);
    case Step(c, env) =>
      if c in s.calls {
        match s.calls[c].at
        case Opening => OpenKeepsInv(s, c, env);
        case Sending(_) => SendKeepsInv(s, c, env);
        case Recording(_, _) => RecordKeepsInv(s, c, env);
        case Recalling(_) => RecallKeepsInv(s, c, env);
        case Canceling(_) => CancelKeepsInv(s, c, env);
        case Applying(_, _) => ApplyKeepsInv(s, c, env);
        case _ => LookKeepsInv(s, c, env);
      }
  }

  /** Every run from the empty database keeps it. */
  lemma {:induction false} RunKeepsInv(acts: seq<Action>)
    ensures Inv(Exec(INIT, acts))
  {
    if acts != [] {
      RunKeepsInv(acts[..|acts| - 1]);
      NextKeepsInv(Exec(INIT, acts[..|acts| - 1]), acts[|acts| - 1]);
    }
  }
}
