/** Runs that show where the protocol does less than one might hope, and that its bounds are reached. */
module ProtocolWitnesses {
  import opened Wrappers
  import opened PayoutDomain
  import opened PayoutTables
  import opened Fallback
  import opened PayoutProtocol
  import opened ProtocolTheorems

  // ---------- the cast: one key, one payout (number 0), call 0 creates it

  const ORDER := Create("k", "h", 500, "USD", "card")
  const ROW := Row(Created, 500, "USD", "card", None, None)
  const SNAPSHOT := Payout(0, Created, 500, "USD", "card", "", None)
  const HELD := map["k" := KeyRow("h", 0)]
  const SENT := ROW.(state := Sent, provider := Some("stripe"), externalId := Some("pi_1"))
  const STRIPE_ACCEPTS := [Attempt("stripe", Reference("pi_1"))]
  const STRIPE_REPORT := SendResult("pi_1", "stripe", ["stripe"], true)

  const ACK := Env(Acked, 0, [])

  function Tables(row: Row): Db {
    Db(map[0 := row], HELD)
  }

  const CANCEL := Cancel("0", Some(0))
  const SUCCEEDED_BY_UUID := Apply("0", Some(0), "payout_succeeded")

  ghost predicate Reachable(s: Sys) {
    exists acts :: After(acts) == s
  }

  lemma NextIsReachable(s: Sys, a: Action)
    requires Reachable(s)
    ensures Reachable(Next(s, a))
  {
    var acts :| After(acts) == s;
    ExecAppend(INIT, acts, a);
    assert After(acts + [a]) == Next(s, a);
  }

  lemma Begins(s: Sys, c: CallId, req: Request) returns (s': Sys)
    requires Reachable(s) && c !in s.calls
    ensures Reachable(s') && s' == s.(calls := s.calls[c := Call(req, Start(req))])
  {
    NextIsReachable(s, Begin(c, req));
    s' := Next(s, Begin(c, req));
  }

  lemma Moves(s: Sys, c: CallId, env: Env, e: Effect) returns (s': Sys)
    requires Reachable(s) && c in s.calls && Perform(s.db, s.calls[c], env) == e
    ensures Reachable(s')
    ensures s'.db == e.db && s'.calls == s.calls[c := s.calls[c].(at := e.at)] && s'.tally == s.tally + e.events
  {
    NextIsReachable(s, Step(c, env));
    s' := Next(s, Step(c, env));
  }

  // The three tables-changing steps on a database with this one payout.

  lemma Replaced(row: Row, row': Row)
    ensures Tables(row).(payouts := Tables(row).payouts[0 := row']) == Tables(row')
  {
  }

  lemma RowIsCanceled(row: Row)
    requires row.state in CANCELABLE_STATES
    ensures DoCancel(Tables(row), 0, Acked) ==
      Effect(Tables(row.(state := Canceled)), Answered(Success), multiset{Wrote(0, Canceled), CancelOk(0)})
  {
    Replaced(row, row.(state := Canceled));
  }

  lemma RowIsUpdated(row: Row, state: PayoutState, ref: Option<string>, provider: string)
    requires Checked(row.(provider := ToColumn(provider)))
    ensures Update(Tables(row), 0, state, ref, provider, Acked) ==
      (Tables(row.(state := state, externalId := ref, provider := ToColumn(provider))), true, multiset{Wrote(0, state)})
  {
    Replaced(row, row.(state := state, externalId := ref, provider := ToColumn(provider)));
  }

  lemma StripeDelivers()
    ensures Report(STRIPE_ACCEPTS) == STRIPE_REPORT && IsPass(STRIPE_ACCEPTS)
    ensures Deliveries("k", 0, STRIPE_ACCEPTS) == multiset{SendOk("k"), Delivered(0, "stripe", "pi_1")}
  {
  }

  lemma MockDelivers()
    ensures var attempts := [Attempt("mock_card", Reference("m_1"))];
      && Report(attempts) == MOCK_REPORT && IsPass(attempts)
      && Deliveries("k", 0, attempts) == multiset{SendOk("k"), Delivered(0, "mock_card", "m_1")}
  {
  }

  const MOCK_REPORT := SendResult("m_1", "mock_card", ["mock_card"], true)

  /** The create has committed and is about to send. */
  lemma Opens() returns (s: Sys)
    ensures Reachable(s)
    ensures s == Sys(Tables(ROW), map[0 := Call(ORDER, Sending(SNAPSHOT))], multiset{Wrote(0, Created), SendPhase("k")})
  {
    assert After([]) == INIT;
    s := Begins(INIT, 0, ORDER);
    s := Moves(s, 0, ACK, Effect(Tables(ROW), Sending(SNAPSHOT), multiset{Wrote(0, Created), SendPhase("k")}));
    assert s.calls == map[0 := Call(ORDER, Sending(SNAPSHOT))];
  }

  /** A cancel of a `created` payout succeeds, without a provider being asked. */
  lemma CancelsCreated(s: Sys, c: CallId) returns (s': Sys)
    requires Reachable(s) && c !in s.calls && s.db == Tables(ROW)
    ensures Reachable(s') && s'.db == Tables(ROW.(state := Canceled))
    ensures s'.calls == s.calls[c := Call(CANCEL, Answered(Success))]
    ensures s'.tally == s.tally + multiset{Wrote(0, Canceled), CancelOk(0)}
  {
    hide Reachable;
    s' := Begins(s, c, CANCEL);
    s' := Moves(s', c, ACK, Only(s.db, Canceling(0)));
    RowIsCanceled(ROW);
    s' := Moves(s', c, ACK, DoCancel(s.db, 0, Acked));
  }

  /** Stripe accepts and the payout is recorded as sent, whatever its state was. */
  lemma SendsByStripe(s: Sys, state: PayoutState) returns (s': Sys)
    requires Reachable(s) && s.db == Tables(ROW.(state := state))
    requires 0 in s.calls && s.calls[0] == Call(ORDER, Sending(SNAPSHOT))
    ensures Reachable(s') && s'.db == Tables(SENT)
    ensures s'.calls == s.calls[0 := Call(ORDER, Answered(Accepted(0, Sent)))]
    ensures s'.tally == s.tally + multiset{SendOk("k"), Delivered(0, "stripe", "pi_1"), Wrote(0, Sent)}
  {
    hide Reachable, Report, IsPass, Deliveries, UpdateRow;
    var accepted := multiset{SendOk("k"), Delivered(0, "stripe", "pi_1")};
    StripeDelivers();
    s' := Moves(s, 0, ACK.(attempts := STRIPE_ACCEPTS), Effect(s.db, Recording(SNAPSHOT, STRIPE_REPORT), accepted));
    RowIsUpdated(ROW.(state := state), Sent, Some("pi_1"), "stripe");
    s' := Moves(s', 0, ACK, Record(s.db, SNAPSHOT, STRIPE_REPORT, Acked));
  }

  /** A cancel answered with success, and then the pending send takes the payout from `canceled` to `sent`. */
  lemma CanceledThenSent() returns (s: Sys)
    ensures Reachable(s) && s.db == Tables(SENT) && s.tally[CancelOk(0)] == 1
    ensures s.calls == map[0 := Call(ORDER, Answered(Accepted(0, Sent))), 1 := Call(CANCEL, Answered(Success))]
  {
    hide Reachable;
    s := Opens();
    s := CancelsCreated(s, 1);
    s := SendsByStripe(s, Canceled);
  }

  /** A cancel of the `sent` payout asks Stripe, and succeeds. */
  lemma CancelsSent(s: Sys, c: CallId) returns (s': Sys)
    requires Reachable(s) && c !in s.calls && s.db == Tables(SENT)
    ensures Reachable(s')
    ensures s'.tally == s.tally + multiset{Recalled(0, "stripe", Some("pi_1"))} +
        multiset{Wrote(0, Canceled), CancelOk(0)}
  {
    hide Reachable;
    s' := Begins(s, c, CANCEL);
    s' := Moves(s', c, ACK, Only(s.db, Recalling(ToDomain(0, SENT))));
    s' := Moves(s', c, ACK, Effect(s.db, Canceling(0), multiset{Recalled(0, "stripe", Some("pi_1"))}));
    RowIsCanceled(SENT);
    s' := Moves(s', c, ACK, DoCancel(s.db, 0, Acked));
  }

  /** The bound of two successful cancels is reached. */
  lemma TwoCancelsCanSucceed()
    ensures exists s :: Reachable(s) && s.tally[CancelOk(0)] == 2
  {
    var s := CanceledThenSent();
    s := CancelsSent(s, 2);
  }

  /** A provider update that names the payout by its UUID can read it before the reference is recorded ... */
  lemma UpdateReadsEarly() returns (s: Sys)
    ensures Reachable(s) && s.db == Tables(ROW)
    ensures s.calls == map[0 := Call(ORDER, Sending(SNAPSHOT)), 1 := Call(SUCCEEDED_BY_UUID, Applying(SNAPSHOT,
        Completed))]
  {
    hide Reachable;
    s := Opens();
    s := Begins(s, 1, SUCCEEDED_BY_UUID);
    assert MapProviderStatus("payout_succeeded") == Some(Completed);
    s := Moves(s, 1, ACK, Only(s.db, LookingUp(0)));
    s := Moves(s, 1, ACK, Only(s.db, Applying(SNAPSHOT, Completed)));
  }

  ghost predicate BlankOverSent(s: Sys, a: Action) {
    s.db == Tables(SENT) && Next(s, a).db == Tables(ROW.(state := Completed))
  }

  lemma ErasingStep(s: Sys)
    requires s.db == Tables(SENT) && 1 in s.calls &&
        s.calls[1] == Call(SUCCEEDED_BY_UUID, Applying(SNAPSHOT, Completed))
    ensures BlankOverSent(s, Step(1, ACK))
  {
    RowIsUpdated(SENT, Completed, None, "");
  }

  /** ... and its stale snapshot then erases the reference and the provider. */
  lemma StaleSnapshotErasesReference()
    ensures exists s, a :: Reachable(s) && BlankOverSent(s, a)
  {
    var s := UpdateReadsEarly();
    s := SendsByStripe(s, Created);
    ErasingStep(s);
  }

  // What a client sees of a payout that mock_card accepted: `created`, and then a successful cancel.
  ghost predicate DeliveredAndCanceledUnasked(s: Sys) {
    && Delivered(0, "mock_card", "m_1") in s.tally && (forall p, r, x :: Recalled(p, r, x) !in s.tally)
    && s.db == Tables(ROW.(state := Canceled))
    && s.calls == map[0 := Call(ORDER, Answered(Accepted(0, Created))), 1 := Call(CANCEL, Answered(Success))]
  }

  /** mock_card accepts, the update violates the provider CHECK, and the client is told `created`. A cancel
      then succeeds without any provider being asked. */
  lemma MockDeliveryIsLost()
    ensures exists s :: Reachable(s) && DeliveredAndCanceledUnasked(s)
  {
    hide Reachable;
    var s := Opens();
    var attempts := [Attempt("mock_card", Reference("m_1"))];
    MockDelivers();
    s := Moves(s, 0, ACK.(attempts := attempts),
      Effect(s.db, Recording(SNAPSHOT, MOCK_REPORT), multiset{SendOk("k"), Delivered(0, "mock_card", "m_1")}));
    s := Moves(s, 0, ACK, Only(s.db, Answered(Accepted(0, Created))));
    s := CancelsCreated(s, 1);
    assert DeliveredAndCanceledUnasked(s);
  }
}
