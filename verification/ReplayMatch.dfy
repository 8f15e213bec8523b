/** The API's create handler in front of the protocol: a replay is answered only for the order that is stored. */
module ReplayMatch {
  import opened PayoutDomain
  import opened PayoutTables
  import opened PayoutProtocol
  import opened ProtocolInvariant
  import opened ProtocolTheorems
  import opened Canonical

  /** The hash function, and what the Unicode tables call printable. Nothing is assumed about either. */
  datatype Api = Api(sha256: string -> string, isPrint: char -> bool) {
    function OrderText(amount: int, currency: string, rail: string): string {
      Text(amount, currency, rail, isPrint)
    }

    /** canonicalHash */
    function CanonicalHash(amount: int, currency: string, rail: string): string {
      sha256(OrderText(amount, currency, rail))
    }

    // A create that this handler has sent on.
    predicate Hashed(req: Request) {
      req.Create? ==> req.hash == CanonicalHash(req.amountCents, req.currency, req.rail)
    }

    predicate Collides(text: string, text': string) {
      text != text' && sha256(text) == sha256(text')
    }

    /** Every create in the run came through the API. */
    predicate ThroughApi(acts: seq<Action>) {
      forall a :: a in acts && a.Begin? ==> Hashed(a.req)
    }

    predicate HashMatches(row: Row, hash: string) {
      hash == CanonicalHash(row.amountCents, row.currency, row.rail)
    }

    ghost predicate KeysMatch(db: Db) {
      forall k :: k in db.keys ==>
        && db.keys[k].payout in db.payouts
        && HashMatches(db.payouts[db.keys[k].payout], db.keys[k].requestHash)
    }

    ghost predicate CallsHashed(s: Sys) {
      forall c :: c in s.calls ==> Hashed(s.calls[c].req)
    }

    lemma StepKeepsKeysMatch(db: Db, call: Call, env: Env)
      requires KeysMatch(db) && Hashed(call.req)
      ensures KeysMatch(Perform(db, call, env).db)
    {
      PerformCases(db, call, env);
    }

    /** Each key's hash is that of the order its payout row holds. */
    lemma {:induction false} HashesMatchRows(acts: seq<Action>)
      requires ThroughApi(acts)
      ensures KeysMatch(After(acts).db) && CallsHashed(After(acts))
    {
      if acts != [] {
        var init, a := acts[..|acts| - 1], acts[|acts| - 1];
        assert forall b :: b in init ==> b in acts;
        assert a in acts;
        HashesMatchRows(init);
        if a.Step? && a.call in After(init).calls {
          StepKeepsKeysMatch(After(init).db, After(init).calls[a.call], a.env);
        }
      }
    }

    predicate SameAsStored(req: Request, row: Row) {
      req.Create? && row.amountCents == req.amountCents && row.currency == req.currency && row.rail == req.rail
    }

    predicate CollidesWithStored(req: Request, row: Row)
      requires req.Create?
    {
      Collides(OrderText(req.amountCents, req.currency, req.rail), OrderText(row.amountCents, row.currency, row.rail))
    }

    /** Two orders hash alike exactly when they are the same order or their texts are a collision. */
    lemma SameHashIff(req: Request, row: Row)
      requires req.Create? && Hashed(req)
      ensures HashMatches(row, req.hash) <==> SameAsStored(req, row) || CollidesWithStored(req, row)
      ensures !(SameAsStored(req, row) && CollidesWithStored(req, row))
    {
      hide Text;
      if OrderText(req.amountCents, req.currency, req.rail) == OrderText(row.amountCents, row.currency, row.rail) {
        TextIsInjective(req.amountCents, req.currency, req.rail, row.amountCents, row.currency, row.rail, isPrint);
      }
    }

    /** A create that is answered with a payout, for the first time or as a replay, asked for the amount, the
        currency and the rail of that payout, unless the two texts are a collision of the hash. */
    lemma AcceptedMatchesStored(acts: seq<Action>, c: CallId)
      requires ThroughApi(acts) && AcceptedCreate(After(acts), c)
      ensures var (s, call) := (After(acts), After(acts).calls[c]);
        && call.at.resp.payout in s.db.payouts
        && (SameAsStored(call.req, s.db.payouts[call.at.resp.payout]) ||
            CollidesWithStored(call.req, s.db.payouts[call.at.resp.payout]))
    {
      RunKeepsInv(acts);
      HashesMatchRows(acts);
      var s := After(acts);
      assert PointInv(s.db, s.tally, s.calls[c].req, s.calls[c].at);
      SameHashIff(s.calls[c].req, s.db.payouts[s.calls[c].at.resp.payout]);
    }

    /** When the transaction meets a key that is taken: the call goes on to a replay exactly when the stored
        order is the requested one (or collides with it), and is refused as a conflict otherwise. */
    lemma TakenKeyDecides(acts: seq<Action>, c: CallId, env: Env)
      requires ThroughApi(acts) && c in After(acts).calls && After(acts).calls[c].at.Opening?
      requires After(acts).calls[c].req.Create? && After(acts).calls[c].req.key in After(acts).db.keys
      requires env.fate.Acked? && env.newId !in After(acts).db.payouts && Checked(NewRow(After(acts).calls[c].req))
      ensures var (s, req) := (After(acts), After(acts).calls[c].req);
        var p := s.db.keys[req.key].payout;
        && p in s.db.payouts
        && var e := Perform(s.db, s.calls[c], env);
           if SameAsStored(req, s.db.payouts[p]) || CollidesWithStored(req, s.db.payouts[p])
           then e.at == Replaying(p) else e.at == Answered(Rejected(AlreadyExists))
    {
      hide Exec;
      HashesMatchRows(acts);
      var s := After(acts);
      var req := s.calls[c].req;
      SameHashIff(req, s.db.payouts[s.db.keys[req.key].payout]);
    }
  }
}
