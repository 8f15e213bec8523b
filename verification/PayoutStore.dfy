/** The database as the service uses it: the two tables, changed in place by the repositories' statements.
    Each operation is proved equal to the table function it stands for. */
module PayoutStore {
  import opened Wrappers
  import opened PayoutDomain
  import opened PayoutTables
  import opened PayoutProtocol

  // A statement's reply. ErrNotFound is pgx.ErrNoRows; ErrOther is any other error.
  datatype Reply<+T> = Ok(value: T) | ErrNotFound | ErrOther

  // How CreatePayout's transaction ends.
  datatype TxResult = Committed(payout: Payout) | KeyExists(existing: KeyRow) | TxFailed

  class Store {
    var payouts: map<PayoutId, Row>
    var keys: map<string, KeyRow>

    function Contents(): Db
      reads this
    {
      Db(payouts, keys)
    }

    constructor ()
      ensures Contents() == EMPTY
    {
      payouts, keys := map[], map[];
    }

    method GetPayout(id: PayoutId, fate: Fate) returns (r: Reply<Payout>)
      ensures fate.Acked? && id in payouts ==> r == Ok(ToDomain(id, payouts[id]))
      ensures fate.Acked? && id !in payouts ==> r == ErrNotFound
      ensures !fate.Acked? ==> r == ErrOther
    {
      if !fate.Acked? { return ErrOther; }
      if id !in payouts { return ErrNotFound; }
      return Ok(ToDomain(id, payouts[id]));
    }

    method FindByExternalID(ref: string, fate: Fate) returns (r: Reply<Payout>)
      requires UniqueRefs(Contents())
      ensures r.Ok? <==> fate.Acked? && FindByRef(Contents(), ref).Some?
      ensures r.Ok? ==> var p := FindByRef(Contents(), ref).value; r.value == ToDomain(p, payouts[p])
    {
      if !fate.Acked? { return ErrOther; }
      if p :| p in payouts && payouts[p].externalId == Some(ref) {
        return Ok(ToDomain(p, payouts[p]));
      }
      return ErrNotFound;
    }

    method CreatePayout(newId: PayoutId, row: Row) returns (r: Reply<Payout>)
      modifies this`payouts
      ensures var inserted := InsertPayout(old(Contents()), newId, row);
        if inserted.Some? then Contents() == inserted.value && r == Ok(ToDomain(newId, row))
        else Contents() == old(Contents()) && r == ErrOther
    {
      if newId in payouts || !Checked(row) || !RefFree(Contents(), newId, row.externalId) { return ErrOther; }
      payouts := payouts[newId := row];
      return Ok(ToDomain(newId, row));
    }

    // ON CONFLICT DO NOTHING, then a read of the row that was there.
    method TryInsertIdempotencyKey(key: string, hash: string, id: PayoutId) returns (entry: KeyRow, inserted: bool)
      modifies this`keys
      ensures inserted == (key !in old(keys))
      ensures keys == if inserted then old(keys)[key := KeyRow(hash, id)] else old(keys)
      ensures key in keys && entry == keys[key]
    {
      if key in keys { return keys[key], false; }
      entry, inserted := KeyRow(hash, id), true;
      keys := keys[key := entry];
    }

    method UpdatePayoutState(id: PayoutId, state: PayoutState, ref: Option<string>, provider: string, fate: Fate)
      returns (r: Reply<Payout>)
      modifies this`payouts
      ensures Contents() == Update(old(Contents()), id, state, ref, provider, fate).0
      ensures r.Ok? == Update(old(Contents()), id, state, ref, provider, fate).1
      ensures r.Ok? ==> id in payouts && r.value == ToDomain(id, payouts[id]) && r.value.state == state
    {
      if fate.Dropped? { return ErrOther; }
      if id !in payouts { return ErrNotFound; }
      var row := payouts[id].(state := state, externalId := ref, provider := ToColumn(provider));
      if !Checked(row) || !RefFree(Contents(), id, ref) { return ErrOther; }
      payouts := payouts[id := row];
      return if fate.Acked? then Ok(ToDomain(id, row)) else ErrOther;
    }

    method CancelPayout(id: PayoutId, states: seq<PayoutState>, fate: Fate) returns (r: Reply<Payout>)
      modifies this`payouts
      ensures var canceled := CancelRowFrom(old(Contents()), id, states);
        if fate.Dropped? || canceled.None? then Contents() == old(Contents()) && !r.Ok?
        else Contents() == canceled.value && r.Ok? == fate.Acked?
    {
      if fate.Dropped? { return ErrOther; }
      if id !in payouts || payouts[id].state !in states { return ErrNotFound; }
      payouts := payouts[id := payouts[id].(state := Canceled)];
      return if fate.Acked? then Ok(ToDomain(id, payouts[id])) else ErrOther;
    }

    // The closure of CreatePayout inside RunInTx: insert the payout, then claim the key. The fate is the
    // whole transaction's; an error inside, or a key conflict, rolls back what was written.
    method CreateInTx(req: Request, newId: PayoutId, fate: Fate) returns (r: TxResult)
      requires req.Create?
      modifies this
      ensures var e := Open(old(Contents()), req, Env(fate, newId, []));
        && Contents() == e.db
        && match r
           case Committed(payout) => e.at == Sending(payout)
           case KeyExists(entry) =>
             e.at == if entry.requestHash != req.hash then Answered(Rejected(AlreadyExists))
               else Replaying(entry.payout)
           case TxFailed => e.at == Answered(Rejected(Internal))
    {
      if fate.Dropped? { return TxFailed; }
      var begun := Contents();
      var payout := CreatePayout(newId, Row(Created, req.amountCents, req.currency, req.rail, None, None));
      if !payout.Ok? { return TxFailed; }
      var entry, inserted := TryInsertIdempotencyKey(req.key, req.hash, newId);
      if !inserted {
        payouts, keys := begun.payouts, begun.keys; // rollback
        return if fate.Lost? then TxFailed else KeyExists(entry);
      }
      return if fate.Lost? then TxFailed else Committed(payout.value);
    }
  }
}
