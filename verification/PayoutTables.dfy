/** The two tables, and the SQL statements the service runs on them. */
module PayoutTables {
  import opened Wrappers
  import opened PayoutDomain

  datatype Row = Row(
    state: PayoutState,
    amountCents: int,
    currency: string,
    rail: string,
    provider: Option<string>,
    externalId: Option<string>)

  datatype KeyRow = KeyRow(requestHash: string, payout: PayoutId)

  datatype Db = Db(payouts: map<PayoutId, Row>, keys: map<string, KeyRow>)

  const EMPTY := Db(map[], map[])

  // The provider column is NULL where the domain has "".
  function ToColumn(provider: string): Option<string> {
    if provider == "" then None else Some(provider)
  }

  function FromColumn(provider: Option<string>): string {
    match provider
    case None => ""
    case Some(name) => name
  }

  function ToDomain(id: PayoutId, row: Row): Payout {
    Payout(id, row.state, row.amountCents, row.currency, row.rail, FromColumn(row.provider), row.externalId)
  }

  // The CHECK constraints. Every PayoutState passes the one on the state column.
  predicate Checked(row: Row) {
    && row.amountCents > 0
    && row.rail in {"card", "crypto"}
    && (row.provider.Some? ==> row.provider.value in {"stripe", "crypto_sim"})
  }

  // The providers, none included, that the CHECK on the provider column admits.
  predicate Listed(provider: string) {
    provider in {"", "stripe", "crypto_sim"}
  }

  // The UNIQUE constraint on external_id, which NULLs never violate.
  predicate RefFree(db: Db, id: PayoutId, ref: Option<string>) {
    ref.Some? ==> forall q :: q in db.payouts && q != id ==> db.payouts[q].externalId != ref
  }

  ghost predicate UniqueRefs(db: Db) {
    forall p, q :: p in db.payouts && q in db.payouts && p != q && db.payouts[p].externalId.Some? ==>
      db.payouts[p].externalId != db.payouts[q].externalId
  }

  /** INSERT INTO payouts; None stands for an error. */
  function InsertPayout(db: Db, id: PayoutId, row: Row): Option<Db> {
    if id !in db.payouts && Checked(row) && RefFree(db, id, row.externalId)
    then Some(db.(payouts := db.payouts[id := row]))
    else None
  }

  /** UPDATE payouts SET state, external_id, provider WHERE id, whatever the row's state is. */
  function UpdateRow(db: Db, id: PayoutId, state: PayoutState, ref: Option<string>, provider: string): Option<Db> {
    if id !in db.payouts then None
    else
      var row := db.payouts[id].(state := state, externalId := ref, provider := ToColumn(provider));
      if Checked(row) && RefFree(db, id, ref) then Some(db.(payouts := db.payouts[id := row])) else None
  }

  /** UPDATE payouts SET state = 'canceled' WHERE id AND state = ANY(states). */
  function CancelRowFrom(db: Db, id: PayoutId, states: seq<PayoutState>): Option<Db> {
    if id in db.payouts && db.payouts[id].state in states
    then Some(db.(payouts := db.payouts[id := db.payouts[id].(state := Canceled)]))
    else None
  }

  // With the states that the service passes.
  function CancelRow(db: Db, id: PayoutId): Option<Db> {
    CancelRowFrom(db, id, CANCELABLE_STATES)
  }

  /** SELECT ... WHERE external_id = ref. */
  ghost function FindByRef(db: Db, ref: string): (hit: Option<PayoutId>)
    ensures hit.Some? ==> hit.value in db.payouts && db.payouts[hit.value].externalId == Some(ref)
    ensures hit.None? ==> forall p :: p in db.payouts ==> db.payouts[p].externalId != Some(ref)
  {
    if p :| p in db.payouts && db.payouts[p].externalId == Some(ref) then Some(p) else None
  }
}
