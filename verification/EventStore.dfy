// public.onchain_events: one row per Kafka event, and the guarded UPDATE statements on it
// (ledger-adapter/internal/store/onchain_events.go).
module EventStore {
  import opened Basics

  type Id = nat
  type TxHash = nat

  datatype Status = PENDING | SENT | COMMITTED | FAILED

  // tx is NULL until a broadcast is recorded; reason is reject_reason.
  datatype Row = Row(status: Status, tx: Option<TxHash>, reason: Option<nat>)

  type Rows = map<Id, Row>

  // The SET/WHERE part of each statement, on one row.

  function SentRow(r: Row, tx: TxHash): Row {
    if r.status == COMMITTED then r else Row(SENT, Some(tx), r.reason)
  }

  function CommittedRow(r: Row): Row {
    r.(status := COMMITTED)
  }

  // COALESCE(NULLIF($2,''), tx_hash): an absent hash keeps the stored one.
  function FailedRow(r: Row, tx: Option<TxHash>): Row {
    if r.status == COMMITTED then r else Row(FAILED, if tx.Some? then tx else r.tx, r.reason)
  }

  function RejectedRow(r: Row, tx: Option<TxHash>, reason: nat): Row {
    if r.status == COMMITTED then r else Row(FAILED, if tx.Some? then tx else r.tx, Some(reason))
  }

  datatype Statement =
    | InsertPending(id: Id)
    | MarkSent(ids: set<Id>, hash: TxHash)
    | MarkCommitted(ids: set<Id>)
    | MarkFailed(ids: set<Id>, tx: Option<TxHash>)
    | MarkRejected(ids: set<Id>, tx: Option<TxHash>, reason: nat)

  function UpdatedRow(r: Row, st: Statement): Row {
    match st
    case InsertPending(_) => r
    case MarkSent(_, hash) => SentRow(r, hash)
    case MarkCommitted(_) => CommittedRow(r)
    case MarkFailed(_, tx) => FailedRow(r, tx)
    case MarkRejected(_, tx, reason) => RejectedRow(r, tx, reason)
  }

  function Targets(st: Statement): set<Id> {
    match st
    case InsertPending(_) => {}
    case MarkSent(ids, _) => ids
    case MarkCommitted(ids) => ids
    case MarkFailed(ids, _) => ids
    case MarkRejected(ids, _, _) => ids
  }

  function Execute(rows: Rows, st: Statement): Rows {
    match st
    case InsertPending(id) => if id in rows then rows else rows[id := Row(PENDING, None, None)]
    case _ => map id | id in rows :: if id in Targets(st) then UpdatedRow(rows[id], st) else rows[id]
  }

  // What redelivery relies on: the row carries a broadcast, or has failed for good without one.
  predicate ClosedRow(r: Row) {
    r.tx.Some? || r.status == FAILED
  }

  predicate Closed(rows: Rows, id: Id) {
    id in rows && ClosedRow(rows[id])
  }

  // Rows a reconcile sweep may pick up (ListReconcilable without its age and LIMIT).
  predicate Reconcilable(rows: Rows, id: Id, tx: TxHash) {
    && id in rows
    && rows[id].status in {SENT, FAILED}
    && rows[id].tx == Some(tx)
    && rows[id].reason == None
  }

  // The statements any run may execute, one after another.
  function ExecuteAll(rows: Rows, sts: seq<Statement>): Rows
    decreases |sts|
  {
    if sts == [] then rows else ExecuteAll(Execute(rows, sts[0]), sts[1..])
  }

  // Whatever is executed afterwards, in any order and by any writer: no row disappears, COMMITTED
  // stays COMMITTED with the same hash, and a recorded broadcast is never forgotten.
  lemma {:induction false} CommittedIsAbsorbing(rows: Rows, sts: seq<Statement>, id: Id)
    requires id in rows
    ensures var after := ExecuteAll(rows, sts);
            && id in after
            && (rows[id].status == COMMITTED ==> after[id] == rows[id])
            && (rows[id].tx.Some? ==> after[id].tx.Some?)
            && (Closed(rows, id) && rows[id].tx == None && after[id].tx == None ==> after[id].status in {FAILED, COMMITTED})
    decreases |sts|
  {
    if sts != [] {
      CommittedIsAbsorbing(Execute(rows, sts[0]), sts[1..], id);
    }
  }

  // A late MarkSent or a MarkFailed with another hash does move the hash of a row that is not
  // COMMITTED: keeping the hash stable is the caller's obligation, and the caller keeps it exactly by
  // naming the stored hash (or none).
  lemma HashKeptIff(rows: Rows, st: Statement, id: Id)
    requires id in rows && rows[id].tx.Some? && id in Targets(st)
    ensures Execute(rows, st)[id].tx == rows[id].tx <==>
            (rows[id].status == COMMITTED
             || st.MarkCommitted?
             || (st.MarkSent? && Some(st.hash) == rows[id].tx)
             || ((st.MarkFailed? || st.MarkRejected?) && (st.tx == None || st.tx == rows[id].tx)))
  {
  }

  // Column by column: what a statement leaves in a row. Only MarkCommitted touches a COMMITTED row, and leaves it
  // COMMITTED; a failure without a hash keeps the stored one; only MarkRejected stores a reason.
  lemma WhatIsWritten(rows: Rows, st: Statement, id: Id)
    requires id in rows
    ensures id in Execute(rows, st)
    ensures var r, r' := rows[id], Execute(rows, st)[id];
            match st
            case InsertPending(_) => r' == r
            case MarkSent(ids, hash) =>
              if id in ids && r.status != COMMITTED then r'.status == SENT && r'.tx == Some(hash) && r'.reason == r.reason else r' == r
            case MarkCommitted(ids) =>
              if id in ids then r'.status == COMMITTED && r'.tx == r.tx && r'.reason == r.reason else r' == r
            case MarkFailed(ids, tx) =>
              if id in ids && r.status != COMMITTED then
                r'.status == FAILED && r'.reason == r.reason && (match tx case Some(_) => r'.tx == tx case None => r'.tx == r.tx)
              else r' == r
            case MarkRejected(ids, tx, reason) =>
              if id in ids && r.status != COMMITTED then
                r'.status == FAILED && r'.reason == Some(reason) && (match tx case Some(_) => r'.tx == tx case None => r'.tx == r.tx)
              else r' == r
  {
  }

  // And which rows there are afterwards.
  lemma WhichRows(rows: Rows, st: Statement, id: Id)
    requires id !in rows
    ensures id in Execute(rows, st) <==> st == InsertPending(id)
    ensures st == InsertPending(id) ==> var r := Execute(rows, st)[id]; r.status == PENDING && r.tx == None && r.reason == None
  {
  }

  // The table behind the repository; each method is one SQL statement.
  class Repository {
    var rows: Rows

    constructor ()
      ensures rows == map[]
    {
      rows := map[];
    }

    method Exists(eventId: Id) returns (found: bool)
      ensures found <==> eventId in rows
    {
      found := eventId in rows;
    }

    // None: the error for an id without a row.
    method StatusAndTx(eventId: Id) returns (r: Option<(Status, Option<TxHash>)>)
      ensures r.Some? <==> eventId in rows
      ensures r.Some? ==> r.value == (rows[eventId].status, rows[eventId].tx)
    {
      if eventId !in rows {
        return None;
      }
      r := Some((rows[eventId].status, rows[eventId].tx));
    }

    // Broadcast and not COMMITTED, and not refused by the contract; the statement's age filter and LIMIT aside.
    method ListReconcilable() returns (listed: set<(Id, TxHash)>)
      ensures forall id, tx :: (id, tx) in listed <==>
                && id in rows && (rows[id].status == SENT || rows[id].status == FAILED)
                && rows[id].tx == Some(tx) && rows[id].reason == None
    {
      listed := set id | id in rows && rows[id].tx.Some? && Reconcilable(rows, id, rows[id].tx.value) :: (id, rows[id].tx.value);
    }

    method Insert(eventId: Id)
      modifies this
      ensures rows == Execute(old(rows), Statement.InsertPending(eventId))
      ensures eventId in rows && (eventId in old(rows) ==> rows == old(rows))
      ensures eventId !in old(rows) ==> rows == old(rows)[eventId := Row(PENDING, None, None)]
    {
      if eventId !in rows {
        rows := rows[eventId := Row(PENDING, None, None)];
      }
    }

    // MarkSent, MarkCommitted, MarkFailed and MarkRejected return early on an empty id list.
    method Update(st: Statement)
      requires !st.InsertPending?
      modifies this
      ensures rows == Execute(old(rows), st)
      ensures Targets(st) == {} ==> rows == old(rows)
      ensures forall id :: id in old(rows) && old(rows)[id].status == COMMITTED ==> rows[id] == old(rows)[id]
    {
      if Targets(st) == {} {
        assert rows == Execute(rows, st);
        return;
      }
      rows := Execute(rows, st);
    }
  }
}
