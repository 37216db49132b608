/**
  The `sessions` table: each row holds the record as a blob and, beside it, the
  columns the queries of lib/sessions.py select on.
 */
module SessionTable {
  import opened Basics
  import opened SessionRecord

  const RETENTION := 3600 * 24 * 30

  datatype Row = Row(
    blob: SessionData,
    activated: int,
    expires: int,
    paymentid: string,
    paid: bool,
    gateid: string,
    spaceid: string,
    price: real,
    deleted: bool)

  type Rows = map<string, Row>

  function RowOf(r: SessionData): Row
  {
    Row(r, r.activated, r.expires, r.paymentid, r.paid, r.gateid, r.spaceid, r.price, false)
  }

  // ---- writes -------------------------------------------------------------------

  function Saved(rows: Rows, r: SessionData, now: int): Rows
  {
    if r.expires > now then rows[r.sessionid := RowOf(r)] else rows
  }

  function SavedAll(rows: Rows, rs: seq<SessionData>, now: int): Rows
  {
    if |rs| == 0 then rows else Saved(SavedAll(rows, rs[..|rs| - 1], now), rs[|rs| - 1], now)
  }

  function Removed(rows: Rows, id: string): Rows
  {
    if id in rows then rows[id := rows[id].(deleted := true)] else rows
  }

  function MarkExpired(rows: Rows, now: int): Rows
  {
    map id | id in rows :: if rows[id].expires < now then rows[id].(deleted := true) else rows[id]
  }

  function Purge(rows: Rows, now: int): Rows
  {
    map id | id in rows && !(rows[id].deleted && rows[id].expires < now - RETENTION) :: rows[id]
  }

  function Cleaned(rows: Rows, now: int): Rows
  {
    Purge(MarkExpired(rows, now), now)
  }

  // ---- queries --------------------------------------------------------------------

  datatype Query = Query(
    active: bool, inactive: bool, spaceid: Option<string>, gateid: Option<string>, unexpired: bool,
    paymentid: Option<string>, notfree: bool, free: bool, paid: bool, notpaid: bool, needpay: bool)

  const ANY := Query(false, false, None, None, false, None, false, false, false, false, false)

  // The WHERE clause: conditions on the columns.
  predicate Matches(row: Row, q: Query, now: int)
  {
    && !row.deleted
    && (q.active ==> row.activated > 0)
    && (q.inactive ==> row.activated == 0)
    && (q.spaceid.Some? ==> row.spaceid == q.spaceid.value)
    && (q.gateid.Some? ==> row.gateid == q.gateid.value)
    && (q.unexpired ==> row.expires > now)
    && (q.paymentid.Some? ==> row.paymentid == q.paymentid.value)
    && (q.notfree ==> row.price > 0.0)
    && (q.free ==> row.price == 0.0)
    && (q.paid ==> row.paid)
    && (q.notpaid ==> !row.paid)
    && (q.needpay ==> !row.paid && row.price > 0.0)
  }

  // The same conditions asked of the stored record through its accessors.
  predicate Satisfies(r: SessionData, q: Query, now: int)
  {
    && (q.active ==> r.activated != 0)
    && (q.inactive ==> r.activated == 0)
    && (q.spaceid.Some? ==> r.spaceid == q.spaceid.value)
    && (q.gateid.Some? ==> r.gateid == q.gateid.value)
    && (q.unexpired ==> r.expires > now)
    && (q.paymentid.Some? ==> r.paymentid == q.paymentid.value)
    && (q.notfree ==> r.price > 0.0)
    && (q.free ==> r.price == 0.0)
    && (q.paid ==> r.paid)
    && (q.notpaid ==> !r.paid)
    && (q.needpay ==> !r.paid && r.price > 0.0)
  }

  // ---- reachable tables -----------------------------------------------------------

  // A row sits under its own id and its columns are those of its blob.
  predicate Indexed(rows: Rows)
  {
    forall id :: id in rows ==>
      && rows[id].blob.sessionid == id
      && rows[id] == RowOf(rows[id].blob).(deleted := rows[id].deleted)
  }

  datatype Write =
    | SaveOf(r: SessionData, at: int)
    | RemoveOf(id: string)
    | CleanupAt(at: int)

  function Apply(rows: Rows, w: Write): Rows
  {
    match w
    case SaveOf(r, at) => Saved(rows, r, at)
    case RemoveOf(id) => Removed(rows, id)
    case CleanupAt(at) => Cleaned(rows, at)
  }

  function ApplyAll(rows: Rows, ws: seq<Write>): Rows
  {
    if |ws| == 0 then rows else Apply(ApplyAll(rows, ws[..|ws| - 1]), ws[|ws| - 1])
  }

  lemma {:induction false} SavedIndexed(rows: Rows, r: SessionData, now: int)
    requires Indexed(rows)
    ensures Indexed(Saved(rows, r, now))
  {
  }

  lemma {:induction false} DeletionIndexed(rows: Rows, id: string, now: int)
    requires Indexed(rows)
    ensures Indexed(Removed(rows, id)) && Indexed(Cleaned(rows, now))
  {
    forall k | k in Cleaned(rows, now)
      ensures k in rows && Cleaned(rows, now)[k] == rows[k].(deleted := Cleaned(rows, now)[k].deleted)
    {
    }
  }

  lemma {:induction false} WritesKeepIndexed(rows: Rows, ws: seq<Write>)
    requires Indexed(rows)
    ensures Indexed(ApplyAll(rows, ws))
  {
    if |ws| > 0 {
      var before := ApplyAll(rows, ws[..|ws| - 1]);
      WritesKeepIndexed(rows, ws[..|ws| - 1]);
      match ws[|ws| - 1] {
        case SaveOf(r, at) => SavedIndexed(before, r, at);
        case RemoveOf(id) => DeletionIndexed(before, id, 0);
        case CleanupAt(at) => DeletionIndexed(before, "", at);
      }
    }
  }

  // The activation stamp is 0 or a clock reading, so it is never negative.
  predicate Stamped(ws: seq<Write>)
  {
    forall i :: 0 <= i < |ws| && ws[i].SaveOf? ==> ws[i].r.activated >= 0
  }

  lemma {:induction false} ReachableIsStamped(ws: seq<Write>)
    requires Stamped(ws)
    ensures forall id :: id in ApplyAll(map[], ws) ==> ApplyAll(map[], ws)[id].blob.activated >= 0
  {
    if |ws| > 0 {
      var before := ws[..|ws| - 1];
      assert Stamped(before);
      ReachableIsStamped(before);
    }
  }

  // In every table reachable by saves, removes and cleanups, selecting on the
  // columns is selecting on the stored records.
  lemma {:induction false} IndexAgreement(ws: seq<Write>, q: Query, now: int, id: string)
    requires Stamped(ws)
    requires id in ApplyAll(map[], ws)
    ensures
      var row := ApplyAll(map[], ws)[id];
      Matches(row, q, now) <==> !row.deleted && Satisfies(row.blob, q, now)
  {
    WritesKeepIndexed(map[], ws);
    ReachableIsStamped(ws);
  }

  // What the table holds under an id is the record of the last save that was fresh,
  // whatever removes and cleanups came between, unless a cleanup purged it.
  function LastSaved(ws: seq<Write>, id: string): Option<SessionData>
  {
    if |ws| == 0 then None
    else
      var w := ws[|ws| - 1];
      if w.SaveOf? && w.r.sessionid == id && w.r.expires > w.at then Some(w.r)
      else LastSaved(ws[..|ws| - 1], id)
  }

  lemma {:induction false} StoredIsLastSaved(ws: seq<Write>, id: string)
    ensures id in ApplyAll(map[], ws) ==> LastSaved(ws, id) == Some(ApplyAll(map[], ws)[id].blob)
  {
    if |ws| > 0 {
      StoredIsLastSaved(ws[..|ws| - 1], id);
      WritesKeepIndexed(map[], ws[..|ws| - 1]);
    }
  }

  // ---- the expiry floor -----------------------------------------------------------

  predicate LiveSince(rows: Rows, t: int)
  {
    forall id :: id in rows && !rows[id].deleted ==> rows[id].expires >= t
  }

  // What a cleanup does to one row: whether it was marked before or not, the row goes when
  // it expired 30 days ago, and it stays live exactly when it was and has not expired.
  lemma {:induction false} CleanupOfRow(rows: Rows, now: int, id: string)
    ensures id in Cleaned(rows, now) <==> id in rows && rows[id].expires >= now - 2592000
    ensures id in Cleaned(rows, now) ==>
              && Cleaned(rows, now)[id].blob == rows[id].blob
              && (!Cleaned(rows, now)[id].deleted <==> !rows[id].deleted && rows[id].expires >= now)
    ensures Cleaned(Cleaned(rows, now), now) == Cleaned(rows, now)
  {
    assert id in MarkExpired(rows, now) <==> id in rows;
    var once, twice := Cleaned(rows, now), Cleaned(Cleaned(rows, now), now);
    assert forall k :: k in once ==> once[k].expires >= now - 2592000 && MarkExpired(once, now)[k] == once[k];
    assert twice == once;
  }

  // A cleanup at t leaves no live row that expires before t, and no later save,
  // remove or cleanup brings one back.
  lemma {:induction false} CleanupHolds(rows: Rows, t: int, ws: seq<Write>)
    requires forall i :: 0 <= i < |ws| && !ws[i].RemoveOf? ==> ws[i].at >= t
    ensures LiveSince(ApplyAll(Cleaned(rows, t), ws), t)
  {
    if |ws| > 0 {
      CleanupHolds(rows, t, ws[..|ws| - 1]);
    }
  }

  // ---- the table object -------------------------------------------------------------

  class SessionDb {
    var rows: Rows

    constructor ()
      ensures rows == map[]
    {
      rows := map[];
    }

    method Save(r: SessionData, now: int)
      modifies this
      ensures rows == Saved(old(rows), r, now)
    {
      if r.expires > now {
        rows := rows - {r.sessionid};
        rows := rows[r.sessionid := RowOf(r)];
      }
    }

    method Remove(id: string)
      modifies this
      ensures rows == Removed(old(rows), id)
      ensures rows.Keys == old(rows).Keys
      ensures forall k :: k in rows && k != id ==> rows[k] == old(rows)[k]
      ensures id in rows ==> rows[id].deleted && rows[id].blob == old(rows)[id].blob
    {
      if id in rows {
        rows := rows[id := rows[id].(deleted := true)];
      }
    }

    method Cleanup(now: int)
      modifies this
      ensures rows == Cleaned(old(rows), now)
    {
      rows := map id | id in rows :: if rows[id].expires < now then rows[id].(deleted := true) else rows[id];
      rows := map id | id in rows && !(rows[id].deleted && rows[id].expires < now - RETENTION) :: rows[id];
    }

    // The rows come back in an order the query leaves open, each once.
    method Find(q: Query, now: int) returns (ids: seq<string>)
      ensures forall id :: id in ids <==> id in rows && Matches(rows[id], q, now)
      ensures forall i, j :: 0 <= i < j < |ids| ==> ids[i] != ids[j]
    {
      ids := [];
      var left := rows.Keys;
      while left != {}
        invariant left <= rows.Keys
        invariant forall id :: id in ids <==> id in rows && id !in left && Matches(rows[id], q, now)
        invariant forall i, j :: 0 <= i < j < |ids| ==> ids[i] != ids[j]
        decreases |left|
      {
        var id :| id in left;
        left := left - {id};
        if Matches(rows[id], q, now) {
          ids := ids + [id];
        }
      }
    }

    method Get(id: string) returns (r: Option<SessionData>)
      ensures r == if id in rows && !rows[id].deleted then Some(rows[id].blob) else None
    {
      if id in rows && !rows[id].deleted {
        r := Some(rows[id].blob);
      } else {
        r := None;
      }
    }
  }
}
