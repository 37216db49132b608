/** The server's periodic refresh (lib/sessions.py): a cleanup, then activation of what is paid. */
module SessionsRefresh {
  import opened Basics
  import opened SessionRecord
  import opened SessionTable
  import opened SessionObject
  import opened WalletScan

  // A live session that waits for its activation.
  predicate Waits(row: Row, now: int)
  {
    !row.deleted && row.activated == 0 && row.expires > now
  }

  function ActivationOf(s: Setup, r: SessionData, now: int): Outcome
  {
    SessionRecord.Activate(s.cfg.site, s.catalog.gates(r.gateid), LoadOf(s, r, now).data, now, Works)
  }

  function RefreshedRow(s: Setup, row: Row, now: int): Row
  {
    Landed(Landed(row, LoadOf(s, row.blob, now), now), ActivationOf(s, row.blob, now), now)
  }

  function Refreshed(s: Setup, rows: Rows, now: int): Rows
  {
    var kept := Cleaned(rows, now);
    map id | id in kept :: if Waits(kept[id], now) then RefreshedRow(s, kept[id], now) else kept[id]
  }

  // Rows after the sessions `ids` have been loaded and `done` of them activated.
  ghost function Underway(s: Setup, rows: Rows, ids: seq<string>, done: seq<string>, now: int): Rows
  {
    map id | id in rows ::
      if id in done then RefreshedRow(s, rows[id], now)
      else if id in ids then Landed(rows[id], LoadOf(s, rows[id].blob, now), now)
      else rows[id]
  }

  lemma {:induction false} UnderwayStarts(s: Setup, rows: Rows, ids: seq<string>, now: int)
    ensures Underway(s, rows, ids, [], now) == LoadedRows(s, rows, ids, now)
  {
  }

  lemma {:induction false} UnderwayNext(s: Setup, rows: Rows, ids: seq<string>, done: seq<string>, id: string, now: int)
    requires id in rows && id in ids && id !in done
    ensures
      var m := Underway(s, rows, ids, done, now);
      && id in m
      && Underway(s, rows, ids, done + [id], now) == m[id := Landed(m[id], ActivationOf(s, rows[id].blob, now), now)]
  {
  }

  lemma {:induction false} UnderwayEnds(s: Setup, rows: Rows, ids: seq<string>, now: int)
    requires forall id :: id in ids <==> id in rows && Waits(rows[id], now)
    ensures Underway(s, rows, ids, ids, now) ==
            map id | id in rows :: if Waits(rows[id], now) then RefreshedRow(s, rows[id], now) else rows[id]
  {
  }

  method ActivateOne(db: SessionDb, s: Setup, session: Session, ghost r: SessionData, now: int)
    requires r.sessionid in db.rows && Loaded(s, session, r, now)
    modifies db, session
    ensures db.rows == old(db.rows)[r.sessionid := Landed(old(db.rows)[r.sessionid], ActivationOf(s, r, now), now)]
  {
    ghost var o := ActivationOf(s, r, now);
    SavedAllLands(db.rows, o.saves, o.data, now);
    var _, _ := session.Activate(db, s.cfg.site, now, Works);
  }

  method ActivateAll(db: SessionDb, s: Setup, ghost rows: Rows, ids: seq<string>, sessions: seq<Session>, now: int)
    requires NoRepeats(ids) && |sessions| == |ids|
    requires forall i :: 0 <= i < |ids| ==> ids[i] in rows && rows[ids[i]].blob.sessionid == ids[i]
    requires forall i, j :: 0 <= i < j < |ids| ==> sessions[i] != sessions[j]
    requires forall i :: 0 <= i < |ids| ==> Loaded(s, sessions[i], rows[ids[i]].blob, now)
    requires db.rows == Underway(s, rows, ids, [], now)
    modifies db, sessions
    ensures db.rows == Underway(s, rows, ids, ids, now)
  {
    hide *;
    for i := 0 to |ids|
      invariant forall k :: i <= k < |ids| ==> Loaded(s, sessions[k], rows[ids[k]].blob, now)
      invariant db.rows == Underway(s, rows, ids, ids[..i], now)
    {
      PrefixStep(ids, i);
      UnderwayNext(s, rows, ids, ids[..i], ids[i], now);
      ActivateOne(db, s, sessions[i], rows[ids[i]].blob, now);
    }
    assert ids[..|ids|] == ids;
  }

  // The refresh of a server.
  method RefreshStatus(db: SessionDb, s: Setup, now: int)
    requires Indexed(db.rows)
    modifies db
    ensures db.rows == Refreshed(s, old(db.rows), now)
  {
    DeletionIndexed(db.rows, "", now);
    db.Cleanup(now);
    ghost var rows := db.rows;
    NoneLoaded(s, rows, now);
    var ids := db.Find(ANY.(inactive := true, unexpired := true), now);
    assert forall id :: id in ids <==> id in rows && Waits(rows[id], now);
    assert NoRepeats(ids);
    UnderwayEnds(s, rows, ids, now);
    UnderwayStarts(s, rows, ids, now);
    hide Underway, LoadedRows, Waits, RefreshedRow, Cleaned, Indexed, NoRepeats, Loaded;
    var sessions := LoadAll(db, s, ids, now);
    ActivateAll(db, s, rows, ids, sessions, now);
  }

  // What a refresh on a server does to a waiting session: it becomes active, for its days
  // from now on, exactly when what was paid covers the price it is loaded with, there are
  // days to come, and a WireGuard session has its data; otherwise the row stays as it is,
  // and its ledger is untouched in any case.
  lemma {:induction false} RefreshActivates(s: Setup, row: Row, now: int)
    requires s.cfg.site.Server? && now >= 1 && row == RowOf(row.blob) && Waits(row, now)
    ensures
      var q := RefreshedRow(s, row, now);
      && q.blob.payments == row.blob.payments && q.paymentid == row.paymentid && !q.deleted
      && (q.activated != 0 <==>
            && Total(row.blob.payments) >= LoadOf(s, row.blob, now).data.price && row.blob.days >= 1
            && (s.catalog.gates(row.gateid).tpe != "wg" || row.blob.wg.Some?))
      && (q.activated != 0 ==> q.activated == now && q.expires == now + 86400 * row.blob.days)
      && (q.activated == 0 ==> q == row)
  {
    hide Total, Offers, Missing, Sum;
  }

  // Which rows a refresh touches, on the columns: of those a cleanup keeps, the live ones
  // that are not active and have not expired; every other row is as the cleanup leaves it.
  lemma {:induction false} RefreshTouches(s: Setup, rows: Rows, now: int, id: string)
    ensures id in Refreshed(s, rows, now) <==> id in rows && rows[id].expires >= now - 2592000
    ensures
      id in Refreshed(s, rows, now) ==>
        var q := Refreshed(s, rows, now)[id];
        if !rows[id].deleted && rows[id].activated == 0 && rows[id].expires > now
        then q == RefreshedRow(s, rows[id], now)
        else q == rows[id].(deleted := rows[id].deleted || rows[id].expires < now)
  {
    CleanupOfRow(rows, now, id);
    hide RefreshedRow;
  }
}
