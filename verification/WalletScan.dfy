/**
  The wallet's rescan loop (lib/wallet.py) crediting transfers to stored sessions
  (lib/sessions.py), and what a run of overlapping windows amounts to.
 */
module WalletScan {
  import opened Basics
  import opened SessionRecord
  import opened SessionTable
  import opened SessionObject
  import opened Ledger

  const FIRST_SKEW := 20000
  const NEXT_SKEW := 100

  datatype Transfer = Transfer(paymentid: string, amount: int, height: int, txid: string)

  datatype Setup = Setup(cfg: Config, catalog: Catalog, coinUnit: real)

  function PaymentOf(t: Transfer, coinUnit: real): Payment
  {
    Payment((t.amount as real) * coinUnit, t.height, t.txid)
  }

  // ---- one transfer -----------------------------------------------------------------

  // An empty payment id sets no condition, so such a transfer selects every live row.
  function QueryFor(paymentid: string): Query
  {
    ANY.(paymentid := if paymentid == "" then None else Some(paymentid))
  }

  predicate Hits(row: Row, t: Transfer)
  {
    !row.deleted && (t.paymentid == "" || row.paymentid == t.paymentid)
  }

  // The row after a call whose saves all hand over the final record.
  function Landed(row: Row, o: Outcome, now: int): Row
  {
    if |o.saves| > 0 && o.data.expires > now then RowOf(o.data) else row
  }

  function LoadOf(s: Setup, r: SessionData, now: int): Outcome
  {
    Load(s.cfg, s.catalog.gates(r.gateid), s.catalog.spaces(r.spaceid), r, now, Works)
  }

  function CreditOf(s: Setup, r: SessionData, t: Transfer, now: int): Outcome
  {
    AddPayment(s.cfg.site, s.catalog.gates(r.gateid), LoadOf(s, r, now).data, PaymentOf(t, s.coinUnit), now, Works)
  }

  function CreditedRow(s: Setup, row: Row, t: Transfer, now: int): Row
  {
    Landed(Landed(row, LoadOf(s, row.blob, now), now), CreditOf(s, row.blob, t, now), now)
  }

  function Processed(s: Setup, rows: Rows, t: Transfer, now: int): Rows
  {
    map id | id in rows :: if Hits(rows[id], t) then CreditedRow(s, rows[id], t, now) else rows[id]
  }

  function ProcessedAll(s: Setup, rows: Rows, ts: seq<Transfer>, now: int): Rows
  {
    if |ts| == 0 then rows else Processed(s, ProcessedAll(s, rows, ts[..|ts| - 1], now), ts[|ts| - 1], now)
  }

  // ---- one turn of the loop -----------------------------------------------------------

  datatype Reading = NoHeight | Height(height: int, reply: Option<seq<Transfer>>)

  datatype Wallet = Wallet(skew: int, rows: Rows)

  function Scanned(s: Setup, w: Wallet, reading: Reading, now: int): Wallet
  {
    match reading
    case NoHeight => w
    case Height(_, None) => w.(skew := NEXT_SKEW)
    case Height(_, Some(ts)) => Wallet(NEXT_SKEW, ProcessedAll(s, w.rows, ts, now))
  }

  // The window, in blocks: 20000 until a height was read, 100 from then on.
  lemma {:induction false} WindowInBlocks(s: Setup, w: Wallet, reading: Reading, now: int)
    ensures FIRST_SKEW == 20000
    ensures Scanned(s, w, reading, now).skew == if reading.Height? then 100 else w.skew
  {
  }

  // ---- the loop in place --------------------------------------------------------------

  lemma {:induction false} SavedAllLands(rows: Rows, rs: seq<SessionData>, r: SessionData, now: int)
    requires forall i :: 0 <= i < |rs| ==> rs[i] == r
    ensures SavedAll(rows, rs, now) == if |rs| > 0 && r.expires > now then rows[r.sessionid := RowOf(r)] else rows
  {
    if |rs| > 0 {
      SavedAllLands(rows, rs[..|rs| - 1], r, now);
    }
  }

  // `session` is the record `r` as its constructor left it.
  ghost predicate Loaded(s: Setup, session: Session, r: SessionData, now: int)
    reads session
  {
    session.data == LoadOf(s, r, now).data && session.gate == s.catalog.gates(r.gateid)
  }

  method LoadOne(db: SessionDb, s: Setup, r: SessionData, now: int) returns (session: Session)
    requires r.sessionid in db.rows
    modifies db
    ensures fresh(session)
    ensures Loaded(s, session, r, now)
    ensures db.rows == old(db.rows)[r.sessionid := Landed(old(db.rows)[r.sessionid], LoadOf(s, r, now), now)]
  {
    session := new Session(s.catalog.gates(r.gateid), s.catalog.spaces(r.spaceid), r);
    ghost var o := LoadOf(s, r, now);
    SavedAllLands(db.rows, o.saves, o.data, now);
    var _ := session.Load(db, s.cfg, now, Works);
  }

  method PayOne(db: SessionDb, s: Setup, session: Session, ghost r: SessionData, t: Transfer, now: int)
    returns (ok: bool)
    requires r.sessionid in db.rows
    requires Loaded(s, session, r, now)
    modifies db, session
    ensures db.rows == old(db.rows)[r.sessionid := Landed(old(db.rows)[r.sessionid], CreditOf(s, r, t, now), now)]
    ensures ok == CreditOf(s, r, t, now).ok
  {
    ghost var o := CreditOf(s, r, t, now);
    SavedAllLands(db.rows, o.saves, o.data, now);
    var raised;
    ok, raised := session.AddPayment(db, s.cfg.site, PaymentOf(t, s.coinUnit), now, Works);
  }

  // Rows after the sessions `done` have been loaded.
  ghost function LoadedRows(s: Setup, rows: Rows, done: seq<string>, now: int): Rows
  {
    map id | id in rows :: if id in done then Landed(rows[id], LoadOf(s, rows[id].blob, now), now) else rows[id]
  }

  // Rows after that, and after `paid` of them were paid too.
  ghost function Midway(s: Setup, rows: Rows, t: Transfer, done: seq<string>, paid: seq<string>, now: int): Rows
  {
    map id | id in rows ::
      if id in paid then CreditedRow(s, rows[id], t, now)
      else if id in done then Landed(rows[id], LoadOf(s, rows[id].blob, now), now)
      else rows[id]
  }

  lemma {:induction false} LoadedNext(s: Setup, rows: Rows, done: seq<string>, id: string, now: int)
    requires id in rows && id !in done
    ensures
      var m := LoadedRows(s, rows, done, now);
      && id in m && m[id] == rows[id]
      && LoadedRows(s, rows, done + [id], now) == m[id := Landed(rows[id], LoadOf(s, rows[id].blob, now), now)]
  {
  }

  lemma {:induction false} NoneLoaded(s: Setup, rows: Rows, now: int)
    requires Indexed(rows)
    ensures LoadedRows(s, rows, [], now) == rows
    ensures forall id :: id in rows ==> rows[id].blob.sessionid == id
  {
  }

  lemma {:induction false} MidwayPay(
    s: Setup, rows: Rows, t: Transfer, done: seq<string>, paid: seq<string>,
    id: string, now: int)
    requires id in rows && id in done && id !in paid
    ensures
      var m := Midway(s, rows, t, done, paid, now);
      && id in m
      && Midway(s, rows, t, done, paid + [id], now) ==
         m[id := Landed(m[id], CreditOf(s, rows[id].blob, t, now), now)]
  {
  }

  lemma {:induction false} MidwayStarts(s: Setup, rows: Rows, t: Transfer, ids: seq<string>, now: int)
    ensures Midway(s, rows, t, ids, [], now) == LoadedRows(s, rows, ids, now)
  {
  }

  lemma {:induction false} MidwayEnds(s: Setup, rows: Rows, t: Transfer, ids: seq<string>, now: int)
    requires forall id :: id in ids <==> id in rows && Hits(rows[id], t)
    ensures Midway(s, rows, t, ids, ids, now) == Processed(s, rows, t, now)
  {
  }

  ghost predicate NoRepeats(ids: seq<string>)
  {
    forall i, j :: 0 <= i < j < |ids| ==> ids[i] != ids[j]
  }

  lemma {:induction false} PrefixStep(ids: seq<string>, i: nat)
    requires NoRepeats(ids) && i < |ids|
    ensures ids[i] !in ids[..i] && ids[..i + 1] == ids[..i] + [ids[i]]
  {
  }

  method LoadNext(db: SessionDb, s: Setup, ghost rows: Rows, ghost done: seq<string>, id: string, now: int)
    returns (session: Session)
    requires id in rows && id !in done && rows[id].blob.sessionid == id
    requires db.rows == LoadedRows(s, rows, done, now)
    modifies db
    ensures fresh(session) && Loaded(s, session, rows[id].blob, now)
    ensures db.rows == LoadedRows(s, rows, done + [id], now)
  {
    LoadedNext(s, rows, done, id, now);
    hide LoadedRows, Landed, LoadOf, Loaded;
    session := LoadOne(db, s, db.rows[id].blob, now);
  }

  method LoadAll(db: SessionDb, s: Setup, ids: seq<string>, now: int) returns (sessions: seq<Session>)
    requires Indexed(db.rows) && NoRepeats(ids)
    requires forall i :: 0 <= i < |ids| ==> ids[i] in db.rows
    modifies db
    ensures |sessions| == |ids|
    ensures forall i :: 0 <= i < |ids| ==> fresh(sessions[i])
    ensures forall i, j :: 0 <= i < j < |ids| ==> sessions[i] != sessions[j]
    ensures forall i :: 0 <= i < |ids| ==> Loaded(s, sessions[i], old(db.rows)[ids[i]].blob, now)
    ensures db.rows == LoadedRows(s, old(db.rows), ids, now)
  {
    hide *;
    sessions := [];
    ghost var rows := db.rows;
    NoneLoaded(s, rows, now);
    for i := 0 to |ids|
      invariant |sessions| == i
      invariant forall k :: 0 <= k < i ==> fresh(sessions[k])
      invariant forall j, k :: 0 <= j < k < i ==> sessions[j] != sessions[k]
      invariant forall k :: 0 <= k < i ==> Loaded(s, sessions[k], rows[ids[k]].blob, now)
      invariant db.rows == LoadedRows(s, rows, ids[..i], now)
    {
      PrefixStep(ids, i);
      var session := LoadNext(db, s, rows, ids[..i], ids[i], now);
      sessions := sessions + [session];
    }
    assert ids[..|ids|] == ids;
  }

  method PayAll(
    db: SessionDb, s: Setup, ghost rows: Rows, ids: seq<string>, sessions: seq<Session>, t: Transfer, now: int)
    returns (updated: seq<string>)
    requires NoRepeats(ids) && |sessions| == |ids|
    requires forall i :: 0 <= i < |ids| ==> ids[i] in rows && rows[ids[i]].blob.sessionid == ids[i]
    requires forall i, j :: 0 <= i < j < |ids| ==> sessions[i] != sessions[j]
    requires forall i :: 0 <= i < |ids| ==> Loaded(s, sessions[i], rows[ids[i]].blob, now)
    requires db.rows == Midway(s, rows, t, ids, [], now)
    modifies db, sessions
    ensures db.rows == Midway(s, rows, t, ids, ids, now)
    ensures forall id :: id in updated <==> id in ids && id in rows && CreditOf(s, rows[id].blob, t, now).ok
  {
    hide *;
    updated := [];
    for i := 0 to |ids|
      invariant forall k :: i <= k < |ids| ==> Loaded(s, sessions[k], rows[ids[k]].blob, now)
      invariant db.rows == Midway(s, rows, t, ids, ids[..i], now)
      invariant forall id :: id in updated <==> id in ids[..i] && id in rows && CreditOf(s, rows[id].blob, t, now).ok
    {
      PrefixStep(ids, i);
      MidwayPay(s, rows, t, ids, ids[..i], ids[i], now);
      var ok := PayOne(db, s, sessions[i], rows[ids[i]].blob, t, now);
      if ok {
        updated := updated + [ids[i]];
      }
    }
    assert ids[..|ids|] == ids;
  }

  // The answer names the sessions that the transfer was new to.
  method ProcessPayment(db: SessionDb, s: Setup, t: Transfer, now: int) returns (updated: seq<string>)
    requires Indexed(db.rows)
    modifies db
    ensures db.rows == Processed(s, old(db.rows), t, now)
    ensures forall id :: id in updated <==>
              id in old(db.rows) && Hits(old(db.rows)[id], t) && CreditOf(s, old(db.rows)[id].blob, t, now).ok
  {
    ghost var rows := db.rows;
    NoneLoaded(s, rows, now);
    var ids := db.Find(QueryFor(t.paymentid), now);
    assert forall id :: id in ids <==> id in rows && Hits(rows[id], t);
    MidwayStarts(s, rows, t, ids, now);
    MidwayEnds(s, rows, t, ids, now);
    assert NoRepeats(ids);
    hide *;
    var sessions := LoadAll(db, s, ids, now);
    updated := PayAll(db, s, rows, ids, sessions, t, now);
  }

  // Those are the live ones with the payment id whose ledger did not hold it yet.
  lemma {:induction false} UpdatedIsNew(s: Setup, row: Row, t: Transfer, now: int)
    ensures CreditOf(s, row.blob, t, now).ok <==> !HasPayment(row.blob.payments, t.height, t.txid)
  {
  }

  lemma {:induction false} CreditedRowIndexed(s: Setup, row: Row, t: Transfer, now: int)
    requires row == RowOf(row.blob).(deleted := row.deleted)
    ensures
      var q := CreditedRow(s, row, t, now);
      q == RowOf(q.blob).(deleted := q.deleted) && q.blob.sessionid == row.blob.sessionid
  {
  }

  lemma {:induction false} ProcessedIndexed(s: Setup, rows: Rows, t: Transfer, now: int)
    requires Indexed(rows)
    ensures Indexed(Processed(s, rows, t, now))
  {
    forall id | id in rows {
      CreditedRowIndexed(s, rows[id], t, now);
    }
  }

  class WalletLoop {
    var skew: int
    const db: SessionDb

    constructor (db: SessionDb)
      ensures this.db == db && skew == FIRST_SKEW
    {
      this.db := db;
      skew := FIRST_SKEW;
    }

    // One turn: the caller has asked the wallet for the height and for the transfers
    // from `height - skew` on.
    method Turn(s: Setup, reading: Reading, now: int)
      requires Indexed(db.rows)
      modifies this, db
      ensures Wallet(skew, db.rows) == Scanned(s, Wallet(old(skew), old(db.rows)), reading, now)
      ensures Indexed(db.rows)
    {
      if reading.Height? {
        if reading.reply.Some? {
          var ts := reading.reply.value;
          for i := 0 to |ts|
            invariant db.rows == ProcessedAll(s, old(db.rows), ts[..i], now)
            invariant Indexed(db.rows)
            invariant skew == old(skew)
          {
            ProcessedIndexed(s, db.rows, ts[i], now);
            var _ := ProcessPayment(db, s, ts[i], now);
            assert ts[..i + 1][..i] == ts[..i];
          }
          assert ts[..|ts|] == ts;
        }
        skew := NEXT_SKEW;
      }
    }
  }
}
