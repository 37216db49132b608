/**
  End to end crediting: which transfers a run of the rescan loop leaves in a session's
  ledger, while other processes go on saving, removing and cleaning up.
 */
module WalletCredit {
  import opened Basics
  import opened SessionRecord
  import opened SessionTable
  import opened Ledger
  import opened WalletScan

  datatype WalletEvent =
    | Scan(reading: Reading, now: int)
    | Elsewhere(w: Write)

  function Stepped(s: Setup, w: Wallet, e: WalletEvent): Wallet
  {
    match e
    case Scan(reading, now) => Scanned(s, w, reading, now)
    case Elsewhere(write) => w.(rows := Apply(w.rows, write))
  }

  function Ran(s: Setup, w: Wallet, es: seq<WalletEvent>): Wallet
  {
    if |es| == 0 then w else Stepped(s, Ran(s, w, es[..|es| - 1]), es[|es| - 1])
  }

  // ---- one session through one transfer -------------------------------------------------

  // A stored session that is live, not yet expired at `now` and well formed.
  ghost predicate LiveAt(row: Row, now: int)
  {
    && !row.deleted && row == RowOf(row.blob)
    && row.expires > now && row.blob.days >= 1
    && Distinct(row.blob.payments)
  }

  predicate IsFor(paymentid: string, t: Transfer)
  {
    t.paymentid == "" || t.paymentid == paymentid
  }

  function TransferKey(t: Transfer): Key { (t.height, t.txid) }

  // What a transfer does to a ledger.
  function Credit(ps: seq<Payment>, p: Payment): seq<Payment>
  {
    if HasPayment(ps, p.height, p.txid) then ps else ps + [p]
  }

  // Neither a load nor an activation touches ledger or payment id, and both leave a
  // future expiry.
  lemma {:induction false} LoadKeepsLedger(s: Setup, r: SessionData, now: int)
    requires r.days >= 1 && r.expires > now
    ensures
      var q := LoadOf(s, r, now).data;
      q.payments == r.payments && q.paymentid == r.paymentid && q.days == r.days && q.expires > now
  {
  }

  lemma {:induction false} PaymentLands(site: Site, gate: Gate, r: SessionData, p: Payment, now: int)
    requires r.days >= 1 && r.expires > now
    ensures
      var o := AddPayment(site, gate, r, p, now, Works);
      && o.data.payments == Credit(r.payments, p)
      && o.data.paymentid == r.paymentid && o.data.days == r.days && o.data.expires > now
      && (|o.saves| > 0 <==> !HasPayment(r.payments, p.height, p.txid))
  {
  }

  lemma {:induction false} CreditedLedger(s: Setup, row: Row, t: Transfer, now: int)
    requires row.blob.expires > now && row.blob.days >= 1
    ensures CreditedRow(s, row, t, now).blob.payments == Credit(row.blob.payments, PaymentOf(t, s.coinUnit))
  {
    var r := row.blob;
    LoadKeepsLedger(s, r, now);
    PaymentLands(s.cfg.site, s.catalog.gates(r.gateid), LoadOf(s, r, now).data, PaymentOf(t, s.coinUnit), now);
    hide LoadOf, AddPayment, HasPayment, PaymentOf;
  }

  lemma {:induction false} CreditWrittenOut(ps: seq<Payment>, p: Payment)
    ensures
      var after := Credit(ps, p);
      if forall i :: 0 <= i < |ps| ==> ps[i].height != p.height || ps[i].txid != p.txid
      then |after| == |ps| + 1 && ps <= after && after[|ps|] == p
      else after == ps
  {
  }

  // On the fields: a live, unexpired row with the payment id whose ledger does not hold the
  // transfer gets it appended, at the amount in coins; any other ledger stays.
  lemma {:induction false} CreditsInCoins(s: Setup, rows: Rows, t: Transfer, now: int, id: string)
    requires id in rows && rows[id].blob.expires > now && rows[id].blob.days >= 1
    ensures id in Processed(s, rows, t, now)
    ensures
      var before, after := rows[id].blob.payments, Processed(s, rows, t, now)[id].blob.payments;
      var hit := !rows[id].deleted && (t.paymentid == "" || rows[id].paymentid == t.paymentid);
      if hit && (forall i :: 0 <= i < |before| ==> before[i].height != t.height || before[i].txid != t.txid)
      then
        && |after| == |before| + 1 && before <= after
        && after[|before|].amount == (t.amount as real) * s.coinUnit
        && after[|before|].height == t.height && after[|before|].txid == t.txid
      else after == before
  {
    CreditedLedger(s, rows[id], t, now);
    CreditWrittenOut(rows[id].blob.payments, PaymentOf(t, s.coinUnit));
    hide CreditedRow, Credit;
  }

  lemma {:induction false} CreditedRowLedger(s: Setup, row: Row, t: Transfer, now: int)
    requires LiveAt(row, now)
    ensures
      var q := CreditedRow(s, row, t, now);
      && LiveAt(q, now)
      && q.blob.payments == Credit(row.blob.payments, PaymentOf(t, s.coinUnit))
      && q.paymentid == row.paymentid
  {
    var r := row.blob;
    var p := PaymentOf(t, s.coinUnit);
    LoadKeepsLedger(s, r, now);
    PaymentLands(s.cfg.site, s.catalog.gates(r.gateid), LoadOf(s, r, now).data, p, now);
    CreditDistinct(r.payments, p);
  }

  lemma {:induction false} CreditDistinct(ps: seq<Payment>, p: Payment)
    requires Distinct(ps)
    ensures Distinct(Credit(ps, p))
    ensures Keys(Credit(ps, p)) == Keys(ps) + {KeyOf(p)}
  {
    HasPaymentIsKey(ps, p);
    if KeyOf(p) !in Keys(ps) {
      DistinctPush(ps, p);
      KeysPush(ps, p);
    } else {
      assert Keys(ps) + {KeyOf(p)} == Keys(ps);
    }
  }

  // ---- one session through one reply ------------------------------------------------------

  ghost function Matching(paymentid: string, ts: seq<Transfer>): set<Key>
  {
    set i | 0 <= i < |ts| && IsFor(paymentid, ts[i]) :: TransferKey(ts[i])
  }

  // The row's ledger now holds exactly the old keys and `more`, each once.
  ghost predicate Holds(rows: Rows, id: string, now: int, paymentid: string, keys: set<Key>)
  {
    && id in rows && LiveAt(rows[id], now) && rows[id].paymentid == paymentid
    && Keys(rows[id].blob.payments) == keys
  }

  lemma {:induction false} MatchingSplit(paymentid: string, ts: seq<Transfer>)
    requires |ts| > 0
    ensures
      var n := |ts| - 1;
      Matching(paymentid, ts) ==
      Matching(paymentid, ts[..n]) + if IsFor(paymentid, ts[n]) then {TransferKey(ts[n])} else {}
  {
    var n := |ts| - 1;
    forall k | k in Matching(paymentid, ts[..n]) ensures k in Matching(paymentid, ts) {
      var i :| 0 <= i < n && IsFor(paymentid, ts[..n][i]) && TransferKey(ts[..n][i]) == k;
      assert ts[i] == ts[..n][i];
    }
    forall k | k in Matching(paymentid, ts)
      ensures k in Matching(paymentid, ts[..n]) || (IsFor(paymentid, ts[n]) && k == TransferKey(ts[n]))
    {
      var i :| 0 <= i < |ts| && IsFor(paymentid, ts[i]) && TransferKey(ts[i]) == k;
      assert i < n ==> ts[..n][i] == ts[i];
    }
  }

  lemma {:induction false} ReplyCredits(
    s: Setup, rows: Rows, id: string, paymentid: string, keys: set<Key>, ts: seq<Transfer>, now: int)
    requires Holds(rows, id, now, paymentid, keys)
    ensures Holds(ProcessedAll(s, rows, ts, now), id, now, paymentid, keys + Matching(paymentid, ts))
  {
    if |ts| == 0 {
      assert keys + Matching(paymentid, ts) == keys;
    } else {
      var n := |ts| - 1;
      ReplyCredits(s, rows, id, paymentid, keys, ts[..n], now);
      MatchingSplit(paymentid, ts);
      var before := ProcessedAll(s, rows, ts[..n], now);
      if IsFor(paymentid, ts[n]) {
        CreditedRowLedger(s, before[id], ts[n], now);
        CreditDistinct(before[id].blob.payments, PaymentOf(ts[n], s.coinUnit));
      }
      assert keys + Matching(paymentid, ts) ==
             keys + Matching(paymentid, ts[..n]) + if IsFor(paymentid, ts[n]) then {TransferKey(ts[n])} else {};
    }
  }

  // ---- whole runs ---------------------------------------------------------------------------

  predicate HasReply(e: WalletEvent)
  {
    e.Scan? && e.reading.Height? && e.reading.reply.Some?
  }

  ghost predicate Returned(es: seq<WalletEvent>, t: Transfer)
  {
    exists i :: 0 <= i < |es| && HasReply(es[i]) && t in es[i].reading.reply.value
  }

  // What another process writes does not take anything from this session's ledger: a save
  // of the session hands over the ledger, payment id and days it has; nobody removes it.
  predicate KeepsLedger(rows: Rows, e: WalletEvent, id: string)
  {
    match e
    case Elsewhere(SaveOf(r, at)) =>
      r.sessionid == id && r.expires > at ==>
        && id in rows && r.payments == rows[id].blob.payments
        && r.paymentid == rows[id].paymentid && r.days == rows[id].blob.days
    case Elsewhere(RemoveOf(other)) => other != id
    case _ => true
  }

  ghost predicate LedgerKept(s: Setup, w: Wallet, es: seq<WalletEvent>, id: string)
  {
    forall i :: 0 <= i < |es| ==> KeepsLedger(Ran(s, w, es[..i]).rows, es[i], id)
  }

  function ClockOf(e: WalletEvent): Option<int>
  {
    match e
    case Scan(_, now) => Some(now)
    case Elsewhere(CleanupAt(at)) => Some(at)
    case _ => None
  }

  // Whenever the session is scanned or a cleanup runs, its row has not expired.
  ghost predicate StaysFresh(s: Setup, w: Wallet, es: seq<WalletEvent>, id: string)
  {
    forall i :: 0 <= i < |es| && ClockOf(es[i]).Some? && id in Ran(s, w, es[..i]).rows ==>
      Ran(s, w, es[..i]).rows[id].expires > ClockOf(es[i]).value
  }

  ghost predicate Stored(w: Wallet, id: string, paymentid: string)
  {
    && id in w.rows && !w.rows[id].deleted && w.rows[id] == RowOf(w.rows[id].blob)
    && w.rows[id].paymentid == paymentid
    && w.rows[id].blob.days >= 1
    && Distinct(w.rows[id].blob.payments)
  }

  lemma {:induction false} StepCredits(s: Setup, w: Wallet, e: WalletEvent, id: string, paymentid: string)
    requires Stored(w, id, paymentid)
    requires KeepsLedger(w.rows, e, id)
    requires ClockOf(e).Some? ==> w.rows[id].expires > ClockOf(e).value
    ensures
      var v := Stepped(s, w, e);
      && Stored(v, id, paymentid)
      && Keys(v.rows[id].blob.payments) ==
         Keys(w.rows[id].blob.payments) +
         if HasReply(e) then Matching(paymentid, e.reading.reply.value) else {}
  {
    var keys := Keys(w.rows[id].blob.payments);
    assert keys + {} == keys;
    if HasReply(e) {
      ReplyCredits(s, w.rows, id, paymentid, keys, e.reading.reply.value, e.now);
    }
  }

  lemma {:induction false} PrefixConditions(s: Setup, w: Wallet, es: seq<WalletEvent>, id: string)
    requires |es| > 0 && LedgerKept(s, w, es, id) && StaysFresh(s, w, es, id)
    ensures
      var before := es[..|es| - 1];
      && LedgerKept(s, w, before, id) && StaysFresh(s, w, before, id)
      && KeepsLedger(Ran(s, w, before).rows, es[|es| - 1], id)
      && (ClockOf(es[|es| - 1]).Some? && id in Ran(s, w, before).rows ==>
            Ran(s, w, before).rows[id].expires > ClockOf(es[|es| - 1]).value)
  {
    var before := es[..|es| - 1];
    assert forall i :: 0 <= i < |before| ==> before[i] == es[i] && before[..i] == es[..i];
  }

  // The keys of this session's transfers in all the replies of a run.
  ghost function Gathered(paymentid: string, es: seq<WalletEvent>): set<Key>
  {
    if |es| == 0 then {}
    else
      var e := es[|es| - 1];
      Gathered(paymentid, es[..|es| - 1]) + if HasReply(e) then Matching(paymentid, e.reading.reply.value) else {}
  }

  lemma {:induction false} GatheredIsReturned(paymentid: string, es: seq<WalletEvent>, k: Key)
    ensures k in Gathered(paymentid, es) <==>
            exists t :: IsFor(paymentid, t) && TransferKey(t) == k && Returned(es, t)
  {
    if |es| > 0 {
      var before, e := es[..|es| - 1], es[|es| - 1];
      GatheredIsReturned(paymentid, before, k);
      if k in Gathered(paymentid, before) {
        var t :| IsFor(paymentid, t) && TransferKey(t) == k && Returned(before, t);
        ReturnedSplit(es, t);
      } else if k in Gathered(paymentid, es) {
        var ts := e.reading.reply.value;
        var i :| 0 <= i < |ts| && IsFor(paymentid, ts[i]) && TransferKey(ts[i]) == k;
        ReturnedSplit(es, ts[i]);
      }
      if t :| IsFor(paymentid, t) && TransferKey(t) == k && Returned(es, t) {
        ReturnedSplit(es, t);
        if !Returned(before, t) {
          var ts := e.reading.reply.value;
          var i :| 0 <= i < |ts| && ts[i] == t;
          assert IsFor(paymentid, ts[i]) && TransferKey(ts[i]) == k;
        }
      }
    }
  }

  lemma {:induction false} ReturnedSplit(es: seq<WalletEvent>, t: Transfer)
    requires |es| > 0
    ensures
      var e := es[|es| - 1];
      Returned(es, t) <==> Returned(es[..|es| - 1], t) || (HasReply(e) && t in e.reading.reply.value)
  {
    var before := es[..|es| - 1];
    if Returned(before, t) {
      var i :| 0 <= i < |before| && HasReply(before[i]) && t in before[i].reading.reply.value;
      assert HasReply(es[i]) && t in es[i].reading.reply.value;
    }
    if Returned(es, t) {
      var i :| 0 <= i < |es| && HasReply(es[i]) && t in es[i].reading.reply.value;
      assert i < |before| ==> before[i] == es[i];
    }
  }

  // The ledger ends up with what it held and what the replies contained, each transfer
  // once, and the session is still stored.
  lemma {:induction false} RunCredits(s: Setup, w: Wallet, es: seq<WalletEvent>, id: string, paymentid: string)
    requires Stored(w, id, paymentid) && LedgerKept(s, w, es, id) && StaysFresh(s, w, es, id)
    ensures
      var v := Ran(s, w, es);
      && Stored(v, id, paymentid)
      && Keys(v.rows[id].blob.payments) == Keys(w.rows[id].blob.payments) + Gathered(paymentid, es)
  {
    if |es| == 0 {
      assert Keys(w.rows[id].blob.payments) + {} == Keys(w.rows[id].blob.payments);
    } else {
      var n := |es| - 1;
      PrefixConditions(s, w, es, id);
      RunCredits(s, w, es[..n], id, paymentid);
      StepCredits(s, Ran(s, w, es[..n]), es[n], id, paymentid);
    }
  }

  // Every entry of `ledger` was in `before` or is the payment of a transfer in `ts`.
  ghost predicate Grown(before: seq<Payment>, ledger: seq<Payment>, paymentid: string, ts: iset<Transfer>, unit: real)
  {
    forall p :: p in ledger ==> p in before || exists t :: t in ts && IsFor(paymentid, t) && p == PaymentOf(t, unit)
  }

  ghost function Members(ts: seq<Transfer>): iset<Transfer>
  {
    iset t | t in ts
  }

  ghost function AllReturned(es: seq<WalletEvent>): iset<Transfer>
  {
    iset t | Returned(es, t)
  }

  lemma {:induction false} ReplyGrows(
    s: Setup, rows: Rows, id: string, paymentid: string, keys: set<Key>, ts: seq<Transfer>, now: int)
    requires Holds(rows, id, now, paymentid, keys)
    ensures id in ProcessedAll(s, rows, ts, now)
    ensures Grown(rows[id].blob.payments, ProcessedAll(s, rows, ts, now)[id].blob.payments, paymentid,
                  Members(ts), s.coinUnit)
  {
    if |ts| > 0 {
      var n := |ts| - 1;
      ReplyGrows(s, rows, id, paymentid, keys, ts[..n], now);
      ReplyCredits(s, rows, id, paymentid, keys, ts[..n], now);
      var before := ProcessedAll(s, rows, ts[..n], now);
      if IsFor(paymentid, ts[n]) {
        CreditedRowLedger(s, before[id], ts[n], now);
      }
      GrownStep(rows[id].blob.payments, before[id].blob.payments,
                ProcessedAll(s, rows, ts, now)[id].blob.payments, paymentid, ts, s.coinUnit);
    }
  }

  lemma {:induction false} GrownStep(
    first: seq<Payment>, before: seq<Payment>, after: seq<Payment>, paymentid: string, ts: seq<Transfer>, unit: real)
    requires |ts| > 0
    requires Grown(first, before, paymentid, Members(ts[..|ts| - 1]), unit)
    requires
      var last := ts[|ts| - 1];
      after == before || (IsFor(paymentid, last) && after == before + [PaymentOf(last, unit)])
    ensures Grown(first, after, paymentid, Members(ts), unit)
  {
    var last := ts[|ts| - 1];
    forall p | p in after && p !in first
      ensures exists t :: t in Members(ts) && IsFor(paymentid, t) && p == PaymentOf(t, unit)
    {
      if p in before {
        var t :| t in ts[..|ts| - 1] && IsFor(paymentid, t) && p == PaymentOf(t, unit);
        assert t in ts;
      } else {
        assert last in ts;
      }
    }
  }

  ghost function HereReturned(e: WalletEvent): iset<Transfer>
  {
    if HasReply(e) then Members(e.reading.reply.value) else iset{}
  }

  lemma {:induction false} AllReturnedGrows(es: seq<WalletEvent>)
    requires |es| > 0
    ensures AllReturned(es[..|es| - 1]) <= AllReturned(es) && HereReturned(es[|es| - 1]) <= AllReturned(es)
  {
    forall t ensures Returned(es[..|es| - 1], t) ==> Returned(es, t) {
      ReturnedSplit(es, t);
    }
    forall t ensures t in HereReturned(es[|es| - 1]) ==> Returned(es, t) {
      ReturnedSplit(es, t);
    }
  }

  // One event adds at most what its reply contains.
  lemma {:induction false} StepGrows(s: Setup, w: Wallet, e: WalletEvent, id: string, paymentid: string)
    requires Stored(w, id, paymentid) && KeepsLedger(w.rows, e, id)
    requires ClockOf(e).Some? ==> w.rows[id].expires > ClockOf(e).value
    ensures id in Stepped(s, w, e).rows
    ensures
      Grown(w.rows[id].blob.payments, Stepped(s, w, e).rows[id].blob.payments, paymentid, HereReturned(e), s.coinUnit)
  {
    if HasReply(e) {
      var keys := Keys(w.rows[id].blob.payments);
      hide Grown, Members, ProcessedAll;
      ReplyGrows(s, w.rows, id, paymentid, keys, e.reading.reply.value, e.now);
    }
  }

  lemma {:induction false} GrownFurther(
    first: seq<Payment>, mid: seq<Payment>, last: seq<Payment>, paymentid: string,
    less: iset<Transfer>, here: iset<Transfer>, all: iset<Transfer>, unit: real)
    requires Grown(first, mid, paymentid, less, unit) && Grown(mid, last, paymentid, here, unit)
    requires less <= all && here <= all
    ensures Grown(first, last, paymentid, all, unit)
  {
  }

  lemma {:induction false} RunGrows(s: Setup, w: Wallet, es: seq<WalletEvent>, id: string, paymentid: string)
    requires Stored(w, id, paymentid) && LedgerKept(s, w, es, id) && StaysFresh(s, w, es, id)
    ensures id in Ran(s, w, es).rows
    ensures Grown(w.rows[id].blob.payments, Ran(s, w, es).rows[id].blob.payments, paymentid,
                  AllReturned(es), s.coinUnit)
  {
    RunCredits(s, w, es, id, paymentid);
    if |es| > 0 {
      var n := |es| - 1;
      var v := Ran(s, w, es[..n]);
      assert Ran(s, w, es) == Stepped(s, v, es[n]);
      hide Ran, Grown, AllReturned, Stepped, HereReturned, Stored, LedgerKept, StaysFresh, KeepsLedger, Keys, Gathered;
      PrefixConditions(s, w, es, id);
      RunCredits(s, w, es[..n], id, paymentid);
      StoredHasRow(v, id, paymentid);
      RunGrows(s, w, es[..n], id, paymentid);
      StepGrows(s, v, es[n], id, paymentid);
      AllReturnedGrows(es);
      GrownFurther(w.rows[id].blob.payments, v.rows[id].blob.payments, Ran(s, w, es).rows[id].blob.payments,
                   paymentid, AllReturned(es[..n]), HereReturned(es[n]), AllReturned(es), s.coinUnit);
    }
  }

  lemma {:induction false} StoredHasRow(w: Wallet, id: string, paymentid: string)
    requires Stored(w, id, paymentid)
    ensures id in w.rows
  {
  }

  // Exactly the transfers some reply contained are credited, on top of what the ledger
  // held before.
  lemma {:induction false} CreditedIffReturned(
    s: Setup, w: Wallet, es: seq<WalletEvent>, id: string,
    paymentid: string, k: Key)
    requires Stored(w, id, paymentid) && LedgerKept(s, w, es, id) && StaysFresh(s, w, es, id)
    ensures Stored(Ran(s, w, es), id, paymentid)
    ensures k in Keys(Ran(s, w, es).rows[id].blob.payments) <==>
              || k in Keys(w.rows[id].blob.payments)
              || exists t :: IsFor(paymentid, t) && TransferKey(t) == k && Returned(es, t)
  {
    RunCredits(s, w, es, id, paymentid);
    GatheredIsReturned(paymentid, es, k);
  }

  // ---- windows ------------------------------------------------------------------------------

  function Heights(es: seq<WalletEvent>): seq<int>
  {
    if |es| == 0 then []
    else
      var e := es[|es| - 1];
      Heights(es[..|es| - 1]) + if e.Scan? && e.reading.Height? then [e.reading.height] else []
  }

  // The loop keeps the skew it has until a height was read, and carries the small one after.
  lemma {:induction false} SkewIsSkewAfter(s: Setup, w: Wallet, es: seq<WalletEvent>)
    ensures Ran(s, w, es).skew == if Heights(es) == [] then w.skew else NEXT_SKEW
  {
    if |es| > 0 {
      SkewIsSkewAfter(s, w, es[..|es| - 1]);
    }
  }

  // Every scan that read a height fetched its transfers: all of the chain's transfers
  // from `height - skew` up to the height it read.
  ghost predicate Fetches(s: Setup, w: Wallet, es: seq<WalletEvent>, chain: set<Transfer>)
  {
    forall i :: 0 <= i < |es| && es[i].Scan? && es[i].reading.Height? ==>
      && HasReply(es[i])
      && forall t :: t in chain && es[i].reading.height - Ran(s, w, es[..i]).skew <= t.height <= es[i].reading.height
           ==> t in es[i].reading.reply.value
  }

  predicate CloseTogether(hs: seq<int>)
  {
    forall i :: 0 < i < |hs| ==> hs[i] - hs[i - 1] <= 100
  }

  lemma {:induction false} WindowsCover(s: Setup, w: Wallet, es: seq<WalletEvent>, chain: set<Transfer>, t: Transfer)
    requires Fetches(s, w, es, chain) && CloseTogether(Heights(es)) && Heights(es) != []
    requires t in chain
    requires Heights(es)[0] - w.skew <= t.height <= Heights(es)[|Heights(es)| - 1]
    ensures Returned(es, t)
  {
    var n := |es| - 1;
    var before, e := es[..n], es[n];
    assert forall i :: 0 <= i < n ==> before[i] == es[i] && before[..i] == es[..i];
    ReturnedSplit(es, t);
    SkewIsSkewAfter(s, w, before);
    var hs, hs' := Heights(es), Heights(before);
    if e.Scan? && e.reading.Height? {
      assert hs == hs' + [e.reading.height];
      if hs' != [] && t.height <= hs'[|hs'| - 1] {
        assert CloseTogether(hs') by {
          assert forall i :: 0 <= i < |hs'| ==> hs'[i] == hs[i];
        }
        WindowsCover(s, w, before, chain, t);
      } else {
        assert hs' != [] ==> hs[|hs| - 1] - hs[|hs| - 2] <= NEXT_SKEW;
      }
    } else {
      assert hs == hs';
      WindowsCover(s, w, before, chain, t);
    }
  }

  // Replies hold transfers of the chain, where height and transaction fix the amount.
  ghost predicate FromChain(es: seq<WalletEvent>, chain: set<Transfer>)
  {
    && (forall t :: Returned(es, t) ==> t in chain)
    && (forall t, u :: t in chain && u in chain && TransferKey(t) == TransferKey(u) ==> t.amount == u.amount)
  }

  // The ledger holds the transfer, with its amount in coins, and nothing else under its
  // height and transaction.
  ghost predicate OnceInCoins(ledger: seq<Payment>, t: Transfer, unit: real)
  {
    exists i :: 0 <= i < |ledger|
      && ledger[i].amount == (t.amount as real) * unit && ledger[i].height == t.height && ledger[i].txid == t.txid
      && forall j :: 0 <= j < |ledger| && ledger[j].height == t.height && ledger[j].txid == t.txid ==> j == i
  }

  // With every scan fetching its window and scanned heights at most 100 apart, every
  // transfer of the session from 20000 below the first height up to the last one is in
  // its ledger, exactly once and with its amount.
  lemma {:induction false} CreditedExactlyOnce(
    s: Setup, rows: Rows, es: seq<WalletEvent>, id: string, paymentid: string, chain: set<Transfer>, t: Transfer)
    requires Stored(Wallet(FIRST_SKEW, rows), id, paymentid)
    requires LedgerKept(s, Wallet(FIRST_SKEW, rows), es, id) && StaysFresh(s, Wallet(FIRST_SKEW, rows), es, id)
    requires Fetches(s, Wallet(FIRST_SKEW, rows), es, chain) && CloseTogether(Heights(es)) && Heights(es) != []
    requires FromChain(es, chain) && t in chain && IsFor(paymentid, t)
    requires Heights(es)[0] - 20000 <= t.height <= Heights(es)[|Heights(es)| - 1]
    requires TransferKey(t) !in Keys(rows[id].blob.payments)
    ensures id in Ran(s, Wallet(FIRST_SKEW, rows), es).rows
    ensures
      var ledger := Ran(s, Wallet(FIRST_SKEW, rows), es).rows[id].blob.payments;
      OnceInCoins(ledger, t, s.coinUnit)
  {
    var w := Wallet(FIRST_SKEW, rows);
    WindowsCover(s, w, es, chain, t);
    CreditedIffReturned(s, w, es, id, paymentid, TransferKey(t));
    RunGrows(s, w, es, id, paymentid);
    OneEntry(rows[id].blob.payments, Ran(s, w, es).rows[id].blob.payments, paymentid, AllReturned(es), s.coinUnit, t);
  }

  lemma {:induction false} OneEntry(
    before: seq<Payment>, ledger: seq<Payment>, paymentid: string, ts: iset<Transfer>, unit: real, t: Transfer)
    requires Distinct(ledger) && Grown(before, ledger, paymentid, ts, unit)
    requires TransferKey(t) in Keys(ledger) && TransferKey(t) !in Keys(before)
    requires forall u :: u in ts && TransferKey(u) == TransferKey(t) ==> u.amount == t.amount
    ensures OnceInCoins(ledger, t, unit)
  {
    var i :| 0 <= i < |ledger| && KeyOf(ledger[i]) == TransferKey(t);
    assert ledger[i] in ledger;
    forall p | p in before ensures KeyOf(p) in Keys(before) {
      var j :| 0 <= j < |before| && before[j] == p;
      assert KeyOf(before[j]) == KeyOf(p);
    }
    assert ledger[i] == PaymentOf(t, unit);
  }

  // No reply goes below its window.
  ghost predicate StaysInWindow(s: Setup, w: Wallet, es: seq<WalletEvent>)
  {
    forall i, t :: 0 <= i < |es| && HasReply(es[i]) && t in es[i].reading.reply.value ==>
      es[i].reading.height - Ran(s, w, es[..i]).skew <= t.height
  }

  // A first scan that reads the height but gets no transfers still narrows the window:
  // nothing older than 100 blocks below every later height is ever credited.
  lemma {:induction false} FailedFirstFetchLosesHistory(
    s: Setup, rows: Rows, es: seq<WalletEvent>, id: string, paymentid: string, t: Transfer)
    requires Stored(Wallet(FIRST_SKEW, rows), id, paymentid)
    requires LedgerKept(s, Wallet(FIRST_SKEW, rows), es, id) && StaysFresh(s, Wallet(FIRST_SKEW, rows), es, id)
    requires StaysInWindow(s, Wallet(FIRST_SKEW, rows), es)
    requires |es| > 0 && es[0].Scan? && es[0].reading.Height? && es[0].reading.reply.None?
    requires forall i :: 0 <= i < |Heights(es)| ==> t.height < Heights(es)[i] - 100
    requires TransferKey(t) !in Keys(rows[id].blob.payments)
    ensures id in Ran(s, Wallet(FIRST_SKEW, rows), es).rows
    ensures TransferKey(t) !in Keys(Ran(s, Wallet(FIRST_SKEW, rows), es).rows[id].blob.payments)
  {
    CreditedIffReturned(s, Wallet(FIRST_SKEW, rows), es, id, paymentid, TransferKey(t));
    forall u | TransferKey(u) == TransferKey(t) ensures !Returned(es, u) {
      if Returned(es, u) {
        var i :| 0 <= i < |es| && HasReply(es[i]) && u in es[i].reading.reply.value;
        HeightsNonEmpty(es[..i]);
        SkewIsSkewAfter(s, Wallet(FIRST_SKEW, rows), es[..i]);
        HeightListed(es, i);
        assert false;
      }
    }
  }

  lemma {:induction false} HeightsNonEmpty(es: seq<WalletEvent>)
    ensures |es| > 0 && es[0].Scan? && es[0].reading.Height? ==> Heights(es) != []
  {
    if |es| > 0 {
      HeightsNonEmpty(es[..|es| - 1]);
    }
  }

  lemma {:induction false} HeightListed(es: seq<WalletEvent>, i: nat)
    requires i < |es| && es[i].Scan? && es[i].reading.Height?
    ensures es[i].reading.height in Heights(es)
  {
    if i < |es| - 1 {
      HeightListed(es[..|es| - 1], i);
    }
  }
}
