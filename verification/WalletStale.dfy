/**
  End to end crediting when other processes save old copies of a session over newer ones:
  what such a save loses, later scans bring back as far as their windows reach.
 */
module WalletStale {
  import opened Basics
  import opened SessionRecord
  import opened SessionTable
  import opened Ledger
  import opened WalletScan
  import opened WalletCredit

  // Whatever the ledger holds under the transfer's key is the transfer's payment.
  ghost predicate PricedFor(ps: seq<Payment>, t: Transfer, unit: real)
  {
    forall p :: p in ps && KeyOf(p) == TransferKey(t) ==> p == PaymentOf(t, unit)
  }

  // A save of the session may hand over any ledger without repetitions, older or newer.
  ghost predicate Proper(e: WalletEvent, id: string, paymentid: string, t: Transfer, unit: real)
  {
    match e
    case Elsewhere(SaveOf(r, at)) =>
      r.sessionid == id && r.expires > at ==>
        r.paymentid == paymentid && r.days >= 1 && Distinct(r.payments) && PricedFor(r.payments, t, unit)
    case Elsewhere(RemoveOf(other)) => other != id
    case _ => true
  }

  ghost predicate AllProper(es: seq<WalletEvent>, id: string, paymentid: string, t: Transfer, unit: real)
  {
    forall i :: 0 <= i < |es| ==> Proper(es[i], id, paymentid, t, unit)
  }

  // WalletEvent i saves the session without the ledger it has.
  ghost predicate Loses(s: Setup, w: Wallet, es: seq<WalletEvent>, i: nat, id: string)
    requires i < |es|
  {
    !KeepsLedger(Ran(s, w, es[..i]).rows, es[i], id)
  }

  // ---- every state on the way -----------------------------------------------------------

  lemma {:induction false} GrownPriced(
    before: seq<Payment>, after: seq<Payment>, paymentid: string, ts: iset<Transfer>, t: Transfer, unit: real)
    requires PricedFor(before, t, unit) && Grown(before, after, paymentid, ts, unit)
    requires forall u :: u in ts && TransferKey(u) == TransferKey(t) ==> u.amount == t.amount
    ensures PricedFor(after, t, unit)
  {
  }

  lemma {:induction false} StepProper(s: Setup, w: Wallet, e: WalletEvent, id: string, paymentid: string, t: Transfer)
    requires Stored(w, id, paymentid) && PricedFor(w.rows[id].blob.payments, t, s.coinUnit)
    requires Proper(e, id, paymentid, t, s.coinUnit)
    requires ClockOf(e).Some? ==> w.rows[id].expires > ClockOf(e).value
    requires forall u :: HasReply(e) && u in e.reading.reply.value && TransferKey(u) == TransferKey(t) ==>
               u.amount == t.amount
    ensures
      var v := Stepped(s, w, e);
      Stored(v, id, paymentid) && PricedFor(v.rows[id].blob.payments, t, s.coinUnit)
  {
    if KeepsLedger(w.rows, e, id) {
      StepCredits(s, w, e, id, paymentid);
      StepGrows(s, w, e, id, paymentid);
      GrownPriced(w.rows[id].blob.payments, Stepped(s, w, e).rows[id].blob.payments, paymentid,
                  HereReturned(e), t, s.coinUnit);
    }
  }

  lemma {:induction false} RunProper(
    s: Setup, w: Wallet, es: seq<WalletEvent>, id: string, paymentid: string, chain: set<Transfer>, t: Transfer)
    requires Stored(w, id, paymentid) && PricedFor(w.rows[id].blob.payments, t, s.coinUnit)
    requires AllProper(es, id, paymentid, t, s.coinUnit) && StaysFresh(s, w, es, id)
    requires FromChain(es, chain) && t in chain
    ensures
      var v := Ran(s, w, es);
      Stored(v, id, paymentid) && PricedFor(v.rows[id].blob.payments, t, s.coinUnit)
  {
    if |es| > 0 {
      var n := |es| - 1;
      var before, e := es[..n], es[n];
      assert forall i :: 0 <= i < n ==> before[i] == es[i] && before[..i] == es[..i];
      assert es[..n] == before;
      forall u ensures Returned(before, u) ==> Returned(es, u) {
        ReturnedSplit(es, u);
      }
      forall u ensures HasReply(e) && u in e.reading.reply.value ==> Returned(es, u) {
        ReturnedSplit(es, u);
      }
      RunProper(s, w, before, id, paymentid, chain, t);
      assert Proper(e, id, paymentid, t, s.coinUnit);
      var v := Ran(s, w, before);
      assert ClockOf(e).Some? ==> v.rows[id].expires > ClockOf(e).value;
      hide Proper, PricedFor, Stored;
      StepProper(s, v, e, id, paymentid, t);
    }
  }

  // ---- splitting a run -------------------------------------------------------------------

  lemma {:induction false} RanFrom(s: Setup, w: Wallet, es: seq<WalletEvent>, m: nat, j: nat)
    requires m + j <= |es|
    ensures Ran(s, Ran(s, w, es[..m]), es[m..][..j]) == Ran(s, w, es[..m + j])
  {
    if j > 0 {
      RanFrom(s, w, es, m, j - 1);
      assert es[m..][..j][..j - 1] == es[m..][..j - 1] && es[..m + j][..m + j - 1] == es[..m + j - 1];
      assert es[m..][..j][j - 1] == es[m + j - 1] == es[..m + j][m + j - 1];
    }
  }

  lemma {:induction false} FreshFrom(s: Setup, w: Wallet, es: seq<WalletEvent>, m: nat, id: string)
    requires m <= |es| && StaysFresh(s, w, es, id)
    ensures StaysFresh(s, w, es[..m], id) && StaysFresh(s, Ran(s, w, es[..m]), es[m..], id)
  {
    assert forall i :: 0 <= i < m ==> es[..m][i] == es[i] && es[..m][..i] == es[..i];
    forall j | 0 <= j < |es| - m
      ensures Ran(s, Ran(s, w, es[..m]), es[m..][..j]) == Ran(s, w, es[..m + j]) && es[m..][j] == es[m + j]
    {
      RanFrom(s, w, es, m, j);
    }
  }

  lemma {:induction false} KeptFrom(s: Setup, w: Wallet, es: seq<WalletEvent>, m: nat, id: string)
    requires m <= |es| && forall i :: m <= i < |es| ==> !Loses(s, w, es, i, id)
    ensures LedgerKept(s, Ran(s, w, es[..m]), es[m..], id)
  {
    forall j | 0 <= j < |es| - m
      ensures KeepsLedger(Ran(s, Ran(s, w, es[..m]), es[m..][..j]).rows, es[m..][j], id)
    {
      RanFrom(s, w, es, m, j);
      assert !Loses(s, w, es, m + j, id);
    }
  }

  lemma {:induction false} ReturnedLater(es: seq<WalletEvent>, m: nat, t: Transfer)
    requires m <= |es|
    ensures Returned(es[m..], t) ==> Returned(es, t)
    ensures Returned(es[..m], t) ==> Returned(es, t)
  {
    if i :| 0 <= i < |es[m..]| && HasReply(es[m..][i]) && t in es[m..][i].reading.reply.value {
      assert HasReply(es[m + i]) && t in es[m + i].reading.reply.value;
    }
    if i :| 0 <= i < m && HasReply(es[..m][i]) && t in es[..m][i].reading.reply.value {
      assert HasReply(es[i]) && t in es[i].reading.reply.value;
    }
  }

  // The events from the last loss on.
  lemma {:induction false} LastLoss(s: Setup, w: Wallet, es: seq<WalletEvent>, id: string, k: nat) returns (m: nat)
    requires k <= |es| && forall i :: k <= i < |es| ==> !Loses(s, w, es, i, id)
    ensures m <= |es| && forall i :: m <= i < |es| ==> !Loses(s, w, es, i, id)
    ensures m == 0 || Loses(s, w, es, m - 1, id)
  {
    if k == 0 || Loses(s, w, es, k - 1, id) {
      m := k;
    } else {
      m := LastLoss(s, w, es, id, k - 1);
    }
  }

  // ---- main results --------------------------------------------------------------------------

  lemma {:induction false} PricedIsOnce(ledger: seq<Payment>, t: Transfer, unit: real)
    requires Distinct(ledger) && PricedFor(ledger, t, unit) && TransferKey(t) in Keys(ledger)
    ensures OnceInCoins(ledger, t, unit)
  {
    var i :| 0 <= i < |ledger| && KeyOf(ledger[i]) == TransferKey(t);
    assert ledger[i] in ledger;
  }

  lemma {:induction false} StoredAt(
    s: Setup, w: Wallet, es: seq<WalletEvent>, m: nat, id: string, paymentid: string, chain: set<Transfer>, t: Transfer)
    requires Stored(w, id, paymentid) && PricedFor(w.rows[id].blob.payments, t, s.coinUnit)
    requires AllProper(es, id, paymentid, t, s.coinUnit) && StaysFresh(s, w, es, id)
    requires FromChain(es, chain) && t in chain && m <= |es|
    ensures Stored(Ran(s, w, es[..m]), id, paymentid)
  {
    assert forall i :: 0 <= i < m ==> es[..m][i] == es[i];
    forall u ensures Returned(es[..m], u) ==> Returned(es, u) {
      ReturnedLater(es, m, u);
    }
    FreshFrom(s, w, es, m, id);
    RunProper(s, w, es[..m], id, paymentid, chain, t);
  }

  // What a scan returns after the last loss stays in the ledger.
  lemma {:induction false} CreditedAfter(
    s: Setup, w: Wallet, es: seq<WalletEvent>, m: nat, id: string, paymentid: string, t: Transfer)
    requires m <= |es| && Stored(Ran(s, w, es[..m]), id, paymentid) && StaysFresh(s, w, es, id)
    requires forall i :: m <= i < |es| ==> !Loses(s, w, es, i, id)
    requires Returned(es[m..], t) && IsFor(paymentid, t)
    ensures Stored(Ran(s, w, es), id, paymentid) && TransferKey(t) in Keys(Ran(s, w, es).rows[id].blob.payments)
  {
    hide Stored, StaysFresh, LedgerKept, Returned, Keys, Ran, Loses, KeepsLedger;
    FreshFrom(s, w, es, m, id);
    KeptFrom(s, w, es, m, id);
    RanFrom(s, w, es, m, |es| - m);
    assert es[m..][..|es| - m] == es[m..] && es[..m + (|es| - m)] == es;
    CreditedIffReturned(s, Ran(s, w, es[..m]), es[m..], id, paymentid, TransferKey(t));
  }

  // If a scan returns the transfer, and after every save that loses ledger entries a scan
  // returns it again, it is in the ledger at the end, once.
  lemma {:induction false} CreditedDespiteLosses(
    s: Setup, w: Wallet, es: seq<WalletEvent>, id: string, paymentid: string, chain: set<Transfer>, t: Transfer)
    requires Stored(w, id, paymentid) && PricedFor(w.rows[id].blob.payments, t, s.coinUnit)
    requires AllProper(es, id, paymentid, t, s.coinUnit) && StaysFresh(s, w, es, id)
    requires FromChain(es, chain) && t in chain && IsFor(paymentid, t)
    requires Returned(es, t)
    requires forall i :: 0 <= i < |es| && Loses(s, w, es, i, id) ==> Returned(es[i + 1..], t)
    ensures Stored(Ran(s, w, es), id, paymentid) && OnceInCoins(Ran(s, w, es).rows[id].blob.payments, t, s.coinUnit)
  {
    hide Loses, Returned, AllProper, StaysFresh, FromChain, PricedFor, OnceInCoins, Ran, Keys;
    RunProper(s, w, es, id, paymentid, chain, t);
    var m := LastLoss(s, w, es, id, |es|);
    assert es[0..] == es;
    assert m > 0 ==> Loses(s, w, es, m - 1, id);
    StoredAt(s, w, es, m, id, paymentid, chain, t);
    CreditedAfter(s, w, es, m, id, paymentid, t);
    PricedIsOnce(Ran(s, w, es).rows[id].blob.payments, t, s.coinUnit);
  }

  // The windows of the scans from event m on reach the transfer.
  ghost predicate WindowsReach(s: Setup, w: Wallet, es: seq<WalletEvent>, m: nat, t: Transfer)
    requires m <= |es|
  {
    var hs := Heights(es[m..]);
    hs != [] && hs[0] - Ran(s, w, es[..m]).skew <= t.height <= hs[|hs| - 1]
  }

  lemma {:induction false} HeightsSplit(es: seq<WalletEvent>, m: nat)
    requires m <= |es|
    ensures Heights(es) == Heights(es[..m]) + Heights(es[m..])
    decreases |es|
  {
    if m == |es| {
      assert es[..m] == es;
    } else {
      var n := |es| - 1;
      HeightsSplit(es[..n], m);
      assert es[..n][..m] == es[..m] && es[..n][m..] == es[m..][..n - m];
    }
  }

  lemma {:induction false} WindowsReturn(
    s: Setup, w: Wallet, es: seq<WalletEvent>, chain: set<Transfer>, m: nat, t: Transfer)
    requires Fetches(s, w, es, chain) && CloseTogether(Heights(es)) && t in chain
    requires m <= |es| && WindowsReach(s, w, es, m, t)
    ensures Returned(es[m..], t)
  {
    forall j | 0 <= j < |es| - m
      ensures Ran(s, Ran(s, w, es[..m]), es[m..][..j]) == Ran(s, w, es[..m + j]) && es[m..][j] == es[m + j]
    {
      RanFrom(s, w, es, m, j);
    }
    assert Fetches(s, Ran(s, w, es[..m]), es[m..], chain);
    HeightsSplit(es, m);
    var a, b := Heights(es[..m]), Heights(es[m..]);
    assert CloseTogether(b) by {
      assert forall i :: 0 <= i < |b| ==> b[i] == Heights(es)[|a| + i];
    }
    WindowsCover(s, Ran(s, w, es[..m]), es[m..], chain, t);
  }

  // End to end: with every scan fetching its window and heights at most 100 apart, a
  // transfer that the windows reach from the start, and again after every save that loses
  // ledger entries, is in the ledger at the end, exactly once and with its amount.
  lemma {:induction false} CreditedDespiteStaleSaves(
    s: Setup, w: Wallet, es: seq<WalletEvent>, id: string, paymentid: string, chain: set<Transfer>, t: Transfer)
    requires Stored(w, id, paymentid) && PricedFor(w.rows[id].blob.payments, t, s.coinUnit)
    requires AllProper(es, id, paymentid, t, s.coinUnit) && StaysFresh(s, w, es, id)
    requires FromChain(es, chain) && t in chain && IsFor(paymentid, t)
    requires Fetches(s, w, es, chain) && CloseTogether(Heights(es))
    requires WindowsReach(s, w, es, 0, t)
    requires forall i :: 0 <= i < |es| && Loses(s, w, es, i, id) ==> WindowsReach(s, w, es, i + 1, t)
    ensures Stored(Ran(s, w, es), id, paymentid) && OnceInCoins(Ran(s, w, es).rows[id].blob.payments, t, s.coinUnit)
  {
    WindowsReturn(s, w, es, chain, 0, t);
    assert es[0..] == es;
    forall i | 0 <= i < |es| && Loses(s, w, es, i, id) ensures Returned(es[i + 1..], t) {
      WindowsReturn(s, w, es, chain, i + 1, t);
    }
    CreditedDespiteLosses(s, w, es, id, paymentid, chain, t);
  }
}
