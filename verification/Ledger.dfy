/**
  A session's ledger under replay: overlapping rescans hand the same transfers to
  add_payment again and again, in any order and at any time.
 */
module Ledger {
  import opened Basics
  import opened SessionRecord

  // One call of add_payment: the payment, the clock and what the activation tools did.
  datatype Event = Event(p: Payment, now: int, tool: Tool)

  function Replay(site: Site, gate: Gate, r: SessionData, es: seq<Event>): SessionData
  {
    if |es| == 0 then r
    else
      var e := es[|es| - 1];
      AddPayment(site, gate, Replay(site, gate, r, es[..|es| - 1]), e.p, e.now, e.tool).data
  }

  type Key = (int, string)

  function KeyOf(p: Payment): Key { (p.height, p.txid) }

  ghost function Keys(ps: seq<Payment>): set<Key>
  {
    set i | 0 <= i < |ps| :: KeyOf(ps[i])
  }

  ghost function EventKeys(es: seq<Event>): set<Key>
  {
    set i | 0 <= i < |es| :: KeyOf(es[i].p)
  }

  ghost predicate Distinct(ps: seq<Payment>)
  {
    forall i, j :: 0 <= i < j < |ps| ==> KeyOf(ps[i]) != KeyOf(ps[j])
  }

  // The amount of a transfer is fixed by its height and transaction.
  ghost predicate PricedBy(ps: seq<Payment>, amount: map<Key, real>)
  {
    forall i :: 0 <= i < |ps| ==> KeyOf(ps[i]) in amount && ps[i].amount == amount[KeyOf(ps[i])]
  }

  ghost predicate EventsPricedBy(es: seq<Event>, amount: map<Key, real>)
  {
    forall i :: 0 <= i < |es| ==> KeyOf(es[i].p) in amount && es[i].p.amount == amount[KeyOf(es[i].p)]
  }

  // ---- one payment ----------------------------------------------------------------

  lemma {:induction false} HasPaymentIsKey(ps: seq<Payment>, p: Payment)
    ensures HasPayment(ps, p.height, p.txid) <==> KeyOf(p) in Keys(ps)
  {
    if KeyOf(p) in Keys(ps) {
      var i :| 0 <= i < |ps| && KeyOf(ps[i]) == KeyOf(p);
      assert ps[i].height == p.height && ps[i].txid == p.txid;
    }
    if HasPayment(ps, p.height, p.txid) {
      var i :| 0 <= i < |ps| && ps[i].height == p.height && ps[i].txid == p.txid;
      assert KeyOf(ps[i]) == KeyOf(p);
    }
  }

  lemma {:induction false} KeysPush(ps: seq<Payment>, p: Payment)
    ensures Keys(ps + [p]) == Keys(ps) + {KeyOf(p)}
  {
    var all := ps + [p];
    forall k | k in Keys(ps) + {KeyOf(p)} ensures k in Keys(all) {
      if k in Keys(ps) {
        var i :| 0 <= i < |ps| && KeyOf(ps[i]) == k;
        assert KeyOf(all[i]) == k;
      } else {
        assert KeyOf(all[|ps|]) == k;
      }
    }
  }

  // A known transfer changes nothing at all; an unknown one is appended, and the paid
  // flag then says whether the whole ledger covers the price.
  lemma {:induction false} OnePayment(site: Site, gate: Gate, r: SessionData, e: Event)
    ensures
      var s := AddPayment(site, gate, r, e.p, e.now, e.tool).data;
      if KeyOf(e.p) in Keys(r.payments) then s == r
      else
        && s.payments == r.payments + [e.p]
        && s.price == r.price
        && (s.paid <==> Total(s.payments) >= s.price)
        && Keys(s.payments) == Keys(r.payments) + {KeyOf(e.p)}
  {
    HasPaymentIsKey(r.payments, e.p);
    KeysPush(r.payments, e.p);
  }

  lemma {:induction false} EventKeysSplit(es: seq<Event>)
    requires |es| > 0
    ensures EventKeys(es) == EventKeys(es[..|es| - 1]) + {KeyOf(es[|es| - 1].p)}
  {
    var before := es[..|es| - 1];
    forall k | k in EventKeys(before) ensures k in EventKeys(es) {
      var i :| 0 <= i < |before| && KeyOf(before[i].p) == k;
      assert KeyOf(es[i].p) == k;
    }
  }

  // ---- a whole stream ---------------------------------------------------------------

  ghost predicate Sound(ps: seq<Payment>, amount: map<Key, real>)
  {
    Distinct(ps) && PricedBy(ps, amount)
  }

  // `s` is what `r` became after payments with the keys `seen`.
  ghost predicate Credited(r: SessionData, s: SessionData, seen: set<Key>, amount: map<Key, real>)
  {
    && r.payments <= s.payments
    && Keys(s.payments) == Keys(r.payments) + seen
    && Sound(s.payments, amount)
    && s.price == r.price
    && (if seen <= Keys(r.payments) then s == r else s.paid <==> Total(s.payments) >= s.price)
  }

  lemma {:induction false} SoundPush(ps: seq<Payment>, p: Payment, amount: map<Key, real>)
    requires Sound(ps, amount) && KeyOf(p) !in Keys(ps)
    requires KeyOf(p) in amount && p.amount == amount[KeyOf(p)]
    ensures Sound(ps + [p], amount)
  {
    DistinctPush(ps, p);
  }

  lemma {:induction false} OneMoreCredited(
    site: Site, gate: Gate, r: SessionData, s: SessionData, e: Event, seen: set<Key>, amount: map<Key, real>)
    requires Credited(r, s, seen, amount)
    requires KeyOf(e.p) in amount && e.p.amount == amount[KeyOf(e.p)]
    ensures Credited(r, AddPayment(site, gate, s, e.p, e.now, e.tool).data, seen + {KeyOf(e.p)}, amount)
  {
    OnePayment(site, gate, s, e);
    CreditedStep(r, s, AddPayment(site, gate, s, e.p, e.now, e.tool).data, e.p, seen, amount);
  }

  lemma {:induction false} CreditedStep(
    r: SessionData, s: SessionData, t: SessionData, p: Payment, seen: set<Key>, amount: map<Key, real>)
    requires Credited(r, s, seen, amount)
    requires KeyOf(p) in amount && p.amount == amount[KeyOf(p)]
    requires
      if KeyOf(p) in Keys(s.payments) then t == s
      else
        && t.payments == s.payments + [p]
        && t.price == s.price
        && (t.paid <==> Total(t.payments) >= t.price)
        && Keys(t.payments) == Keys(s.payments) + {KeyOf(p)}
    ensures Credited(r, t, seen + {KeyOf(p)}, amount)
  {
    if KeyOf(p) in Keys(s.payments) {
      assert Keys(s.payments) + {KeyOf(p)} == Keys(s.payments);
    } else {
      SoundPush(s.payments, p, amount);
    }
  }

  lemma {:induction false} ReplayLedger(site: Site, gate: Gate, r: SessionData, es: seq<Event>, amount: map<Key, real>)
    requires Sound(r.payments, amount) && EventsPricedBy(es, amount)
    ensures Credited(r, Replay(site, gate, r, es), EventKeys(es), amount)
  {
    if |es| > 0 {
      var before := es[..|es| - 1];
      ReplayLedger(site, gate, r, before, amount);
      EventKeysSplit(es);
      OneMoreCredited(site, gate, r, Replay(site, gate, r, before), es[|es| - 1], EventKeys(before), amount);
    }
  }

  lemma {:induction false} DistinctPush(ps: seq<Payment>, p: Payment)
    requires Distinct(ps) && KeyOf(p) !in Keys(ps)
    ensures Distinct(ps + [p])
  {
    forall i, j | 0 <= i < j < |ps + [p]| ensures KeyOf((ps + [p])[i]) != KeyOf((ps + [p])[j]) {
      assert KeyOf(ps[i]) in Keys(ps);
    }
  }

  // ---- equal ledgers up to order ------------------------------------------------------

  lemma {:induction false} SameKeysSameMultiset(a: seq<Payment>, b: seq<Payment>, amount: map<Key, real>)
    requires Sound(a, amount) && Sound(b, amount) && Keys(a) == Keys(b)
    ensures multiset(a) == multiset(b)
  {
    assert |b| > 0 ==> KeyOf(b[0]) in Keys(b);
    if |a| > 0 {
      var n := |a| - 1;
      assert KeyOf(a[n]) in Keys(a);
      var i :| 0 <= i < |b| && KeyOf(b[i]) == KeyOf(a[n]);
      Without(a, n, amount);
      Without(b, i, amount);
      SameKeysSameMultiset(Rest(a, n), Rest(b, i), amount);
    }
  }

  ghost function Rest(ps: seq<Payment>, i: nat): (rest: seq<Payment>)
    requires i < |ps|
    ensures |rest| == |ps| - 1
  {
    ps[..i] + ps[i + 1..]
  }

  lemma {:induction false} Without(ps: seq<Payment>, i: nat, amount: map<Key, real>)
    requires i < |ps| && Sound(ps, amount)
    ensures Sound(Rest(ps, i), amount)
    ensures Keys(Rest(ps, i)) == Keys(ps) - {KeyOf(ps[i])}
    ensures multiset(ps) == multiset(Rest(ps, i)) + multiset{ps[i]}
    ensures ps[i].amount == amount[KeyOf(ps[i])]
  {
    KeysWithout(ps, i);
    MultisetWithout(ps, i);
    var rest := Rest(ps, i);
    assert forall j :: 0 <= j < |rest| ==> rest[j] == ps[if j < i then j else j + 1];
  }

  lemma {:induction false} MultisetWithout(ps: seq<Payment>, i: nat)
    requires i < |ps|
    ensures multiset(ps) == multiset(Rest(ps, i)) + multiset{ps[i]}
    ensures multiset(Rest(ps, i)) == multiset(ps) - multiset{ps[i]}
  {
    assert ps == ps[..i] + [ps[i]] + ps[i + 1..];
  }

  lemma {:induction false} KeysWithout(ps: seq<Payment>, i: nat)
    requires i < |ps| && Distinct(ps)
    ensures Keys(Rest(ps, i)) == Keys(ps) - {KeyOf(ps[i])}
  {
    var rest := Rest(ps, i);
    forall k | k in Keys(ps) - {KeyOf(ps[i])} ensures k in Keys(rest) {
      var j :| 0 <= j < |ps| && KeyOf(ps[j]) == k;
      assert rest[if j < i then j else j - 1] == ps[j];
    }
    forall k | k in Keys(rest) ensures k in Keys(ps) - {KeyOf(ps[i])} {
      var j :| 0 <= j < |rest| && KeyOf(rest[j]) == k;
      assert rest[j] == ps[if j < i then j else j + 1];
    }
  }

  lemma {:induction false} TotalOfPermutation(a: seq<Payment>, b: seq<Payment>)
    requires multiset(a) == multiset(b)
    ensures Total(a) == Total(b)
  {
    if |a| == 0 {
      assert |b| == |multiset(b)| == |multiset(a)| == 0;
    } else {
      var n := |a| - 1;
      assert a[n] in multiset(a);
      var i :| 0 <= i < |b| && b[i] == a[n];
      MultisetWithout(a, n);
      MultisetWithout(b, i);
      TotalOfPermutation(Rest(a, n), Rest(b, i));
      TotalWithout(a, n);
      TotalWithout(b, i);
    }
  }

  lemma {:induction false} TotalWithout(ps: seq<Payment>, i: nat)
    requires i < |ps|
    ensures Total(ps) == Total(Rest(ps, i)) + ps[i].amount
  {
    hide Total;
    assert ps == (ps[..i] + [ps[i]]) + ps[i + 1..];
    TotalAround(ps[..i], ps[i], ps[i + 1..]);
  }

  lemma {:induction false} TotalAround(a: seq<Payment>, p: Payment, b: seq<Payment>)
    ensures Total((a + [p]) + b) == Total(a + b) + p.amount
  {
    TotalAppend(a + [p], b);
    TotalPush(a, p);
    TotalAppend(a, b);
  }

  lemma {:induction false} TotalAppend(a: seq<Payment>, b: seq<Payment>)
    ensures Total(a + b) == Total(a) + Total(b)
  {
    if |b| == 0 {
      assert a + b == a;
    } else {
      assert (a + b)[..|a + b| - 1] == a + b[..|b| - 1];
      TotalAppend(a, b[..|b| - 1]);
    }
  }

  // ---- the laws -----------------------------------------------------------------------

  // Two streams with the same transfers, whatever their order and repetitions, at
  // whatever times, leave the same ledger up to order, the same total and paid flag.
  lemma {:induction false} ReplayInvariance(
    site: Site, gate: Gate, r: SessionData, es: seq<Event>, fs: seq<Event>, amount: map<Key, real>)
    requires Sound(r.payments, amount)
    requires EventsPricedBy(es, amount) && EventsPricedBy(fs, amount)
    requires EventKeys(es) == EventKeys(fs)
    ensures
      var s, t := Replay(site, gate, r, es), Replay(site, gate, r, fs);
      && multiset(s.payments) == multiset(t.payments)
      && Total(s.payments) == Total(t.payments)
      && s.paid == t.paid
  {
    ReplayLedger(site, gate, r, es, amount);
    ReplayLedger(site, gate, r, fs, amount);
    var s, t := Replay(site, gate, r, es), Replay(site, gate, r, fs);
    SameKeysSameMultiset(s.payments, t.payments, amount);
    TotalOfPermutation(s.payments, t.payments);
  }

  // Replaying transfers that are all in the ledger leaves the record untouched.
  lemma {:induction false} ReplayIdempotent(
    site: Site, gate: Gate, r: SessionData, es: seq<Event>,
    fs: seq<Event>, amount: map<Key, real>)
    requires Sound(r.payments, amount)
    requires EventsPricedBy(es, amount) && EventsPricedBy(fs, amount)
    requires EventKeys(fs) <= Keys(r.payments) + EventKeys(es)
    ensures Replay(site, gate, Replay(site, gate, r, es), fs) == Replay(site, gate, r, es)
  {
    ReplayLedger(site, gate, r, es, amount);
    ReplayLedger(site, gate, Replay(site, gate, r, es), fs, amount);
  }

  // An older copy that overwrote a newer one gets the whole ledger back from a
  // rescan that covers what was lost.
  lemma {:induction false} RescanRestores(
    site: Site, gate: Gate, stale: SessionData, lost: SessionData, es: seq<Event>, amount: map<Key, real>)
    requires Sound(stale.payments, amount)
    requires Sound(lost.payments, amount)
    requires EventsPricedBy(es, amount)
    requires Keys(stale.payments) <= Keys(lost.payments)
    requires Keys(lost.payments) - Keys(stale.payments) <= EventKeys(es) <= Keys(lost.payments)
    ensures
      var s := Replay(site, gate, stale, es);
      && multiset(s.payments) == multiset(lost.payments)
      && Total(s.payments) == Total(lost.payments)
      && (Keys(stale.payments) != Keys(lost.payments) ==> (s.paid <==> Total(lost.payments) >= stale.price))
    // Where both copies have the same price and the lost one's flag was in order, it is back.
    ensures
      Keys(stale.payments) != Keys(lost.payments) && lost.price == stale.price
      && (lost.paid <==> Total(lost.payments) >= lost.price) ==>
        Replay(site, gate, stale, es).paid == lost.paid
  {
    ReplayLedger(site, gate, stale, es, amount);
    var s := Replay(site, gate, stale, es);
    SameKeysSameMultiset(s.payments, lost.payments, amount);
    TotalOfPermutation(s.payments, lost.payments);
  }
}
