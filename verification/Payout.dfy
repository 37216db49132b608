/**
  The payout pipeline of the server: the Stripe manager turns succeeded payments into
  pay messages and keeps the message as the key of the outstanding work, the main loop
  routes, the wallet transfers and answers, the manager confirms.  Each process is
  modelled in place; the run of all of them is a transition system over their queues.
 */
module Payout {
  import opened Basics
  import opened Messages

  type Id = string

  datatype Metadata = Metadata(paid: bool, wallet: Option<string>, paymentid: Option<string>, amount1: Option<real>)

  // A Stripe payment intent; `cents` is what the customer paid.
  datatype Intent = Intent(succeeded: bool, metadata: Option<Metadata>, cents: int)

  datatype Entry = Entry(id: Id, metadata: Metadata)

  type Outstanding = map<Msg, Entry>

  // ---- the Stripe manager -----------------------------------------------------------

  predicate Payable(p: Intent)
  {
    && p.succeeded && p.metadata.Some? && !p.metadata.value.paid
    && p.metadata.value.wallet.Some? && p.metadata.value.paymentid.Some? && p.metadata.value.amount1.Some?
  }

  predicate Addressed(p: Intent)
  {
    && p.metadata.Some?
    && p.metadata.value.wallet.Some? && p.metadata.value.paymentid.Some? && p.metadata.value.amount1.Some?
  }

  function PayMsg(p: Intent): Msg
    requires Addressed(p)
  {
    var md := p.metadata.value;
    PayFor(md.wallet.value, md.paymentid.value, md.amount1.value, p.cents)
  }

  function PayFor(wallet: string, paymentid: string, amount1: real, cents: int): Msg
  {
    Pay([PayItem(wallet, (cents as real / 100.0) * amount1)], paymentid)
  }

  datatype Desk = Desk(messages: Outstanding, outbox: seq<Msg>)

  function Checked(intents: map<Id, Intent>, d: Desk, id: Id): Desk
  {
    if id in intents && Payable(intents[id]) && PayMsg(intents[id]) !in d.messages then
      var m := PayMsg(intents[id]);
      Desk(d.messages[m := Entry(id, intents[id].metadata.value)], d.outbox + [m])
    else d
  }

  function CheckedAll(intents: map<Id, Intent>, d: Desk, ids: seq<Id>): Desk
  {
    if |ids| == 0 then d else Checked(intents, CheckedAll(intents, d, ids[..|ids| - 1]), ids[|ids| - 1])
  }

  // On the fields: a payment that went through, and the message that passes it on.
  predicate PaysFor(p: Intent, m: Msg)
  {
    && p.succeeded && p.metadata.Some?
    && var md := p.metadata.value;
       && md.wallet.Some? && md.paymentid.Some? && md.amount1.Some?
       && m.Pay? && |m.payments| == 1 && Some(m.paymentid) == md.paymentid
       && Some(m.payments[0].wallet) == md.wallet
       && m.payments[0].amount == (p.cents as real / 100.0) * md.amount1.value
  }

  // The same for one that is not marked paid yet.
  predicate Due(p: Intent, m: Msg)
  {
    PaysFor(p, m) && !p.metadata.value.paid
  }

  // What a poll of a list has done: whatever was outstanding still is, what is new was
  // queued and is due for a payment of the list, and for every payment of the list that
  // something is due for, that is outstanding.
  ghost predicate Polled(intents: map<Id, Intent>, before: Desk, after: Desk, ids: seq<Id>)
  {
    && before.outbox <= after.outbox
    && (forall m :: m in before.messages ==> m in after.messages && after.messages[m] == before.messages[m])
    && (forall m :: m in after.messages && m !in before.messages ==> m in after.outbox[|before.outbox|..])
    && (forall m :: m in after.outbox[|before.outbox|..] ==>
          && m !in before.messages && m in after.messages
          && var e := after.messages[m];
             && e.id in ids && e.id in intents && Due(intents[e.id], m)
             && Some(e.metadata) == intents[e.id].metadata)
    && (forall id, m :: id in ids && id in intents && Due(intents[id], m) ==> m in after.messages)
    && (forall i, j :: |before.outbox| <= i < j < |after.outbox| ==> after.outbox[i] != after.outbox[j])
  }

  lemma {:induction false} CheckedIsPolled(intents: map<Id, Intent>, before: Desk, ids: seq<Id>)
    ensures Polled(intents, before, CheckedAll(intents, before, ids), ids)
  {
    if |ids| > 0 {
      var id := ids[|ids| - 1];
      var mid := CheckedAll(intents, before, ids[..|ids| - 1]);
      CheckedIsPolled(intents, before, ids[..|ids| - 1]);
      var after := Checked(intents, mid, id);
      var n := |before.outbox|;
      if id in intents {
        DueIsPayable(intents[id]);
      }
      if after != mid {
        var m := PayMsg(intents[id]);
        assert after.outbox[n..] == mid.outbox[n..] + [m];
        assert forall i :: n <= i < |mid.outbox| ==> mid.outbox[i] in mid.outbox[n..];
      }
      assert ids == ids[..|ids| - 1] + [id];
    }
  }

  lemma {:induction false} PaysForIs(p: Intent)
    ensures p.succeeded && Addressed(p) ==> PaysFor(p, PayMsg(p))
    ensures forall m :: PaysFor(p, m) ==> Addressed(p) && m == PayMsg(p)
  {
    forall m | PaysFor(p, m)
      ensures Addressed(p) && m == PayMsg(p)
    {
      assert m.payments[0] == PayMsg(p).payments[0];
      assert m.payments == [m.payments[0]];
    }
  }

  lemma {:induction false} DueIsPayable(p: Intent)
    ensures Payable(p) ==> Due(p, PayMsg(p))
    ensures forall m :: Due(p, m) ==> Payable(p) && m == PayMsg(p)
  {
    PaysForIs(p);
    hide PayMsg;
  }

  function MarkedPaid(intents: map<Id, Intent>, e: Entry): map<Id, Intent>
  {
    if e.id in intents
    then intents[e.id := intents[e.id].(metadata := Some(e.metadata.(paid := true)))]
    else intents
  }

  class Queue {
    var items: seq<Msg>

    constructor ()
      ensures items == []
    {
      items := [];
    }

    method Put(m: Msg)
      modifies this
      ensures items == old(items) + [m]
    {
      items := items + [m];
    }

    method Get() returns (m: Msg)
      requires items != []
      modifies this
      ensures [m] + items == old(items)
    {
      m := items[0];
      items := items[1..];
    }
  }

  class StripeApi {
    var intents: map<Id, Intent>
    constructor ()
      ensures intents == map[]
    {
      intents := map[];
    }
  }

  class StripeManager {
    const api: StripeApi
    const queue: Queue
    const myqueue: Queue
    var messages: Outstanding
    var stopped: bool

    constructor (api: StripeApi, queue: Queue, myqueue: Queue)
      ensures this.api == api && this.queue == queue && this.myqueue == myqueue
      ensures messages == map[] && !stopped
    {
      this.api, this.queue, this.myqueue := api, queue, myqueue;
      messages, stopped := map[], false;
    }

    // The loop over one listing of payment intents.
    method Poll(plist: seq<Id>)
      modifies this`messages, queue
      ensures Desk(messages, queue.items) == CheckedAll(api.intents, Desk(old(messages), old(queue.items)), plist)
      ensures Polled(api.intents, Desk(old(messages), old(queue.items)), Desk(messages, queue.items), plist)
    {
      for i := 0 to |plist|
        invariant Desk(messages, queue.items) ==
                  CheckedAll(api.intents, Desk(old(messages), old(queue.items)), plist[..i])
      {
        assert plist[..i + 1][..i] == plist[..i];
        var id := plist[i];
        if id in api.intents && Payable(api.intents[id]) {
          var p := api.intents[id];
          var m := PayMsg(p);
          if m !in messages {
            messages := messages[m := Entry(id, p.metadata.value)];
            queue.Put(m);
          }
        }
      }
      assert plist[..|plist|] == plist;
      CheckedIsPolled(api.intents, Desk(old(messages), old(queue.items)), plist);
    }

    // One look at the own queue; `updates` says whether Stripe takes the paid mark.
    method Confirm(updates: bool)
      requires myqueue.items != []
      modifies this, api, myqueue
      ensures
        var s := Confirmed(Till(old(api.intents), old(messages), old(myqueue.items), old(stopped)), updates);
        Till(api.intents, messages, myqueue.items, stopped) == s
    {
      var msg := myqueue.Get();
      if msg.Paid? {
        if msg.orig in messages {
          if updates {
            SetAsPaid(messages[msg.orig]);
          }
          messages := messages - {msg.orig};
        }
      } else if msg == Exit {
        stopped := true;
      }
    }

    method SetAsPaid(e: Entry)
      modifies api
      ensures api.intents == MarkedPaid(old(api.intents), e)
      ensures forall id :: id in api.intents <==> id in old(api.intents)
      ensures forall id :: id in api.intents && id != e.id ==> api.intents[id] == old(api.intents)[id]
      ensures e.id in api.intents ==>
                && !Payable(api.intents[e.id])
                && api.intents[e.id].succeeded == old(api.intents)[e.id].succeeded
                && api.intents[e.id].cents == old(api.intents)[e.id].cents
                && api.intents[e.id].metadata == Some(e.metadata.(paid := true))
    {
      if e.id in api.intents {
        api.intents := api.intents[e.id := api.intents[e.id].(metadata := Some(e.metadata.(paid := true)))];
      }
    }
  }

  datatype Till = Till(intents: map<Id, Intent>, messages: Outstanding, inbox: seq<Msg>, stopped: bool)

  function Confirmed(t: Till, updates: bool): Till
    requires t.inbox != []
  {
    var msg, rest := t.inbox[0], t.inbox[1..];
    if msg.Paid? && msg.orig in t.messages then
      Till(if updates then MarkedPaid(t.intents, t.messages[msg.orig]) else t.intents,
           t.messages - {msg.orig}, rest, t.stopped)
    else Till(t.intents, t.messages, rest, t.stopped || msg == Exit)
  }

  // ---- the router ---------------------------------------------------------------------

  datatype Queues = Queues(general: seq<Msg>, wallet: seq<Msg>, stripe: seq<Msg>, manager: seq<Msg>, halted: bool)

  // Which optional processes the server was started with.
  datatype Services = Services(wallet: bool, stripe: bool)

  function Routed(on: Services, q: Queues): Queues
    requires q.general != []
  {
    var msg := q.general[0];
    var r := q.(general := q.general[1..]);
    match RouteFor(msg)
    // The loop would stop here for the exit message, but that one is addressed to all.
    case ToMain => r
    case ToAll =>
      r.(wallet := if on.wallet then r.wallet + [msg] else r.wallet,
         manager := r.manager + [msg],
         stripe := if on.stripe then r.stripe + [msg] else r.stripe)
    case ToWallet => r.(wallet := if on.wallet then r.wallet + [msg] else r.wallet)
    case Unknown => r.(halted := true)
  }

  class Router {
    const on: Services
    const general: Queue
    const wallet: Queue
    const stripe: Queue
    const manager: Queue
    var halted: bool

    constructor (on: Services, general: Queue, wallet: Queue, stripe: Queue, manager: Queue)
      ensures this.on == on && this.general == general && this.wallet == wallet
      ensures this.stripe == stripe && this.manager == manager && !halted
    {
      this.on, this.general, this.wallet, this.stripe, this.manager := on, general, wallet, stripe, manager;
      halted := false;
    }

    ghost predicate Separate()
    {
      && general != wallet && general != stripe && general != manager
      && wallet != stripe && wallet != manager && stripe != manager
    }

    ghost function View(): Queues
      reads this, general, wallet, stripe, manager
    {
      Queues(general.items, wallet.items, stripe.items, manager.items, halted)
    }

    method Route()
      requires Separate() && general.items != []
      modifies this, general, wallet, stripe, manager
      ensures View() == Routed(on, old(View()))
    {
      var msg := general.Get();
      match RouteFor(msg) {
        case ToMain =>
        case ToAll =>
          if on.wallet {
            wallet.Put(msg);
          }
          manager.Put(msg);
          if on.stripe {
            stripe.Put(msg);
          }
        case ToWallet =>
          if on.wallet {
            wallet.Put(msg);
          }
        case Unknown =>
          halted := true;
      }
    }
  }

  // ---- the wallet ---------------------------------------------------------------------

  // What the wallet answers to transfer_split.
  datatype Rpc = Result | Error | HttpError | ConnectionError | ReadTimeout

  // And to the balance requests of one try: not reached, refused with another status or
  // without a result, or the two balances.
  datatype Balance = Unreachable | Refused | Balances(total: real, unlocked: real)

  // How a transfer ends: it reports, it is still waiting for funds to unlock, or the
  // refused balance request raises.
  datatype Verdict = Reports(sent: bool) | Waits | Raises

  function AmountOf(payments: seq<PayItem>): real
  {
    if |payments| == 0 then 0.0 else AmountOf(payments[..|payments| - 1]) + payments[|payments| - 1].amount
  }

  // `transfer` reports success for a reply that timed out: only the other failures raise.
  predicate ReportsSent(reply: Rpc)
  {
    reply.Result? || reply.ReadTimeout?
  }

  // The verdict after the given balance readings: the first that is not locked funds
  // decides, and locked funds wait for the next reading.
  function TransferEnds(payments: seq<PayItem>, readings: seq<Balance>, reply: Rpc): Verdict
  {
    if |readings| == 0 then Waits
    else
      match readings[0]
      case Unreachable => Reports(false)
      case Refused => Raises
      case Balances(total, unlocked) =>
        if total < AmountOf(payments) then Reports(false)
        else if unlocked < AmountOf(payments) then TransferEnds(payments, readings[1..], reply)
        else Reports(ReportsSent(reply))
  }

  method Transfer(payments: seq<PayItem>, readings: seq<Balance>, reply: Rpc) returns (v: Verdict)
    ensures v == TransferEnds(payments, readings, reply)
    ensures v == Reports(true) ==> ReportsSent(reply)
    ensures v == Reports(true) ==> (exists i ::
              0 <= i < |readings| && readings[i].Balances?
              && readings[i].total >= AmountOf(payments) && readings[i].unlocked >= AmountOf(payments))
    ensures v == Raises ==> Refused in readings
    decreases |readings|
  {
    var amount := 0.0;
    for i := 0 to |payments|
      invariant amount == AmountOf(payments[..i])
    {
      assert payments[..i + 1][..i] == payments[..i];
      amount := amount + payments[i].amount;
    }
    assert payments[..|payments|] == payments;
    if |readings| == 0 {
      return Waits;
    }
    match readings[0] {
      case Unreachable =>
        v := Reports(false);
      case Refused =>
        v := Raises;
      case Balances(total, unlocked) =>
        if total < amount {
          v := Reports(false);
        } else if unlocked < amount {
          v := Transfer(payments, readings[1..], reply);
          if v == Reports(true) {
            var i :| 0 <= i < |readings[1..]| && readings[1..][i].Balances?
                     && readings[1..][i].total >= amount && readings[1..][i].unlocked >= amount;
            assert readings[i + 1] == readings[1..][i];
          }
        } else {
          v := Reports(reply.Result? || reply.ReadTimeout?);
        }
    }
  }

  // A transfer reports success exactly when, after readings that all show enough coins but
  // some of them locked, one shows enough unlocked coins, and the wallet then answers with
  // a result or not in time.
  lemma {:induction false} ReportsTrueIff(payments: seq<PayItem>, readings: seq<Balance>, reply: Rpc)
    ensures TransferEnds(payments, readings, reply) == Reports(true) <==>
              && (reply == Result || reply == ReadTimeout)
              && exists i :: 0 <= i < |readings| && Settles(payments, readings, i)
  {
    if |readings| > 0 {
      var rest := readings[1..];
      ReportsTrueIff(payments, rest, reply);
      if i :| 0 <= i < |rest| && Settles(payments, rest, i) {
        assert forall j :: 1 <= j <= i + 1 ==> readings[j] == rest[j - 1];
        assert Enough(payments, readings[0]) && !Unlocked(payments, readings[0]) ==> Settles(payments, readings, i + 1);
      }
      if i :| 0 <= i < |readings| && Settles(payments, readings, i) {
        if i > 0 {
          assert Enough(payments, readings[0]) && !Unlocked(payments, readings[0]);
          assert forall j :: 0 <= j < i ==> rest[j] == readings[j + 1];
          assert Settles(payments, rest, i - 1);
        }
      }
      assert Unlocked(payments, readings[0]) ==> Settles(payments, readings, 0);
    }
  }

  predicate Enough(payments: seq<PayItem>, b: Balance)
  {
    b.Balances? && b.total >= AmountOf(payments)
  }

  predicate Unlocked(payments: seq<PayItem>, b: Balance)
  {
    Enough(payments, b) && b.unlocked >= AmountOf(payments)
  }

  predicate Settles(payments: seq<PayItem>, readings: seq<Balance>, i: nat)
    requires i < |readings|
  {
    && Unlocked(payments, readings[i])
    && forall j :: 0 <= j < i ==> Enough(payments, readings[j]) && !Unlocked(payments, readings[j])
  }

  datatype Purse = Purse(inbox: seq<Msg>, outbox: seq<Msg>, sent: seq<Msg>, closed: bool)

  // One look at the wallet's queue; `sends` is what transfer reports.  The exit message
  // ends the loop.
  function Served(p: Purse, sends: bool): Purse
    requires p.inbox != []
  {
    var msg, rest := p.inbox[0], p.inbox[1..];
    if msg.Pay? then
      if sends then Purse(rest, p.outbox + [Paid(msg)], p.sent + [msg], p.closed)
      else Purse(rest, p.outbox + [UnPaid(msg)], p.sent, p.closed)
    else p.(inbox := rest, closed := p.closed || msg == Exit)
  }

  class WalletService {
    const queue: Queue
    const myqueue: Queue
    // The pay messages whose transfer was reported as done.
    var sent: seq<Msg>
    var closed: bool

    constructor (queue: Queue, myqueue: Queue)
      ensures this.queue == queue && this.myqueue == myqueue && sent == [] && !closed
    {
      this.queue, this.myqueue, sent, closed := queue, myqueue, [], false;
    }

    method Serve(sends: bool)
      requires queue != myqueue && myqueue.items != [] && !closed
      modifies this, queue, myqueue
      ensures Purse(myqueue.items, queue.items, sent, closed) ==
              Served(Purse(old(myqueue.items), old(queue.items), old(sent), false), sends)
    {
      var msg := myqueue.Get();
      if msg.Pay? {
        if sends {
          sent := sent + [msg];
          queue.Put(Paid(msg));
        } else {
          queue.Put(UnPaid(msg));
        }
      } else if msg == Exit {
        closed := true;
      }
    }
  }
}
