/**
  Every interleaving of the payout pipeline: polls, routing, transfers and
  confirmations, with Stripe payments arriving and succeeding meanwhile.
 */
module PayoutRun {
  import opened Basics
  import opened Messages
  import opened Payout

  // A transfer the wallet reported as done, under the payment it was made for.
  datatype Sent = Sent(id: Id, msg: Msg)

  datatype State = State(
    intents: map<Id, Intent>,
    messages: Outstanding,
    general: seq<Msg>,
    wallet: seq<Msg>,
    stripe: seq<Msg>,
    manager: seq<Msg>,
    halted: bool,
    stopped: bool,
    closed: bool,
    sent: seq<Sent>,
    unmarked: seq<Id>)

  datatype Step =
    | Arrive(id: Id, p: Intent)
    | Succeed(id: Id)
    | Post(m: Msg)
    | Check(id: Id)
    | RouteOne
    | Serve(sends: bool)
    | Confirm(updates: bool)

  function QueuesOf(s: State): Queues
  {
    Queues(s.general, s.wallet, s.stripe, s.manager, s.halted)
  }

  function WithQueues(s: State, q: Queues): State
  {
    s.(general := q.general, wallet := q.wallet, stripe := q.stripe, manager := q.manager, halted := q.halted)
  }

  function ServeNext(s: State, sends: bool): State
  {
    if s.wallet == [] || s.closed then s
    else
      var msg := s.wallet[0];
      var p := Served(Purse(s.wallet, s.general, [], s.closed), sends);
      s.(wallet := p.inbox, general := p.outbox, closed := p.closed,
         sent := if msg.Pay? && sends && msg in s.messages then s.sent + [Sent(s.messages[msg].id, msg)] else s.sent)
  }

  function ConfirmNext(s: State, updates: bool): State
  {
    if s.stripe == [] || s.stopped then s
    else
      var msg := s.stripe[0];
      var t := Confirmed(Till(s.intents, s.messages, s.stripe, s.stopped), updates);
      s.(intents := t.intents, messages := t.messages, stripe := t.inbox, stopped := t.stopped,
         unmarked := if msg.Paid? && msg.orig in s.messages && !updates
                     then s.unmarked + [s.messages[msg.orig].id] else s.unmarked)
  }

  function Next(on: Services, s: State, step: Step): State
  {
    match step
    // A payment intent is created with what its link says; nobody else marks it paid.
    case Arrive(id, p) =>
      if id in s.intents || (p.metadata.Some? && p.metadata.value.paid) then s
      else s.(intents := s.intents[id := p])
    case Succeed(id) =>
      if id in s.intents then s.(intents := s.intents[id := s.intents[id].(succeeded := true)]) else s
    // Other processes put other messages on the general queue.
    case Post(m) => if m.Pay? || m.Paid? then s else s.(general := s.general + [m])
    case Check(id) =>
      if s.stopped then s
      else
        var d := Checked(s.intents, Desk(s.messages, s.general), id);
        s.(messages := d.messages, general := d.outbox)
    case RouteOne => if s.general == [] || s.halted then s else WithQueues(s, Routed(on, QueuesOf(s)))
    case Serve(sends) => ServeNext(s, sends)
    case Confirm(updates) => ConfirmNext(s, updates)
  }

  function Run(on: Services, s: State, steps: seq<Step>): State
  {
    if |steps| == 0 then s else Next(on, Run(on, s, steps[..|steps| - 1]), steps[|steps| - 1])
  }

  const START := State(map[], map[], [], [], [], [], false, false, false, [], [])

  // ---- tokens -----------------------------------------------------------------------

  // PAID notices on their way back for the pay message `m`.
  ghost function Notices(s: State, m: Msg): nat
  {
    multiset(s.general)[Paid(m)] + multiset(s.stripe)[Paid(m)]
  }

  // Everything in the queues that stands for the outstanding work `m`.
  ghost function Tokens(s: State, m: Msg): nat
  {
    multiset(s.general)[m] + multiset(s.wallet)[m] + Notices(s, m)
  }

  ghost function Times<T>(xs: seq<T>, x: T): nat { multiset(xs)[x] }

  function IdsOf(sent: seq<Sent>): seq<Id>
  {
    seq(|sent|, i requires 0 <= i < |sent| => sent[i].id)
  }

  predicate IsMarked(s: State, id: Id)
  {
    id in s.intents && s.intents[id].metadata.Some? && s.intents[id].metadata.value.paid
  }

  predicate Owns(s: State, id: Id, m: Msg)
  {
    m in s.messages && s.messages[m].id == id
  }

  // The payment `id` has been transferred and its notice is on the way.
  ghost predicate InFlight(s: State, id: Id)
  {
    exists m :: Owns(s, id, m) && Notices(s, m) > 0
  }

  ghost predicate EntryOk(s: State, m: Msg)
  {
    m in s.messages ==>
      var e := s.messages[m];
      && m.Pay? && e.id in s.intents && Addressed(s.intents[e.id]) && s.intents[e.id].succeeded
      && PayMsg(s.intents[e.id]) == m
      && e.metadata == s.intents[e.id].metadata.value && !e.metadata.paid
  }

  ghost predicate TokenOk(s: State, m: Msg)
  {
    m.Pay? ==> Tokens(s, m) <= if m in s.messages then 1 else 0
  }

  ghost function One(b: bool): nat { if b then 1 else 0 }

  // Transfers of a payment: one if it is marked paid, one if its notice is on the way,
  // and one for each notice whose paid mark Stripe did not take.
  ghost predicate BooksOk(s: State, id: Id)
  {
    Times(IdsOf(s.sent), id) == One(IsMarked(s, id)) + One(InFlight(s, id)) + Times(s.unmarked, id)
  }

  ghost predicate SentOk(s: State)
  {
    forall i :: 0 <= i < |s.sent| ==>
      && s.sent[i].id in s.intents && Addressed(s.intents[s.sent[i].id]) && s.intents[s.sent[i].id].succeeded
      && s.sent[i].msg == PayMsg(s.intents[s.sent[i].id])
  }

  ghost predicate Inv(s: State)
  {
    && (forall m :: EntryOk(s, m))
    && (forall m :: TokenOk(s, m))
    && (forall id :: BooksOk(s, id))
    && SentOk(s)
  }

  // ---- preservation, one step at a time -------------------------------------------------

  lemma {:induction false} PopCount(q: seq<Msg>, m: Msg)
    requires q != []
    ensures multiset(q)[m] == multiset(q[1..])[m] + One(q[0] == m)
  {
    assert q == [q[0]] + q[1..];
  }

  lemma {:induction false} PushCount(q: seq<Msg>, x: Msg, m: Msg)
    ensures multiset(q + [x])[m] == multiset(q)[m] + One(x == m)
  {
  }

  // Books that do not change when neither marks, nor logs, nor who owns a notice change.
  lemma {:induction false} SameBooks(s: State, t: State, id: Id)
    requires BooksOk(s, id)
    requires IsMarked(t, id) == IsMarked(s, id)
    requires Times(IdsOf(t.sent), id) == Times(IdsOf(s.sent), id) && Times(t.unmarked, id) == Times(s.unmarked, id)
    requires forall m :: Owns(t, id, m) && Notices(t, m) > 0 <==> Owns(s, id, m) && Notices(s, m) > 0
    ensures BooksOk(t, id)
  {
    if InFlight(s, id) {
      var m :| Owns(s, id, m) && Notices(s, m) > 0;
      assert Owns(t, id, m) && Notices(t, m) > 0;
    }
    if InFlight(t, id) {
      var m :| Owns(t, id, m) && Notices(t, m) > 0;
      assert Owns(s, id, m) && Notices(s, m) > 0;
    }
  }

  predicate SameContent(p: Intent, q: Intent)
  {
    p.metadata == q.metadata && p.cents == q.cents && (p.succeeded ==> q.succeeded)
  }

  lemma {:induction false} IntentStepInv(s: State, t: State)
    requires Inv(s)
    requires t == s.(intents := t.intents)
    requires forall id :: id in s.intents ==> id in t.intents && SameContent(s.intents[id], t.intents[id])
    requires forall id :: id in t.intents && id !in s.intents ==> !IsMarked(t, id)
    ensures Inv(t)
  {
    forall m ensures EntryOk(t, m) && TokenOk(t, m) {
      assert EntryOk(s, m) && TokenOk(s, m);
    }
    forall x ensures BooksOk(t, x) {
      assert BooksOk(s, x);
      SameBooks(s, t, x);
    }
  }

  lemma {:induction false} PostInv(s: State, m: Msg)
    requires Inv(s) && !m.Pay? && !m.Paid?
    ensures Inv(s.(general := s.general + [m]))
  {
    var t := s.(general := s.general + [m]);
    forall n ensures EntryOk(t, n) && TokenOk(t, n) {
      assert EntryOk(s, n) && TokenOk(s, n);
    }
    forall x ensures BooksOk(t, x) {
      assert BooksOk(s, x);
      SameBooks(s, t, x);
    }
  }

  lemma {:induction false} CheckInv(on: Services, s: State, id: Id)
    requires Inv(s)
    ensures Inv(Next(on, s, Check(id)))
  {
    var t := Next(on, s, Check(id));
    if t != s {
      forall n ensures EntryOk(t, n) && TokenOk(t, n) {
        CheckedEntry(on, s, id, n);
      }
      forall x ensures BooksOk(t, x) {
        CheckedBooks(on, s, id, x);
      }
    }
  }

  lemma {:induction false} CheckedEntry(on: Services, s: State, id: Id, n: Msg)
    requires Inv(s)
    ensures EntryOk(Next(on, s, Check(id)), n) && TokenOk(Next(on, s, Check(id)), n)
  {
    assert EntryOk(s, n) && TokenOk(s, n);
    if Next(on, s, Check(id)) != s {
      var m := PayMsg(s.intents[id]);
      PushCount(s.general, m, n);
      PushCount(s.general, m, Paid(n));
    }
  }

  lemma {:induction false} CheckedBooks(on: Services, s: State, id: Id, x: Id)
    requires Inv(s)
    ensures BooksOk(Next(on, s, Check(id)), x)
  {
    var t := Next(on, s, Check(id));
    assert BooksOk(s, x);
    if t != s {
      var m := PayMsg(s.intents[id]);
      assert TokenOk(s, m);
      forall n ensures Notices(t, n) == Notices(s, n) {
        PushCount(s.general, m, Paid(n));
      }
      SameBooks(s, t, x);
    }
  }

  lemma {:induction false} RouteNotices(on: Services, s: State, n: Msg)
    requires on.stripe && s.general != []
    ensures Notices(WithQueues(s, Routed(on, QueuesOf(s))), n) == Notices(s, n)
  {
    var h := s.general[0];
    PopCount(s.general, Paid(n));
    PushCount(s.stripe, h, Paid(n));
  }

  lemma {:induction false} RoutePays(on: Services, s: State, n: Msg)
    requires s.general != [] && n.Pay?
    ensures
      var t := WithQueues(s, Routed(on, QueuesOf(s)));
      multiset(t.general)[n] + multiset(t.wallet)[n] <= multiset(s.general)[n] + multiset(s.wallet)[n]
  {
    var h := s.general[0];
    PopCount(s.general, n);
    PushCount(s.wallet, h, n);
  }

  lemma {:induction false} RouteCounts(on: Services, s: State, n: Msg)
    requires on.stripe && s.general != [] && n.Pay?
    ensures
      var t := WithQueues(s, Routed(on, QueuesOf(s)));
      Notices(t, n) == Notices(s, n) && Tokens(t, n) <= Tokens(s, n)
  {
    RouteNotices(on, s, n);
    RoutePays(on, s, n);
    hide Routed, Notices;
  }

  lemma {:induction false} RouteInv(on: Services, s: State)
    requires on.stripe && s.general != [] && Inv(s)
    ensures Inv(WithQueues(s, Routed(on, QueuesOf(s))))
  {
    var t := WithQueues(s, Routed(on, QueuesOf(s)));
    forall n ensures EntryOk(t, n) && TokenOk(t, n) {
      assert EntryOk(s, n) && TokenOk(s, n);
      if n.Pay? {
        RouteCounts(on, s, n);
      }
    }
    forall x ensures BooksOk(t, x) {
      assert BooksOk(s, x);
      forall n ensures Owns(t, x, n) && Notices(t, n) > 0 <==> Owns(s, x, n) && Notices(s, n) > 0 {
        assert EntryOk(s, n);
        if n.Pay? {
          RouteCounts(on, s, n);
        }
      }
      SameBooks(s, t, x);
    }
  }

  lemma {:induction false} IdsPush(sent: seq<Sent>, x: Sent, id: Id)
    ensures Times(IdsOf(sent + [x]), id) == Times(IdsOf(sent), id) + One(x.id == id)
  {
    assert IdsOf(sent + [x]) == IdsOf(sent) + [x.id];
  }

  // The wallet takes a pay message off its queue: the one token for it turns into a
  // PAID notice, or vanishes.
  lemma {:induction false} ServePayCounts(s: State, m: Msg, answer: Msg, n: Msg)
    requires m.Pay? && s.wallet != [] && !s.closed && s.wallet[0] == m && n.Pay?
    requires answer == Paid(m) || answer == UnPaid(m)
    ensures
      var t := s.(wallet := s.wallet[1..], general := s.general + [answer]);
      && Notices(t, n) == Notices(s, n) + One(answer == Paid(n))
      && Tokens(t, n) == Tokens(s, n) + One(answer == Paid(n)) - One(m == n)
  {
    PopCount(s.wallet, n);
    PushCount(s.general, answer, n);
    PushCount(s.general, answer, Paid(n));
  }

  lemma {:induction false} ServeInv(s: State, sends: bool)
    requires Inv(s)
    ensures Inv(ServeNext(s, sends))
  {
    if s.wallet != [] && !s.closed {
      var m := s.wallet[0];
      if m.Pay? {
        ServePayInv(s, m, sends);
      } else {
        var t := ServeNext(s, sends);
        forall n ensures EntryOk(t, n) && TokenOk(t, n) {
          assert EntryOk(s, n) && TokenOk(s, n);
          PopCount(s.wallet, n);
        }
        forall x ensures BooksOk(t, x) {
          assert BooksOk(s, x);
          SameBooks(s, t, x);
        }
      }
    }
  }

  lemma {:induction false} ServePayInv(s: State, m: Msg, sends: bool)
    requires Inv(s) && m.Pay? && s.wallet != [] && !s.closed && s.wallet[0] == m
    ensures Inv(ServeNext(s, sends))
  {
    var t := ServeNext(s, sends);
    var answer := if sends then Paid(m) else UnPaid(m);
    assert EntryOk(s, m) && TokenOk(s, m);
    PopCount(s.wallet, m);
    assert m in s.messages && Notices(s, m) == 0;
    var id := s.messages[m].id;
    forall n ensures EntryOk(t, n) && TokenOk(t, n) {
      assert EntryOk(s, n) && TokenOk(s, n);
      if n.Pay? {
        ServePayCounts(s, m, answer, n);
      }
    }
    forall x ensures BooksOk(t, x) {
      ServePayBooks(s, m, sends, x);
    }
  }

  lemma {:induction false} ServePayBooks(s: State, m: Msg, sends: bool, x: Id)
    requires Inv(s) && m.Pay? && s.wallet != [] && !s.closed && s.wallet[0] == m
    requires m in s.messages && Notices(s, m) == 0
    ensures BooksOk(ServeNext(s, sends), x)
  {
    var t := ServeNext(s, sends);
    var answer := if sends then Paid(m) else UnPaid(m);
    var id := s.messages[m].id;
    assert BooksOk(s, x) && EntryOk(s, m);
    forall n | Owns(s, x, n) ensures Notices(t, n) == Notices(s, n) + One(answer == Paid(n)) {
      assert EntryOk(s, n);
      ServePayCounts(s, m, answer, n);
    }
    if sends && x == id {
      assert Owns(t, x, m) && Notices(t, m) > 0;
      forall n | Owns(s, x, n) ensures n == m {
        assert EntryOk(s, n);
      }
      assert !InFlight(s, x);
      IdsPush(s.sent, Sent(id, m), x);
    } else {
      if sends {
        IdsPush(s.sent, Sent(id, m), x);
      }
      SameBooks(s, t, x);
    }
  }

  // A notice for nothing outstanding, or another message, is dropped.
  ghost predicate Drops(s: State)
  {
    s.stripe != [] && !s.stopped && !(s.stripe[0].Paid? && s.stripe[0].orig in s.messages)
  }

  lemma {:induction false} ConfirmInv(s: State, updates: bool)
    requires Inv(s)
    ensures Inv(ConfirmNext(s, updates))
  {
    if Drops(s) {
      var t := ConfirmNext(s, updates);
      forall n ensures EntryOk(t, n) && TokenOk(t, n) {
        DroppedEntry(s, updates, n);
      }
      forall x ensures BooksOk(t, x) {
        DroppedBooks(s, updates, x);
      }
    } else if s.stripe != [] && !s.stopped {
      ConfirmPaidInv(s, s.stripe[0].orig, updates);
    }
  }

  lemma {:induction false} DroppedEntry(s: State, updates: bool, n: Msg)
    requires Inv(s) && Drops(s)
    ensures EntryOk(ConfirmNext(s, updates), n) && TokenOk(ConfirmNext(s, updates), n)
  {
    assert EntryOk(s, n) && TokenOk(s, n);
    PopCount(s.stripe, Paid(n));
  }

  lemma {:induction false} DroppedBooks(s: State, updates: bool, x: Id)
    requires Inv(s) && Drops(s)
    ensures BooksOk(ConfirmNext(s, updates), x)
  {
    var t := ConfirmNext(s, updates);
    assert BooksOk(s, x);
    forall n | Owns(s, x, n) ensures Notices(t, n) == Notices(s, n) {
      PopCount(s.stripe, Paid(n));
    }
    SameBooks(s, t, x);
  }

  lemma {:induction false} ConfirmPaidInv(s: State, m: Msg, updates: bool)
    requires Inv(s) && s.stripe != [] && !s.stopped && s.stripe[0] == Paid(m) && m in s.messages
    ensures Inv(ConfirmNext(s, updates))
  {
    var t := ConfirmNext(s, updates);
    assert EntryOk(s, m) && TokenOk(s, m);
    PopCount(s.stripe, Paid(m));
    forall n ensures EntryOk(t, n) && TokenOk(t, n) {
      assert EntryOk(s, n) && TokenOk(s, n);
      PopCount(s.stripe, Paid(n));
    }
    forall x ensures BooksOk(t, x) {
      ConfirmPaidBooks(s, m, updates, x);
    }
  }

  lemma {:induction false} ConfirmPaidBooks(s: State, m: Msg, updates: bool, x: Id)
    requires Inv(s) && s.stripe != [] && !s.stopped && s.stripe[0] == Paid(m) && m in s.messages
    ensures BooksOk(ConfirmNext(s, updates), x)
  {
    var t := ConfirmNext(s, updates);
    var id := s.messages[m].id;
    assert BooksOk(s, x) && EntryOk(s, m) && TokenOk(s, m);
    PopCount(s.stripe, Paid(m));
    forall n | n != m ensures Notices(t, n) == Notices(s, n) {
      PopCount(s.stripe, Paid(n));
    }
    if x == id {
      forall n | Owns(s, x, n) ensures n == m {
        assert EntryOk(s, n);
      }
      assert Owns(s, x, m) && Notices(s, m) > 0;
      forall n ensures !Owns(t, x, n) {
        assert Owns(t, x, n) ==> Owns(s, x, n) && n != m;
      }
    } else {
      SameBooks(s, t, x);
    }
  }

  lemma {:induction false} NextInv(on: Services, s: State, step: Step)
    requires on.stripe && Inv(s)
    ensures Inv(Next(on, s, step))
  {
    match step {
      case Arrive(_, _) => IntentStepInv(s, Next(on, s, step));
      case Succeed(_) => IntentStepInv(s, Next(on, s, step));
      case Post(m) =>
        if !m.Pay? && !m.Paid? {
          PostInv(s, m);
        }
      case Check(id) => CheckInv(on, s, id);
      case RouteOne =>
        if s.general != [] && !s.halted {
          RouteInv(on, s);
        }
      case Serve(sends) => ServeInv(s, sends);
      case Confirm(updates) => ConfirmInv(s, updates);
    }
  }

  lemma {:induction false} RunInv(on: Services, steps: seq<Step>)
    requires on.stripe
    ensures Inv(Run(on, START, steps))
  {
    if |steps| == 0 {
      forall id ensures BooksOk(START, id) {
        assert !InFlight(START, id);
        assert IdsOf([]) == [];
      }
    } else {
      RunInv(on, steps[..|steps| - 1]);
      NextInv(on, Run(on, START, steps[..|steps| - 1]), steps[|steps| - 1]);
    }
  }

  // ---- safety ---------------------------------------------------------------------------

  predicate MarksTaken(steps: seq<Step>)
  {
    forall i :: 0 <= i < |steps| ==> steps[i] != Confirm(false)
  }

  lemma {:induction false} NothingUnmarked(on: Services, steps: seq<Step>)
    requires MarksTaken(steps)
    ensures Run(on, START, steps).unmarked == []
  {
    if |steps| > 0 {
      NothingUnmarked(on, steps[..|steps| - 1]);
    }
  }

  lemma {:induction false} MarkedIsNotInFlight(s: State, id: Id)
    requires Inv(s)
    ensures !(IsMarked(s, id) && InFlight(s, id))
  {
    if InFlight(s, id) {
      var m :| Owns(s, id, m) && Notices(s, m) > 0;
      assert EntryOk(s, m);
    }
  }

  // Over every interleaving the transfers of a payment are counted exactly: it is marked
  // paid, or its notice is on the way, or Stripe did not take the mark.
  lemma {:induction false} TransfersAccounted(on: Services, steps: seq<Step>, id: Id)
    requires on.stripe
    ensures
      var s := Run(on, START, steps);
      && Times(IdsOf(s.sent), id) == One(IsMarked(s, id)) + One(InFlight(s, id)) + Times(s.unmarked, id)
      && Times(IdsOf(s.sent), id) <= 1 + Times(s.unmarked, id)
  {
    RunInv(on, steps);
    var s := Run(on, START, steps);
    assert BooksOk(s, id);
    MarkedIsNotInFlight(s, id);
  }

  // If every mark is taken, each payment is transferred at most once, and exactly the
  // marked ones and those with a notice on the way are.
  lemma {:induction false} AtMostOneTransfer(on: Services, steps: seq<Step>, id: Id)
    requires on.stripe && MarksTaken(steps)
    ensures
      var s := Run(on, START, steps);
      && Times(IdsOf(s.sent), id) <= 1
      && (Times(IdsOf(s.sent), id) == 1 <==> IsMarked(s, id) || InFlight(s, id))
  {
    TransfersAccounted(on, steps, id);
    NothingUnmarked(on, steps);
  }

  // Every transfer is for a card payment that went through, to the wallet its metadata name,
  // of its amount times the rate they carry, under their payment id.
  lemma {:induction false} TransfersAreOwed(on: Services, steps: seq<Step>, i: nat)
    requires on.stripe && i < |Run(on, START, steps).sent|
    ensures
      var s := Run(on, START, steps);
      s.sent[i].id in s.intents && PaysFor(s.intents[s.sent[i].id], s.sent[i].msg)
  {
    RunInv(on, steps);
    PaysForIs(Run(on, START, steps).intents[Run(on, START, steps).sent[i].id]);
  }

  // At most one piece of work per message is under way, and only for an outstanding one.
  lemma {:induction false} OneTokenPerMessage(on: Services, steps: seq<Step>, m: Msg)
    requires on.stripe && m.Pay?
    ensures
      var s := Run(on, START, steps);
      Tokens(s, m) <= 1 && (Tokens(s, m) == 1 ==> m in s.messages)
  {
    RunInv(on, steps);
    assert TokenOk(Run(on, START, steps), m);
  }

  // ---- a refused transfer is never retried ----------------------------------------------

  ghost predicate Stuck(s: State, m: Msg)
  {
    m.Pay? && m in s.messages && Tokens(s, m) == 0
  }

  ghost function TransfersOf(s: State, m: Msg): nat
  {
    multiset(MsgsOf(s.sent))[m]
  }

  function MsgsOf(sent: seq<Sent>): seq<Msg>
  {
    seq(|sent|, i requires 0 <= i < |sent| => sent[i].msg)
  }

  lemma {:induction false} MsgsPush(sent: seq<Sent>, x: Sent, m: Msg)
    ensures multiset(MsgsOf(sent + [x]))[m] == multiset(MsgsOf(sent))[m] + One(x.msg == m)
  {
    assert MsgsOf(sent + [x]) == MsgsOf(sent) + [x.msg];
  }

  lemma {:induction false} RouteStuck(on: Services, s: State, m: Msg)
    requires Stuck(s, m) && s.general != []
    ensures Stuck(WithQueues(s, Routed(on, QueuesOf(s))), m)
  {
    var h := s.general[0];
    PopCount(s.general, m);
    PopCount(s.general, Paid(m));
    PushCount(s.wallet, h, m);
    PushCount(s.stripe, h, Paid(m));
  }

  lemma {:induction false} ServeStuck(s: State, sends: bool, m: Msg)
    requires Stuck(s, m) && s.wallet != []
    ensures Stuck(ServeNext(s, sends), m) && TransfersOf(ServeNext(s, sends), m) == TransfersOf(s, m)
  {
    var h := s.wallet[0];
    PopCount(s.wallet, m);
    var answer := if sends then Paid(h) else UnPaid(h);
    PushCount(s.general, answer, m);
    PushCount(s.general, answer, Paid(m));
    if h in s.messages {
      MsgsPush(s.sent, Sent(s.messages[h].id, h), m);
    }
  }

  lemma {:induction false} ConfirmStuck(s: State, updates: bool, m: Msg)
    requires Stuck(s, m)
    ensures Stuck(ConfirmNext(s, updates), m)
  {
    if s.stripe != [] {
      PopCount(s.stripe, Paid(m));
    }
  }

  lemma {:induction false} GeneralStuck(s: State, t: State, x: Msg, m: Msg)
    requires Stuck(s, m) && x != m && x != Paid(m)
    requires t.general == s.general + [x] && t.wallet == s.wallet && t.stripe == s.stripe && m in t.messages
    ensures Stuck(t, m)
  {
    PushCount(s.general, x, m);
    PushCount(s.general, x, Paid(m));
  }

  lemma {:induction false} NextStuck(on: Services, s: State, step: Step, m: Msg)
    requires Stuck(s, m)
    ensures Stuck(Next(on, s, step), m) && TransfersOf(Next(on, s, step), m) == TransfersOf(s, m)
  {
    var t := Next(on, s, step);
    match step {
      case Post(n) =>
        if t != s {
          GeneralStuck(s, t, n, m);
        }
      case Check(id) =>
        if t != s {
          GeneralStuck(s, t, PayMsg(s.intents[id]), m);
        }
      case RouteOne =>
        if t != s {
          RouteStuck(on, s, m);
        }
      case Serve(sends) =>
        if t != s {
          ServeStuck(s, sends, m);
        }
      case Confirm(updates) => ConfirmStuck(s, updates, m);
      case _ =>
    }
  }

  lemma {:induction false} StuckForGood(on: Services, s: State, steps: seq<Step>, m: Msg)
    requires Stuck(s, m)
    ensures Stuck(Run(on, s, steps), m) && TransfersOf(Run(on, s, steps), m) == TransfersOf(s, m)
  {
    if |steps| > 0 {
      StuckForGood(on, s, steps[..|steps| - 1], m);
      NextStuck(on, Run(on, s, steps[..|steps| - 1]), steps[|steps| - 1], m);
    }
  }

  // The UNPAID notice is not read by the manager: after one refused transfer nothing
  // with that message is ever transferred again in the lifetime of the processes, be it
  // for this payment or for another one of equal content.
  lemma {:induction false} RefusedIsNeverRetried(on: Services, before: seq<Step>, after: seq<Step>)
    requires on.stripe
    requires var s := Run(on, START, before); s.wallet != [] && !s.closed && s.wallet[0].Pay?
    ensures
      var s := Run(on, START, before);
      var m := s.wallet[0];
      var t := Run(on, Next(on, s, Serve(false)), after);
      m in t.messages && TransfersOf(t, m) == TransfersOf(s, m)
  {
    RunInv(on, before);
    var s := Run(on, START, before);
    var m := s.wallet[0];
    assert TokenOk(s, m);
    PopCount(s.wallet, m);
    ServePayCounts(s, m, UnPaid(m), m);
    StuckForGood(on, Next(on, s, Serve(false)), after, m);
  }

  // ---- progress ---------------------------------------------------------------------------

  predicate Quiet(s: State)
  {
    s.general == [] && s.wallet == [] && s.stripe == [] && !s.halted && !s.stopped && !s.closed
  }

  predicate Ready(s: State, id: Id)
  {
    id in s.intents && Payable(s.intents[id]) && PayMsg(s.intents[id]) !in s.messages
  }

  // One payment through the pipeline: polled, routed, transferred, its notice routed,
  // the wallet's own copy of it dropped, and the notice read by the manager.
  function Round(id: Id, updates: bool): seq<Step>
  {
    [Check(id), RouteOne, Serve(true), RouteOne, Serve(true), Confirm(updates)]
  }

  function Rounds(ids: seq<Id>): seq<Step>
  {
    if |ids| == 0 then [] else Rounds(ids[..|ids| - 1]) + Round(ids[|ids| - 1], true)
  }

  lemma {:induction false} RunConcat(on: Services, s: State, a: seq<Step>, b: seq<Step>)
    ensures Run(on, s, a + b) == Run(on, Run(on, s, a), b)
  {
    if |b| == 0 {
      assert a + b == a;
    } else {
      assert (a + b)[..|a + b| - 1] == a + b[..|b| - 1];
      RunConcat(on, s, a, b[..|b| - 1]);
    }
  }

  lemma {:induction false} RunThree(on: Services, s: State, a: Step, b: Step, c: Step)
    ensures Run(on, s, [a, b, c]) == Next(on, Next(on, Next(on, s, a), b), c)
  {
    assert [a, b, c][..2] == [a, b] && [a, b][..1] == [a] && [a][..0] == [];
    assert Run(on, s, [a]) == Next(on, s, a);
    assert Run(on, s, [a, b]) == Next(on, Next(on, s, a), b);
  }

  function AfterRound(s: State, id: Id, updates: bool): State
    requires Ready(s, id)
  {
    var m := PayMsg(s.intents[id]);
    var e := Entry(id, s.intents[id].metadata.value);
    s.(intents := if updates then MarkedPaid(s.intents, e) else s.intents,
       manager := s.manager + [Paid(m)],
       sent := s.sent + [Sent(id, m)],
       unmarked := if updates then s.unmarked else s.unmarked + [id])
  }

  lemma {:induction false} RoundPays(on: Services, s: State, id: Id, updates: bool)
    requires on.stripe && on.wallet && Quiet(s) && Ready(s, id)
    ensures Run(on, s, Round(id, updates)) == AfterRound(s, id, updates)
  {
    var m := PayMsg(s.intents[id]);
    var e := Entry(id, s.intents[id].metadata.value);
    var half := s.(messages := s.messages[m := e], general := [Paid(m)], sent := s.sent + [Sent(id, m)]);
    assert Round(id, updates) == [Check(id), RouteOne, Serve(true)] + [RouteOne, Serve(true), Confirm(updates)];
    RunConcat(on, s, [Check(id), RouteOne, Serve(true)], [RouteOne, Serve(true), Confirm(updates)]);
    RunThree(on, s, Check(id), RouteOne, Serve(true));
    FirstHalf(on, s, id, half);
    RunThree(on, half, RouteOne, Serve(true), Confirm(updates));
    SecondHalf(on, s, id, half, updates);
  }

  lemma {:induction false} SecondHalf(on: Services, s: State, id: Id, half: State, updates: bool)
    requires on.stripe && on.wallet && Quiet(s) && Ready(s, id)
    requires
      var m := PayMsg(s.intents[id]);
      var e := Entry(id, s.intents[id].metadata.value);
      half == s.(messages := s.messages[m := e], general := [Paid(m)], sent := s.sent + [Sent(id, m)])
    ensures Next(on, Next(on, Next(on, half, RouteOne), Serve(true)), Confirm(updates)) == AfterRound(s, id, updates)
  {
    var m := PayMsg(s.intents[id]);
    var routed := half.(general := [], wallet := [Paid(m)], stripe := [Paid(m)], manager := s.manager + [Paid(m)]);
    assert Next(on, half, RouteOne) == routed;
    assert Next(on, routed, Serve(true)) == routed.(wallet := []);
    assert half.messages - {m} == s.messages;
  }

  lemma {:induction false} FirstHalf(on: Services, s: State, id: Id, half: State)
    requires on.wallet && Quiet(s) && Ready(s, id)
    requires
      var m := PayMsg(s.intents[id]);
      var e := Entry(id, s.intents[id].metadata.value);
      half == s.(messages := s.messages[m := e], general := [Paid(m)], sent := s.sent + [Sent(id, m)])
    ensures Next(on, Next(on, Next(on, s, Check(id)), RouteOne), Serve(true)) == half
  {
  }

  predicate AllReady(s: State, ids: seq<Id>)
  {
    forall i :: 0 <= i < |ids| ==> Ready(s, ids[i])
  }

  // One transfer per payment, with its own message, in order.
  function Dues(intents: map<Id, Intent>, ids: seq<Id>): seq<Sent>
    requires forall i :: 0 <= i < |ids| ==> ids[i] in intents && Payable(intents[ids[i]])
  {
    if |ids| == 0 then []
    else
      var last := ids[|ids| - 1];
      assert Payable(intents[last]);
      Dues(intents, ids[..|ids| - 1]) + [Sent(last, PayMsg(intents[last]))]
  }

  predicate Settled(s: State, t: State, ids: seq<Id>)
    requires AllReady(s, ids)
  {
    && Quiet(t) && t.messages == s.messages && t.unmarked == s.unmarked
    && t.sent == s.sent + Dues(s.intents, ids)
    && (forall i :: 0 <= i < |ids| ==> IsMarked(t, ids[i]))
    && (forall id :: id in s.intents && id !in ids ==> id in t.intents && t.intents[id] == s.intents[id])
  }

  lemma {:induction false} SettleOneMore(on: Services, s: State, mid: State, ids: seq<Id>)
    requires |ids| > 0 && AllReady(s, ids) && on.stripe && on.wallet
    requires AllReady(s, ids[..|ids| - 1]) && Settled(s, mid, ids[..|ids| - 1])
    requires ids[|ids| - 1] !in ids[..|ids| - 1]
    ensures Ready(mid, ids[|ids| - 1])
    ensures Settled(s, AfterRound(mid, ids[|ids| - 1], true), ids)
  {
    var n := |ids| - 1;
    assert Ready(s, ids[n]) && mid.intents[ids[n]] == s.intents[ids[n]];
    var t := AfterRound(mid, ids[n], true);
    assert t.sent == s.sent + (Dues(s.intents, ids[..n]) + [Sent(ids[n], PayMsg(s.intents[ids[n]]))]);
    forall i | 0 <= i < |ids| ensures IsMarked(t, ids[i]) {
      assert i < n ==> ids[..n][i] == ids[i] && IsMarked(mid, ids[..n][i]);
    }
    assert forall id :: id in ids[..n] ==> id in ids;
  }

  // Payments that are ready are all carried out, each exactly once and each marked,
  // also when several of them have the same content.
  lemma {:induction false} NoneIsMerged(on: Services, s: State, ids: seq<Id>)
    requires on.stripe && on.wallet && Quiet(s) && AllReady(s, ids)
    requires forall i, j :: 0 <= i < j < |ids| ==> ids[i] != ids[j]
    ensures Settled(s, Run(on, s, Rounds(ids)), ids)
  {
    if |ids| == 0 {
      assert s.sent + [] == s.sent;
    } else {
      var n := |ids| - 1;
      var before := ids[..n];
      assert AllReady(s, before);
      NoneIsMerged(on, s, before);
      var mid := Run(on, s, Rounds(before));
      RunConcat(on, s, Rounds(before), Round(ids[n], true));
      SettleOneMore(on, s, mid, ids);
      RoundPays(on, mid, ids[n], true);
    }
  }

  // A mark that Stripe does not take lets the next poll pay the same payment again.
  lemma {:induction false} FailedMarkPaysAgain(on: Services, s: State, id: Id)
    requires on.stripe && on.wallet && Quiet(s) && Ready(s, id)
    ensures
      var t := Run(on, s, Round(id, false) + Round(id, true));
      Times(IdsOf(t.sent), id) == Times(IdsOf(s.sent), id) + 2 && IsMarked(t, id)
  {
    var m := PayMsg(s.intents[id]);
    RunConcat(on, s, Round(id, false), Round(id, true));
    RoundPays(on, s, id, false);
    var mid := AfterRound(s, id, false);
    RoundPays(on, mid, id, true);
    IdsPush(s.sent, Sent(id, m), id);
    IdsPush(mid.sent, Sent(id, m), id);
  }
}
