/**
  Server and client as one transition system.  On each side any number of processes
  hold copies of session records: a copy is loaded from the table, changed by a
  method of Session, saved, or saved much later over somebody else's newer row.
  A step is one such call; a run is any interleaving.
 */
module Lifecycle {
  import opened Basics
  import opened SessionRecord
  import opened SessionTable
  import opened Contributions

  // Every copy ever held on one side, the table, the records that reached the table, and
  // the descriptors by which a record finds its gate and space.
  datatype Node = Node(mem: set<SessionData>, rows: Rows, commits: set<SessionData>, catalog: Catalog)

  datatype State = State(now: int, server: Node, client: Node, wire: set<SessionData>)

  datatype System = System(server: Config, client: Config)

  datatype Action =
    | Create(gate: Gate, space: Space, tokens: Tokens, days: int, tool: Tool)
    | Fetch(id: string, tool: Tool)
    | Pay(r: SessionData, p: Payment, tool: Tool)
    | Refresh(r: SessionData, tool: Tool)
    | Prepare(r: SessionData, wg: WgData)
    | SaveCopy(r: SessionData)
    | Delete(id: string)
    | CleanUp
    | Publish(catalog: Catalog)

  datatype Step =
    | Tick(to: int)
    | AtServer(act: Action)
    | AtClient(act: Action)
    | Reply(r: SessionData)
    | Receive(r: SessionData, tool: Tool)

  // ---- steps --------------------------------------------------------------------

  // A call that raises leaves no copy behind: nobody who sees the exception goes on with it.
  function Absorb(node: Node, o: Outcome, now: int): Node
  {
    node.(mem := if o.raised then node.mem else node.mem + {o.data},
          rows := SavedAll(node.rows, o.saves, now),
          commits := node.commits + set r | r in o.saves && r.expires > now)
  }

  function GateOf(node: Node, r: SessionData): Gate { node.catalog.gates(r.gateid) }

  function LoadAt(cfg: Config, node: Node, r: SessionData, now: int, tool: Tool): Outcome
  {
    Load(cfg, GateOf(node, r), node.catalog.spaces(r.spaceid), r, now, tool)
  }

  // The record a call works on and what becomes of it; None when the step is not possible.
  function Produces(cfg: Config, node: Node, act: Action, now: int): Option<(SessionData, Outcome)>
  {
    match act
    case Create(gate, space, tokens, days, tool) =>
      (match Generate(cfg, gate, space, tokens, days, now, tool)
       case Err(_) => None
       case Ok(o) => Some((Blank(cfg, gate, space, tokens, days, 0.0, now), o)))
    case Fetch(id, tool) =>
      if id in node.rows && !node.rows[id].deleted
      then Some((node.rows[id].blob, LoadAt(cfg, node, node.rows[id].blob, now, tool)))
      else None
    case Pay(r, p, tool) =>
      if r in node.mem then Some((r, AddPayment(cfg.site, GateOf(node, r), r, p, now, tool))) else None
    case Refresh(r, tool) =>
      if r in node.mem then Some((r, Activate(cfg.site, GateOf(node, r), r, now, tool))) else None
    case Prepare(r, wg) =>
      if r in node.mem then Some((r, Outcome(r.(wg := Some(wg)), [], false, true))) else None
    case SaveCopy(r) =>
      if r in node.mem then Some((r, Outcome(r, [r], false, true))) else None
    case _ => None
  }

  function Act(cfg: Config, node: Node, act: Action, now: int): Node
  {
    match act
    case Delete(id) => node.(rows := Removed(node.rows, id))
    case CleanUp => node.(rows := Cleaned(node.rows, now))
    case Publish(catalog) => node.(catalog := catalog)
    case _ =>
      match Produces(cfg, node, act, now)
      case None => node
      case Some(w) => Absorb(node, w.1, now)
  }

  function Next(sys: System, s: State, step: Step): State
  {
    match step
    case Tick(to) => if to > s.now then s.(now := to) else s
    case AtServer(act) => s.(server := Act(sys.server, s.server, act, s.now))
    case AtClient(act) => s.(client := Act(sys.client, s.client, act, s.now))
    case Reply(r) => if r in s.server.mem then s.(wire := s.wire + {r}) else s
    case Receive(r, tool) =>
      if r in s.wire
      then s.(client := Absorb(s.client, LoadAt(sys.client, s.client, r, s.now, tool), s.now))
      else s
  }

  function Run(sys: System, s: State, steps: seq<Step>): State
  {
    if |steps| == 0 then s else Next(sys, Run(sys, s, steps[..|steps| - 1]), steps[|steps| - 1])
  }

  function Empty(catalog: Catalog): Node { Node({}, map[], {}, catalog) }

  function Start(now: int, catalog: Catalog): State { State(now, Empty(catalog), Empty(catalog), {}) }

  // The price a new record starts from, before contributions.
  function FirstPrice(gate: Gate, space: Space, days: int): real
  {
    if IsFree(gate, space) then 0.0 else ListPrice(gate, space, days)
  }

  // What the contributors are offered of a price.
  function Share(settings: seq<Setting>, price: real): real
  {
    Sum(Offers(settings, price, false))
  }

  // What the server is asked to do is sane: payments are not negative, and neither are
  // the contributions offered of the price of a new session.
  predicate Sane(cfg: Config, step: Step)
  {
    match step
    case AtServer(Create(gate, space, _, days, _)) =>
      var d := DaysOf(cfg, IsFree(gate, space), days);
      d.Some? ==> Share(cfg.settings, FirstPrice(gate, space, d.value)) >= 0.0
    case AtServer(Pay(_, p, _)) => p.amount >= 0.0
    case _ => true
  }

  predicate AllSane(cfg: Config, steps: seq<Step>)
  {
    forall i :: 0 <= i < |steps| ==> Sane(cfg, steps[i])
  }

  // Non-negative prices, settings and days are sane in particular.
  lemma {:induction false} NonNegativeIsSane(cfg: Config, act: Action)
    requires NonNegative(cfg.settings) && act.Create? && act.gate.price >= 0.0 && act.space.price >= 0.0
    requires DaysOf(cfg, IsFree(act.gate, act.space), act.days).Some? ==>
               DaysOf(cfg, IsFree(act.gate, act.space), act.days).value >= 0
    ensures Sane(cfg, AtServer(act))
  {
    var d := DaysOf(cfg, IsFree(act.gate, act.space), act.days);
    if d.Some? {
      var price := FirstPrice(act.gate, act.space, d.value);
      assert price >= 0.0;
      var offers := Offers(cfg.settings, price, false);
      forall i | 0 <= i < |offers| ensures offers[i].price >= 0.0 {
        assert NonNegative([cfg.settings[i]]);
        OfferNonNegative(cfg.settings[i], price, false);
      }
      SumNonNegative(offers);
    }
  }

  // ---- the lifecycle of one server record -------------------------------------------

  predicate NonNegativePayments(ps: seq<Payment>)
  {
    forall i :: 0 <= i < |ps| ==> ps[i].amount >= 0.0
  }

  // The law: what the state of a record says about its payments and its expiry.
  predicate Lawful(cfg: Config, r: SessionData)
  {
    && (r.activated != 0 ==> Total(r.payments) >= r.price && r.expires == r.activated + 86400 * r.days)
    && (r.activated == 0 ==> r.expires == r.created + cfg.unpaidExpiry)
    && (r.paid ==> Total(r.payments) >= r.price)
  }

  // No load raises the price: the contributions are settled and not negative in sum, or
  // there are none yet and those that would come are not.
  predicate Settled(cfg: Config, r: SessionData)
  {
    || (Covered(cfg.settings, false, r.contributions) && Sum(r.contributions) >= 0.0)
    || (r.contributions == [] && Share(cfg.settings, r.price) >= 0.0)
  }

  // A lawful record that stays so.
  predicate Sturdy(cfg: Config, r: SessionData)
  {
    Lawful(cfg, r) && NonNegativePayments(r.payments) && Settled(cfg, r)
  }

  lemma {:induction false} ActivateSturdy(cfg: Config, gate: Gate, r: SessionData, now: int, tool: Tool)
    requires Sturdy(cfg, r) && now >= 1
    ensures Sturdy(cfg, Activate(cfg.site, gate, r, now, tool).data)
  {
  }

  lemma {:induction false} AddPaymentSturdy(cfg: Config, gate: Gate, r: SessionData, p: Payment, now: int, tool: Tool)
    requires Sturdy(cfg, r) && p.amount >= 0.0 && now >= 1
    ensures Sturdy(cfg, AddPayment(cfg.site, gate, r, p, now, tool).data)
  {
    var q := r.(payments := r.payments + [p], paid := Total(r.payments + [p]) >= r.price);
    TotalPush(r.payments, p);
    assert Sturdy(cfg, q);
    ActivateSturdy(cfg, gate, q, now, tool);
  }

  // With no contributions yet, all offers are appended.
  lemma {:induction false} MissingAll(offers: seq<Contribution>)
    ensures Missing(offers, []) == offers
  {
    if |offers| > 0 {
      MissingAll(offers[..|offers| - 1]);
    }
  }

  lemma {:induction false} SettledLoad(cfg: Config, r: SessionData)
    requires Settled(cfg, r)
    ensures
      var q := WithContributions(cfg.settings, false, r);
      Settled(cfg, q) && q.price <= r.price && q == r.(contributions := q.contributions, price := q.price)
  {
    AppliedOnceCovers(cfg.settings, false, r);
    if Covered(cfg.settings, false, r.contributions) && Sum(r.contributions) >= 0.0 {
      CoveredAddsNothing(cfg.settings, false, r);
    } else {
      var offers := Offers(cfg.settings, r.price, false);
      MissingAll(offers);
      assert [] + offers == offers;
    }
  }

  lemma {:induction false} LoadSturdy(cfg: Config, gate: Gate, space: Space, r: SessionData, now: int, tool: Tool)
    requires cfg.site.Server? && Sturdy(cfg, r) && now >= 1
    ensures Sturdy(cfg, Load(cfg, gate, space, r, now, tool).data)
  {
    if IsFree(gate, space) && gate.tpe == "wg" && r.wg.Some? && r.activated == 0 {
      ActivateSturdy(cfg, gate, r, now, tool);
    } else {
      SettledLoad(cfg, r);
    }
  }

  lemma {:induction false} GenerateSturdy(
    cfg: Config, gate: Gate, space: Space, tokens: Tokens, days: int, now: int, tool: Tool)
    requires cfg.site.Server? && now >= 1 && DaysOf(cfg, IsFree(gate, space), days).Some?
    requires Share(cfg.settings, FirstPrice(gate, space, DaysOf(cfg, IsFree(gate, space), days).value)) >= 0.0
    ensures Sturdy(cfg, Generate(cfg, gate, space, tokens, days, now, tool).value.data)
  {
    var d := DaysOf(cfg, IsFree(gate, space), days).value;
    var r := Blank(cfg, gate, space, tokens, d, FirstPrice(gate, space, d), now);
    assert Sturdy(cfg, r);
    ActivateSturdy(cfg, gate, r, now, tool);
    SettledLoad(cfg, r);
  }

  // ---- the law in every run -----------------------------------------------------------

  // What is handed to save on the way is the record the call ends with, and nothing is
  // when it raises.
  predicate SavesData(o: Outcome)
  {
    (forall i :: 0 <= i < |o.saves| ==> o.saves[i] == o.data) && (o.raised ==> o.saves == [])
  }

  predicate RowsFrom(node: Node)
  {
    forall id :: id in node.rows ==> node.rows[id].blob in node.mem
  }

  predicate AllSturdy(cfg: Config, node: Node)
  {
    RowsFrom(node) && forall r :: r in node.mem ==> Sturdy(cfg, r)
  }

  lemma {:induction false} SavedAllFrom(rows: Rows, rs: seq<SessionData>, mem: set<SessionData>, now: int)
    requires forall id :: id in rows ==> rows[id].blob in mem
    requires forall i :: 0 <= i < |rs| ==> rs[i] in mem
    ensures forall id :: id in SavedAll(rows, rs, now) ==> SavedAll(rows, rs, now)[id].blob in mem
  {
    if |rs| > 0 {
      SavedAllFrom(rows, rs[..|rs| - 1], mem, now);
    }
  }

  lemma {:induction false} AbsorbRows(node: Node, o: Outcome, now: int)
    requires RowsFrom(node) && SavesData(o)
    ensures RowsFrom(Absorb(node, o, now))
  {
    SavedAllFrom(node.rows, o.saves, Absorb(node, o, now).mem, now);
  }

  lemma {:induction false} ProducedSturdy(cfg: Config, node: Node, act: Action, now: int)
    requires cfg.site.Server? && now >= 1 && AllSturdy(cfg, node) && Sane(cfg, AtServer(act))
    requires Produces(cfg, node, act, now).Some?
    ensures Sturdy(cfg, Produces(cfg, node, act, now).value.1.data)
  {
    hide Load, AddPayment, Activate, Sturdy, Share;
    match act {
      case Create(gate, space, tokens, days, tool) => GenerateSturdy(cfg, gate, space, tokens, days, now, tool);
      case Fetch(id, tool) =>
        var r := node.rows[id].blob;
        LoadSturdy(cfg, GateOf(node, r), node.catalog.spaces(r.spaceid), r, now, tool);
      case Pay(r, p, tool) => AddPaymentSturdy(cfg, GateOf(node, r), r, p, now, tool);
      case Refresh(r, tool) => ActivateSturdy(cfg, GateOf(node, r), r, now, tool);
      case Prepare(r, wg) => PreparedSturdy(cfg, r, wg);
      case SaveCopy(_) =>
    }
  }

  lemma {:induction false} PreparedSturdy(cfg: Config, r: SessionData, wg: WgData)
    requires Sturdy(cfg, r)
    ensures Sturdy(cfg, r.(wg := Some(wg)))
  {
  }

  lemma {:induction false} SavesAreData(cfg: Config, node: Node, act: Action, now: int)
    requires Produces(cfg, node, act, now).Some?
    ensures SavesData(Produces(cfg, node, act, now).value.1)
  {
    hide WithContributions, Total, ListPrice;
  }

  lemma {:induction false} DeletionKeepsRecords(cfg: Config, node: Node, act: Action, now: int)
    requires RowsFrom(node) && (act.Delete? || act.CleanUp? || act.Publish?)
    ensures
      var n := Act(cfg, node, act, now);
      RowsFrom(n) && n.mem == node.mem && n.commits == node.commits
  {
  }

  lemma {:induction false} ActSturdy(cfg: Config, node: Node, act: Action, now: int)
    requires cfg.site.Server? && now >= 1 && AllSturdy(cfg, node) && Sane(cfg, AtServer(act))
    ensures AllSturdy(cfg, Act(cfg, node, act, now))
  {
    hide Sturdy, Produces, Sane;
    if act.Delete? || act.CleanUp? || act.Publish? {
      DeletionKeepsRecords(cfg, node, act, now);
    } else if Produces(cfg, node, act, now).Some? {
      ProducedSturdy(cfg, node, act, now);
      SavesAreData(cfg, node, act, now);
      AbsorbRows(node, Produces(cfg, node, act, now).value.1, now);
    }
  }

  lemma {:induction false} RunSturdy(sys: System, now: int, catalog: Catalog, steps: seq<Step>)
    requires sys.server.site.Server? && AllSane(sys.server, steps) && now >= 1
    ensures
      var s := Run(sys, Start(now, catalog), steps);
      s.now >= now && AllSturdy(sys.server, s.server)
  {
    if |steps| > 0 {
      var before := steps[..|steps| - 1];
      RunSturdy(sys, now, catalog, before);
      var s := Run(sys, Start(now, catalog), before);
      hide AllSturdy;
      if steps[|steps| - 1].AtServer? {
        ActSturdy(sys.server, s.server, steps[|steps| - 1].act, s.now);
      }
    }
  }

  // ---- the mirror in every run ----------------------------------------------------------

  // The server committed this activation, paid in full.
  ghost predicate Backed(commits: set<SessionData>, r: SessionData)
  {
    exists c :: c in commits && Backs(c, r)
  }

  predicate Backs(c: SessionData, r: SessionData)
  {
    && c.sessionid == r.sessionid && c.activated == r.activated
    && Total(c.payments) >= c.price && c.expires == c.activated + 86400 * c.days
  }

  // An active record is backed, or it has expired and is not stored any more.
  ghost predicate BackedOrPast(commits: set<SessionData>, rs: set<SessionData>, now: int)
  {
    forall r :: r in rs && r.activated != 0 ==> Backed(commits, r) || r.expires <= now
  }

  ghost predicate RowsBacked(commits: set<SessionData>, rows: Rows)
  {
    forall id :: id in rows && rows[id].blob.activated != 0 ==> Backed(commits, rows[id].blob)
  }

  ghost predicate Mirrored(s: State)
  {
    && s.now >= 1
    && RowsFrom(s.server) && RowsFrom(s.client)
    && s.wire <= s.server.mem
    && BackedOrPast(s.server.commits, s.server.mem, s.now)
    && BackedOrPast(s.server.commits, s.client.mem, s.now)
    && RowsBacked(s.server.commits, s.client.rows)
  }

  // A call leaves stamp and expiry of an active record alone.
  predicate Keeps(r: SessionData, o: Outcome)
  {
    o.data.activated == r.activated && (r.activated != 0 ==> o.data.expires == r.expires)
  }

  // Or it activates the record, paid in full, and hands it to save.
  predicate Activates(o: Outcome, now: int)
  {
    && o.data in o.saves && o.data.activated == now && o.data.expires == now + 86400 * o.data.days
    && Total(o.data.payments) >= o.data.price
  }

  lemma {:induction false} EveryCall(cfg: Config, node: Node, act: Action, now: int)
    requires RowsFrom(node) && Produces(cfg, node, act, now).Some?
    ensures
      var (r, o) := Produces(cfg, node, act, now).value;
      && o.data.sessionid == r.sessionid && (r.activated != 0 ==> r in node.mem)
      && (Keeps(r, o) || (cfg.site.Server? && Activates(o, now)))
  {
    hide Total, ListPrice, Offers, Missing, Sum;
  }

  // Nothing a client does to a record by itself changes its activation stamp.
  lemma {:induction false} ClientNeverActivates(cfg: Config, node: Node, act: Action, now: int)
    requires cfg.site.Client? && RowsFrom(node) && Produces(cfg, node, act, now).Some?
    ensures
      var (r, o) := Produces(cfg, node, act, now).value;
      o.data.activated == r.activated && forall i :: 0 <= i < |o.saves| ==> o.saves[i].activated == r.activated
  {
    EveryCall(cfg, node, act, now);
    SavesAreData(cfg, node, act, now);
  }

  lemma {:induction false} BackedByMore(
    commits: set<SessionData>, more: set<SessionData>, rs: set<SessionData>, rows: Rows, now: int)
    requires commits <= more && BackedOrPast(commits, rs, now) && RowsBacked(commits, rows)
    ensures BackedOrPast(more, rs, now) && RowsBacked(more, rows)
  {
    forall r | Backed(commits, r) ensures Backed(more, r) {
      var c :| c in commits && Backs(c, r);
      assert c in more;
    }
  }

  // A kept record is as backed as the one it came from.
  lemma {:induction false} KeptBacked(
    commits: set<SessionData>, mem: set<SessionData>, r: SessionData, o: Outcome, now: int)
    requires BackedOrPast(commits, mem, now) && Keeps(r, o) && o.data.sessionid == r.sessionid
    requires r.activated != 0 ==> r in mem
    ensures BackedOrPast(commits, mem + {o.data}, now)
  {
    if r.activated != 0 && Backed(commits, r) {
      var c :| c in commits && Backs(c, r);
      assert Backs(c, o.data);
    }
  }

  lemma {:induction false} ServerAbsorbs(node: Node, r: SessionData, o: Outcome, now: int)
    requires BackedOrPast(node.commits, node.mem, now) && (r.activated != 0 ==> r in node.mem)
    requires o.data.sessionid == r.sessionid && (Keeps(r, o) || Activates(o, now)) && SavesData(o)
    ensures
      var n := Absorb(node, o, now);
      node.commits <= n.commits && node.mem <= n.mem && BackedOrPast(n.commits, n.mem, now)
  {
    var n := Absorb(node, o, now);
    BackedByMore(node.commits, n.commits, node.mem, map[], now);
    if Keeps(r, o) {
      KeptBacked(n.commits, node.mem, r, o, now);
    } else if o.data.expires > now {
      assert Backs(o.data, o.data) && o.data in n.commits;
    }
  }

  lemma {:induction false} ClientAbsorbs(commits: set<SessionData>, node: Node, r: SessionData, o: Outcome, now: int)
    requires BackedOrPast(commits, node.mem, now) && RowsBacked(commits, node.rows) && RowsFrom(node)
    requires r.activated != 0 ==> r in node.mem
    requires o.data.sessionid == r.sessionid && Keeps(r, o) && SavesData(o)
    ensures
      var n := Absorb(node, o, now);
      BackedOrPast(commits, n.mem, now) && RowsBacked(commits, n.rows) && RowsFrom(n)
  {
    KeptBacked(commits, node.mem, r, o, now);
    AbsorbRows(node, o, now);
    SavedRowsBacked(commits, node.rows, o.saves, o.data, now);
  }

  lemma {:induction false} SavedRowsBacked(
    commits: set<SessionData>, rows: Rows, rs: seq<SessionData>, r: SessionData, now: int)
    requires RowsBacked(commits, rows) && BackedOrPast(commits, {r}, now)
    requires forall i :: 0 <= i < |rs| ==> rs[i] == r
    ensures RowsBacked(commits, SavedAll(rows, rs, now))
  {
    if |rs| > 0 {
      SavedRowsBacked(commits, rows, rs[..|rs| - 1], r, now);
    }
  }

  lemma {:induction false} ServerStep(sys: System, s: State, act: Action)
    requires sys.server.site.Server? && Mirrored(s)
    ensures Mirrored(Next(sys, s, AtServer(act)))
  {
    var n := Act(sys.server, s.server, act, s.now);
    hide BackedOrPast, RowsBacked, Keeps, Activates, Produces;
    if act.Delete? || act.CleanUp? || act.Publish? {
      DeletionKeepsRecords(sys.server, s.server, act, s.now);
    } else if Produces(sys.server, s.server, act, s.now).Some? {
      var (r, o) := Produces(sys.server, s.server, act, s.now).value;
      EveryCall(sys.server, s.server, act, s.now);
      SavesAreData(sys.server, s.server, act, s.now);
      AbsorbRows(s.server, o, s.now);
      ServerAbsorbs(s.server, r, o, s.now);
      BackedByMore(s.server.commits, n.commits, s.client.mem, s.client.rows, s.now);
    }
  }

  lemma {:induction false} ClientStep(sys: System, s: State, act: Action)
    requires sys.client.site.Client? && Mirrored(s)
    ensures Mirrored(Next(sys, s, AtClient(act)))
  {
    if act.Delete? || act.CleanUp? || act.Publish? {
      DeletionKeepsRecords(sys.client, s.client, act, s.now);
    } else if Produces(sys.client, s.client, act, s.now).Some? {
      hide BackedOrPast, RowsBacked, Keeps, Activates, Produces, RowsFrom;
      var (r, o) := Produces(sys.client, s.client, act, s.now).value;
      EveryCall(sys.client, s.client, act, s.now);
      SavesAreData(sys.client, s.client, act, s.now);
      ClientAbsorbs(s.server.commits, s.client, r, o, s.now);
    }
  }

  lemma {:induction false} ReceiveStep(sys: System, s: State, r: SessionData, tool: Tool)
    requires sys.client.site.Client? && Mirrored(s)
    ensures Mirrored(Next(sys, s, Receive(r, tool)))
  {
    if r in s.wire {
      var o := LoadAt(sys.client, s.client, r, s.now, tool);
      var node := s.client.(mem := s.client.mem + {r});
      assert Keeps(r, o);
      hide Load;
      ClientAbsorbs(s.server.commits, node, r, o, s.now);
      AbsorbRows(s.client, o, s.now);
    }
  }

  lemma {:induction false} RunMirrored(sys: System, now: int, catalog: Catalog, steps: seq<Step>)
    requires sys.server.site.Server? && sys.client.site.Client? && now >= 1
    ensures Mirrored(Run(sys, Start(now, catalog), steps))
  {
    if |steps| > 0 {
      var s := Run(sys, Start(now, catalog), steps[..|steps| - 1]);
      RunMirrored(sys, now, catalog, steps[..|steps| - 1]);
      match steps[|steps| - 1] {
        case Tick(_) =>
        case AtServer(act) => ServerStep(sys, s, act);
        case AtClient(act) => ClientStep(sys, s, act);
        case Reply(_) =>
        case Receive(r, tool) => ReceiveStep(sys, s, r, tool);
      }
    }
  }

  // ---- main results ---------------------------------------------------------------

  // Every copy of a record on the server, stored or held, obeys the law.
  ghost predicate LawHolds(sys: System, s: State)
  {
    && (forall r :: r in s.server.mem ==> Lawful(sys.server, r))
    && (forall id :: id in s.server.rows ==> Lawful(sys.server, s.server.rows[id].blob))
  }

  // In every sane run the law holds: an active record is paid for and expires its days
  // after activation, however many days those are.
  lemma {:induction false} ServerLifecycle(sys: System, now: int, catalog: Catalog, steps: seq<Step>)
    requires sys.server.site.Server? && AllSane(sys.server, steps) && now >= 1
    ensures LawHolds(sys, Run(sys, Start(now, catalog), steps))
  {
    RunSturdy(sys, now, catalog, steps);
  }

  // In every run whatever, a client's stored record that is active carries the activation
  // stamp of a record the server committed under the same id, paid in full.
  lemma {:induction false} ClientMirrorsServer(
    sys: System, now: int, catalog: Catalog, steps: seq<Step>, id: string)
    requires sys.server.site.Server? && sys.client.site.Client? && now >= 1
    requires id in Run(sys, Start(now, catalog), steps).client.rows
    requires Run(sys, Start(now, catalog), steps).client.rows[id].blob.activated != 0
    ensures
      var s := Run(sys, Start(now, catalog), steps);
      exists c :: c in s.server.commits
        && c.sessionid == s.client.rows[id].blob.sessionid
        && c.activated == s.client.rows[id].blob.activated
        && Total(c.payments) >= c.price
        && c.expires == c.activated + 86400 * c.days
  {
    RunMirrored(sys, now, catalog, steps);
    var s := Run(sys, Start(now, catalog), steps);
    var c :| c in s.server.commits && Backs(c, s.client.rows[id].blob);
  }

  // ---- where the law ends: records that break it --------------------------------------------

  function NewRecord(cfg: Config, gate: Gate, space: Space, tokens: Tokens, days: int, now: int): SessionData
    requires DaysOf(cfg, IsFree(gate, space), days).Some?
  {
    Generate(cfg, gate, space, tokens, days, now, Works).value.data
  }

  function Due(price: real): Payment
  {
    Payment(if price >= 0.0 then price else 0.0, 1, "t")
  }

  // A new session credited with its price: active, or refused for want of WireGuard data.
  function Overdue(cfg: Config, gate: Gate, space: Space, tokens: Tokens, days: int, now: int): SessionData
    requires DaysOf(cfg, IsFree(gate, space), days).Some?
  {
    var r := NewRecord(cfg, gate, space, tokens, days, now);
    AddPayment(cfg.site, gate, r, Due(r.price), now, Works).data
  }

  // The same, loaded n times after that.
  function Unsettled(cfg: Config, gate: Gate, space: Space, tokens: Tokens, days: int, now: int, n: nat): SessionData
    requires DaysOf(cfg, IsFree(gate, space), days).Some?
  {
    Applied(cfg.settings, false, Overdue(cfg, gate, space, tokens, days, now), n)
  }

  // The condition under which a request cannot make the law fail: the contributions offered
  // of its price are not negative in sum, or no paid or active record of it is ever stored.
  predicate Harmless(cfg: Config, gate: Gate, space: Space, days: int)
  {
    var d := DaysOf(cfg, IsFree(gate, space), days);
    d.Some? ==> Share(cfg.settings, FirstPrice(gate, space, d.value)) >= 0.0 || (gate.tpe != "wg" && d.value <= 0)
  }

  lemma {:induction false} NoSettingsNoShare(price: real)
    ensures Share([], price) == 0.0
  {
  }

  // With no contributions yet, a load appends all the offers.
  lemma {:induction false} FirstLoad(settings: seq<Setting>, r: SessionData)
    requires r.contributions == [] && settings != []
    ensures
      var q := WithContributions(settings, false, r);
      Covered(settings, false, q.contributions) && Sum(q.contributions) == Share(settings, r.price)
  {
    AppliedOnceCovers(settings, false, r);
    var offers := Offers(settings, r.price, false);
    MissingAll(offers);
    assert [] + offers == offers;
  }

  lemma {:induction false} NewRecordIs(cfg: Config, gate: Gate, space: Space, tokens: Tokens, days: int, now: int)
    requires cfg.site.Server? && now >= 1 && DaysOf(cfg, IsFree(gate, space), days).Some? && cfg.settings != []
    ensures
      var d := DaysOf(cfg, IsFree(gate, space), days).value;
      var r := NewRecord(cfg, gate, space, tokens, days, now);
      && Sum(WithContributions(cfg.settings, false, r).contributions) == Share(cfg.settings, FirstPrice(gate, space, d))
      && r.payments == [] && r.wg.None? && r.sessionid == tokens.sessionid && r.gateid == gate.id && r.days == d
      && (r.activated == 0 ==> r.expires == now + cfg.unpaidExpiry)
      && (r.activated != 0 ==> gate.tpe != "wg" && r.price == 0.0 && r.expires == now + 86400 * d)
  {
    var d := DaysOf(cfg, IsFree(gate, space), days).value;
    var blank := Blank(cfg, gate, space, tokens, d, FirstPrice(gate, space, d), now);
    FirstLoad(cfg.settings, blank);
    if IsFree(gate, space) {
      FirstLoad(cfg.settings, NewRecord(cfg, gate, space, tokens, days, now));
    } else {
      CoveredAddsNothing(cfg.settings, false, WithContributions(cfg.settings, false, blank));
    }
  }

  lemma {:induction false} PaidWhatIsDue(cfg: Config, gate: Gate, r: SessionData, now: int)
    requires cfg.site.Server? && now >= 1 && r.payments == [] && r.wg.None?
    requires r.activated != 0 ==> gate.tpe != "wg" && r.price <= 0.0
    ensures
      var o := AddPayment(cfg.site, gate, r, Due(r.price), now, Works);
      && !o.raised && o.data.paid && Total(o.data.payments) >= o.data.price
      && o.data.contributions == r.contributions && o.data.price == r.price
      && o.data.wg.None? && o.data.sessionid == r.sessionid
      && o.data.expires == if gate.tpe != "wg" && r.activated == 0 then now + 86400 * r.days else r.expires
  {
    TotalPush([], Due(r.price));
    assert [] + [Due(r.price)] == [Due(r.price)];
  }

  lemma {:induction false} SameContributions(settings: seq<Setting>, r: SessionData, q: SessionData)
    requires r.contributions == q.contributions && r.price == q.price
    ensures WithContributions(settings, false, r).contributions == WithContributions(settings, false, q).contributions
  {
  }

  lemma {:induction false} OverdueIs(cfg: Config, gate: Gate, space: Space, tokens: Tokens, days: int, now: int)
    requires cfg.site.Server? && now >= 1 && cfg.unpaidExpiry > 0
    requires DaysOf(cfg, IsFree(gate, space), days).Some? && !Harmless(cfg, gate, space, days)
    ensures
      var q := Overdue(cfg, gate, space, tokens, days, now);
      && cfg.settings != [] && q.paid && Total(q.payments) >= q.price
      && Sum(WithContributions(cfg.settings, false, q).contributions) < 0.0
      && q.wg.None? && q.sessionid == tokens.sessionid && q.expires > now
  {
    var d := DaysOf(cfg, IsFree(gate, space), days).value;
    var r := NewRecord(cfg, gate, space, tokens, days, now);
    assert Overdue(cfg, gate, space, tokens, days, now) == AddPayment(cfg.site, gate, r, Due(r.price), now, Works).data;
    assert Share(cfg.settings, FirstPrice(gate, space, d)) < 0.0 && (gate.tpe == "wg" || d > 0);
    assert gate.tpe != "wg" ==> 86400 * d > 0;
    hide *;
    NoSettingsNoShare(FirstPrice(gate, space, d));
    NewRecordIs(cfg, gate, space, tokens, days, now);
    PaidWhatIsDue(cfg, gate, r, now);
    SameContributions(cfg.settings, r, Overdue(cfg, gate, space, tokens, days, now));
  }

  // Enough loads raise the price above any payment.
  lemma {:induction false} LoadsOutgrow(share: real, gap: real) returns (n: nat)
    requires share < 0.0
    ensures n >= 1 && Repeated(n, share) < gap
  {
    var quotient := gap / share;
    n := if quotient.Floor < 0 then 1 else quotient.Floor + 1;
    RepeatedIsProduct(n, share);
    assert n as real > quotient;
    assert n as real * share < quotient * share;
    assert quotient * share == gap;
  }

  lemma {:induction false} AppliedKeeps(settings: seq<Setting>, r: SessionData, n: nat)
    ensures
      var q := Applied(settings, false, r, n);
      && q.paid == r.paid && q.payments == r.payments && q.wg == r.wg
      && q.sessionid == r.sessionid && q.expires == r.expires
  {
    if n > 0 {
      AppliedKeeps(settings, r, n - 1);
    }
  }

  // Some number of loads leaves the record paid without covering its price.
  lemma {:induction false} ReloadsBreak(cfg: Config, gate: Gate, space: Space, tokens: Tokens, days: int, now: int)
    returns (n: nat)
    requires cfg.site.Server? && now >= 1 && cfg.unpaidExpiry > 0
    requires DaysOf(cfg, IsFree(gate, space), days).Some? && !Harmless(cfg, gate, space, days)
    ensures !Lawful(cfg, Unsettled(cfg, gate, space, tokens, days, now, n))
  {
    var q := Overdue(cfg, gate, space, tokens, days, now);
    OverdueIs(cfg, gate, space, tokens, days, now);
    hide Overdue, Share, WithContributions;
    n := LoadsOutgrow(Sum(WithContributions(cfg.settings, false, q).contributions), q.price - Total(q.payments));
    RepeatedApplication(cfg.settings, false, q, n);
    AppliedKeeps(cfg.settings, q, n);
  }

  // The steps that create the session, pay it, and save and load it n times.
  function Reloads(cfg: Config, gate: Gate, space: Space, tokens: Tokens, days: int, now: int, n: nat): seq<Step>
    requires DaysOf(cfg, IsFree(gate, space), days).Some?
  {
    if n == 0 then
      var r := NewRecord(cfg, gate, space, tokens, days, now);
      [AtServer(Create(gate, space, tokens, days, Works)), AtServer(Pay(r, Due(r.price), Works))]
    else
      Reloads(cfg, gate, space, tokens, days, now, n - 1)
      + [AtServer(SaveCopy(Unsettled(cfg, gate, space, tokens, days, now, n - 1))),
         AtServer(Fetch(tokens.sessionid, Works))]
  }

  lemma {:induction false} RunTwo(sys: System, s: State, steps: seq<Step>, a: Step, b: Step)
    ensures Run(sys, s, steps + [a, b]) == Next(sys, Next(sys, Run(sys, s, steps), a), b)
  {
    var all := steps + [a, b];
    assert all[..|all| - 1] == steps + [a] && (steps + [a])[..|steps|] == steps;
  }

  // A stored record without WireGuard data is loaded with the contributions applied once more.
  lemma {:induction false} SavedThenLoaded(sys: System, s: State, r: SessionData)
    requires sys.server.site.Server? && r in s.server.mem && r.expires > s.now && r.wg.None?
    ensures
      var t := Next(sys, Next(sys, s, AtServer(SaveCopy(r))), AtServer(Fetch(r.sessionid, Works)));
      t.now == s.now && WithContributions(sys.server.settings, false, r) in t.server.mem
  {
    var m := Next(sys, s, AtServer(SaveCopy(r)));
    assert SavedAll(s.server.rows, [r], s.now) == Saved(s.server.rows, r, s.now) by {
      assert [r][..0] == [];
    }
    assert m.server.rows[r.sessionid] == RowOf(r);
  }

  ghost predicate Listed(catalog: Catalog, gate: Gate, space: Space)
  {
    catalog.gates(gate.id) == gate && catalog.spaces(space.id) == space
  }

  lemma {:induction false} CreatedThenPaid(
    sys: System, catalog: Catalog, gate: Gate, space: Space, tokens: Tokens, days: int, now: int)
    requires sys.server.site.Server? && now >= 1 && sys.server.settings != [] && Listed(catalog, gate, space)
    requires DaysOf(sys.server, IsFree(gate, space), days).Some?
    ensures
      var s := Run(sys, Start(now, catalog), Reloads(sys.server, gate, space, tokens, days, now, 0));
      s.now == now && Overdue(sys.server, gate, space, tokens, days, now) in s.server.mem
  {
    var steps := Reloads(sys.server, gate, space, tokens, days, now, 0);
    RunTwo(sys, Start(now, catalog), [], steps[0], steps[1]);
    assert [] + [steps[0], steps[1]] == steps;
    var r := NewRecord(sys.server, gate, space, tokens, days, now);
    NewRecordIs(sys.server, gate, space, tokens, days, now);
    PaidWhatIsDue(sys.server, gate, r, now);
    var s1 := Next(sys, Start(now, catalog), steps[0]);
    CreatedHeld(sys, catalog, gate, space, tokens, days, now);
    hide Generate, AddPayment;
    assert GateOf(s1.server, r) == gate;
  }

  lemma {:induction false} CreatedHeld(
    sys: System, catalog: Catalog, gate: Gate, space: Space, tokens: Tokens, days: int, now: int)
    requires sys.server.site.Server? && now >= 1 && DaysOf(sys.server, IsFree(gate, space), days).Some?
    ensures
      var s1 := Next(sys, Start(now, catalog), AtServer(Create(gate, space, tokens, days, Works)));
      && s1.now == now && s1.server.mem == {NewRecord(sys.server, gate, space, tokens, days, now)}
      && s1.server.catalog == catalog
  {
    hide WithContributions, ListPrice;
  }

  lemma {:induction false} ReloadsReach(
    sys: System, catalog: Catalog, gate: Gate, space: Space, tokens: Tokens, days: int, now: int, n: nat)
    requires sys.server.site.Server? && now >= 1 && sys.server.unpaidExpiry > 0 && Listed(catalog, gate, space)
    requires DaysOf(sys.server, IsFree(gate, space), days).Some? && !Harmless(sys.server, gate, space, days)
    ensures
      var s := Run(sys, Start(now, catalog), Reloads(sys.server, gate, space, tokens, days, now, n));
      s.now == now && Unsettled(sys.server, gate, space, tokens, days, now, n) in s.server.mem
  {
    hide Next, Overdue, WithContributions;
    OverdueIs(sys.server, gate, space, tokens, days, now);
    if n == 0 {
      CreatedThenPaid(sys, catalog, gate, space, tokens, days, now);
    } else {
      ReloadsReach(sys, catalog, gate, space, tokens, days, now, n - 1);
      var before := Reloads(sys.server, gate, space, tokens, days, now, n - 1);
      var r := Unsettled(sys.server, gate, space, tokens, days, now, n - 1);
      AppliedKeeps(sys.server.settings, Overdue(sys.server, gate, space, tokens, days, now), n - 1);
      hide Run;
      RunTwo(sys, Start(now, catalog), before, AtServer(SaveCopy(r)), AtServer(Fetch(tokens.sessionid, Works)));
      SavedThenLoaded(sys, Run(sys, Start(now, catalog), before), r);
    }
  }

  // All the steps but the first are sane and publish nothing.
  lemma {:induction false} ReloadsSane(
    cfg: Config, gate: Gate, space: Space, tokens: Tokens, days: int, now: int, n: nat)
    requires DaysOf(cfg, IsFree(gate, space), days).Some?
    ensures
      var steps := Reloads(cfg, gate, space, tokens, days, now, n);
      && |steps| >= 2 && steps[0] == AtServer(Create(gate, space, tokens, days, Works))
      && Follows(cfg, steps[1..])
  {
    hide Unsettled, NewRecord;
    if n > 0 {
      ReloadsSane(cfg, gate, space, tokens, days, now, n - 1);
      var before := Reloads(cfg, gate, space, tokens, days, now, n - 1);
      var r := Unsettled(cfg, gate, space, tokens, days, now, n - 1);
      FollowsMore(cfg, before[1..], AtServer(SaveCopy(r)), AtServer(Fetch(tokens.sessionid, Works)));
      assert Reloads(cfg, gate, space, tokens, days, now, n)[1..]
             == before[1..] + [AtServer(SaveCopy(r)), AtServer(Fetch(tokens.sessionid, Works))];
    }
  }

  lemma {:induction false} FollowsMore(cfg: Config, steps: seq<Step>, a: Step, b: Step)
    requires Follows(cfg, steps) && Sane(cfg, a) && Sane(cfg, b) && !Publishes(a) && !Publishes(b)
    ensures Follows(cfg, steps + [a, b])
  {
    forall i | 0 <= i < |steps| + 2
      ensures Sane(cfg, (steps + [a, b])[i]) && !Publishes((steps + [a, b])[i])
    {
      assert (steps + [a, b])[i] == if i < |steps| then steps[i] else if i == |steps| then a else b;
    }
  }

  predicate Publishes(step: Step)
  {
    step.AtServer? && step.act.Publish?
  }

  // Sane steps under the descriptors as they are.
  predicate Follows(cfg: Config, rest: seq<Step>)
  {
    AllSane(cfg, rest) && forall i :: 0 <= i < |rest| ==> !Publishes(rest[i])
  }

  // ---- where the law ends: records that never get so far ------------------------------------

  // A session of no days through a gate that always activates or raises: as long as it is
  // stored it is neither paid nor active, and once active it is not stored.
  predicate Passing(cfg: Config, catalog: Catalog, r: SessionData, now: int)
  {
    && r.days <= 0 && catalog.gates(r.gateid).tpe != "wg" && NonNegativePayments(r.payments)
    && (r.activated == 0 ==> !r.paid && r.expires == r.created + cfg.unpaidExpiry)
    && (r.activated != 0 ==>
          r.activated <= now && Total(r.payments) >= r.price && r.expires == r.activated + 86400 * r.days)
  }

  predicate Held(cfg: Config, catalog: Catalog, r: SessionData, now: int)
  {
    Sturdy(cfg, r) || Passing(cfg, catalog, r, now)
  }

  predicate StoredWell(cfg: Config, catalog: Catalog, r: SessionData, now: int)
  {
    Sturdy(cfg, r) || (Passing(cfg, catalog, r, now) && r.activated == 0)
  }

  predicate AllHeld(cfg: Config, node: Node, now: int)
  {
    && (forall r :: r in node.mem ==> Held(cfg, node.catalog, r, now))
    && (forall id :: id in node.rows ==> StoredWell(cfg, node.catalog, node.rows[id].blob, now))
  }

  lemma {:induction false} PaidPassing(
    cfg: Config, catalog: Catalog, r: SessionData, p: Payment, now: int, tool: Tool)
    requires cfg.site.Server? && now >= 1 && Passing(cfg, catalog, r, now) && p.amount >= 0.0
    ensures
      var o := AddPayment(cfg.site, catalog.gates(r.gateid), r, p, now, tool);
      o.raised || Passing(cfg, catalog, o.data, now)
  {
    TotalPush(r.payments, p);
  }

  // Whatever a call makes of a held record is held, unless it raises.
  lemma {:induction false} ProducedHeld(cfg: Config, node: Node, act: Action, now: int)
    requires cfg.site.Server? && now >= 1 && AllHeld(cfg, node, now) && Sane(cfg, AtServer(act))
    requires Produces(cfg, node, act, now).Some?
    ensures
      var o := Produces(cfg, node, act, now).value.1;
      o.raised || Held(cfg, node.catalog, o.data, now)
  {
    match act {
      case Create(gate, space, tokens, days, tool) => GenerateSturdy(cfg, gate, space, tokens, days, now, tool);
      case Fetch(id, tool) => LoadHeld(cfg, node, node.rows[id].blob, now, tool);
      case Pay(r, p, tool) =>
        hide AddPayment, Sturdy, Passing;
        if Sturdy(cfg, r) {
          AddPaymentSturdy(cfg, GateOf(node, r), r, p, now, tool);
        } else {
          PaidPassing(cfg, node.catalog, r, p, now, tool);
        }
      case Refresh(r, tool) => RefreshHeld(cfg, node, r, now, tool);
      case Prepare(r, wg) =>
      case SaveCopy(_) =>
    }
  }

  lemma {:induction false} LoadHeld(cfg: Config, node: Node, r: SessionData, now: int, tool: Tool)
    requires cfg.site.Server? && now >= 1 && StoredWell(cfg, node.catalog, r, now)
    ensures Held(cfg, node.catalog, LoadAt(cfg, node, r, now, tool).data, now)
  {
    if Sturdy(cfg, r) {
      LoadSturdy(cfg, GateOf(node, r), node.catalog.spaces(r.spaceid), r, now, tool);
    }
  }

  lemma {:induction false} RefreshHeld(cfg: Config, node: Node, r: SessionData, now: int, tool: Tool)
    requires cfg.site.Server? && now >= 1 && Held(cfg, node.catalog, r, now)
    ensures
      var o := Activate(cfg.site, GateOf(node, r), r, now, tool);
      o.raised || Held(cfg, node.catalog, o.data, now)
  {
    if Sturdy(cfg, r) {
      ActivateSturdy(cfg, GateOf(node, r), r, now, tool);
    }
  }

  lemma {:induction false} SavedHeld(
    cfg: Config, catalog: Catalog, rows: Rows, rs: seq<SessionData>, r: SessionData, now: int)
    requires forall id :: id in rows ==> StoredWell(cfg, catalog, rows[id].blob, now)
    requires Held(cfg, catalog, r, now) && forall i :: 0 <= i < |rs| ==> rs[i] == r
    ensures forall id :: id in SavedAll(rows, rs, now) ==>
              StoredWell(cfg, catalog, SavedAll(rows, rs, now)[id].blob, now)
  {
    if |rs| > 0 {
      SavedHeld(cfg, catalog, rows, rs[..|rs| - 1], r, now);
    }
  }

  lemma {:induction false} ActHeld(cfg: Config, node: Node, act: Action, now: int)
    requires cfg.site.Server? && now >= 1 && AllHeld(cfg, node, now) && Sane(cfg, AtServer(act)) && !act.Publish?
    ensures AllHeld(cfg, Act(cfg, node, act, now), now) && Act(cfg, node, act, now).catalog == node.catalog
  {
    hide Held, StoredWell, Produces, Sane;
    if Produces(cfg, node, act, now).Some? && !act.Delete? && !act.CleanUp? {
      var o := Produces(cfg, node, act, now).value.1;
      ProducedHeld(cfg, node, act, now);
      SavesAreData(cfg, node, act, now);
      if !o.raised {
        SavedHeld(cfg, node.catalog, node.rows, o.saves, o.data, now);
      }
    }
  }

  lemma {:induction false} RunHeld(sys: System, s: State, rest: seq<Step>)
    requires sys.server.site.Server? && s.now >= 1 && AllHeld(sys.server, s.server, s.now) && Follows(sys.server, rest)
    ensures
      var t := Run(sys, s, rest);
      t.now >= s.now && AllHeld(sys.server, t.server, t.now) && t.server.catalog == s.server.catalog
  {
    if |rest| > 0 {
      var before, last := rest[..|rest| - 1], rest[|rest| - 1];
      RunHeld(sys, s, before);
      var t := Run(sys, s, before);
      assert Sane(sys.server, last) && !Publishes(last);
      match last {
        case AtServer(act) => ActHeld(sys.server, t.server, act, t.now);
        case Tick(to) => HeldLater(sys.server, t.server, t.now, if to > t.now then to else t.now);
        case _ =>
      }
    }
  }

  lemma {:induction false} HeldLater(cfg: Config, node: Node, now: int, later: int)
    requires AllHeld(cfg, node, now) && now <= later
    ensures AllHeld(cfg, node, later)
  {
    assert forall r :: Passing(cfg, node.catalog, r, now) ==> Passing(cfg, node.catalog, r, later);
  }

  // A harmless request makes a record that is held.
  lemma {:induction false} HarmlessHeld(
    cfg: Config, catalog: Catalog, gate: Gate, space: Space, tokens: Tokens, days: int, now: int)
    requires cfg.site.Server? && now >= 1 && Listed(catalog, gate, space) && Harmless(cfg, gate, space, days)
    requires DaysOf(cfg, IsFree(gate, space), days).Some?
    ensures Held(cfg, catalog, NewRecord(cfg, gate, space, tokens, days, now), now)
  {
    if Share(cfg.settings, FirstPrice(gate, space, DaysOf(cfg, IsFree(gate, space), days).value)) >= 0.0 {
      GenerateSturdy(cfg, gate, space, tokens, days, now, Works);
    } else {
      hide Share, ListPrice, Offers, Missing, Sum;
    }
  }

  lemma {:induction false} RunFrom(sys: System, s: State, first: Step, rest: seq<Step>)
    ensures Run(sys, s, [first] + rest) == Run(sys, Next(sys, s, first), rest)
  {
    var all := [first] + rest;
    if |rest| == 0 {
      assert all[..0] == [] && Run(sys, s, []) == s;
    } else {
      assert all[..|all| - 1] == [first] + rest[..|rest| - 1];
      RunFrom(sys, s, first, rest[..|rest| - 1]);
    }
  }

  lemma {:induction false} LawKept(
    sys: System, catalog: Catalog, gate: Gate, space: Space, tokens: Tokens, days: int, now: int, rest: seq<Step>)
    requires sys.server.site.Server? && now >= 1 && Listed(catalog, gate, space) && Follows(sys.server, rest)
    requires DaysOf(sys.server, IsFree(gate, space), days).Some? && Harmless(sys.server, gate, space, days)
    ensures
      var create := AtServer(Create(gate, space, tokens, days, Works));
      LawHolds(sys, Run(sys, Start(now, catalog), [create] + rest))
  {
    var create := AtServer(Create(gate, space, tokens, days, Works));
    var s1 := Next(sys, Start(now, catalog), create);
    RunFrom(sys, Start(now, catalog), create, rest);
    CreatedHeld(sys, catalog, gate, space, tokens, days, now);
    HarmlessHeld(sys.server, catalog, gate, space, tokens, days, now);
    CreatedStored(sys, catalog, gate, space, tokens, days, now);
    hide Harmless, NewRecord, Next;
    RunHeld(sys, s1, rest);
  }

  lemma {:induction false} CreatedStored(
    sys: System, catalog: Catalog, gate: Gate, space: Space, tokens: Tokens, days: int, now: int)
    requires sys.server.site.Server? && now >= 1 && DaysOf(sys.server, IsFree(gate, space), days).Some?
    requires Held(sys.server, catalog, NewRecord(sys.server, gate, space, tokens, days, now), now)
    ensures
      var s1 := Next(sys, Start(now, catalog), AtServer(Create(gate, space, tokens, days, Works)));
      forall id :: id in s1.server.rows ==> StoredWell(sys.server, catalog, s1.server.rows[id].blob, now)
  {
    var act := Create(gate, space, tokens, days, Works);
    SavesAreData(sys.server, Empty(catalog), act, now);
    var o := Produces(sys.server, Empty(catalog), act, now).value.1;
    hide Generate, Held, StoredWell;
    SavedHeld(sys.server, catalog, map[], o.saves, o.data, now);
  }

  lemma {:induction false} LawBroken(
    sys: System, catalog: Catalog, gate: Gate, space: Space, tokens: Tokens, days: int, now: int)
    returns (rest: seq<Step>)
    requires sys.server.site.Server? && now >= 1 && sys.server.unpaidExpiry > 0 && Listed(catalog, gate, space)
    requires DaysOf(sys.server, IsFree(gate, space), days).Some? && !Harmless(sys.server, gate, space, days)
    ensures Follows(sys.server, rest)
    ensures
      var create := AtServer(Create(gate, space, tokens, days, Works));
      !LawHolds(sys, Run(sys, Start(now, catalog), [create] + rest))
  {
    var cfg := sys.server;
    var n := ReloadsBreak(cfg, gate, space, tokens, days, now);
    ReloadsReach(sys, catalog, gate, space, tokens, days, now, n);
    ReloadsSane(cfg, gate, space, tokens, days, now, n);
    var steps := Reloads(cfg, gate, space, tokens, days, now, n);
    rest := steps[1..];
    assert [steps[0]] + rest == steps;
  }

  // The exact condition, for paid and free sessions alike: once a session has been asked
  // for, the law survives every sane continuation exactly when the contributions offered of
  // its first price are not negative in sum, or it comes to no day or less on a gate other
  // than WireGuard.
  lemma {:induction false} LawSurvivesIff(
    sys: System, catalog: Catalog, gate: Gate, space: Space, tokens: Tokens, days: int, now: int)
    requires sys.server.site.Server? && now >= 1 && sys.server.unpaidExpiry > 0 && Listed(catalog, gate, space)
    requires DaysOf(sys.server, IsFree(gate, space), days).Some?
    ensures
      var create := AtServer(Create(gate, space, tokens, days, Works));
      var d := DaysOf(sys.server, IsFree(gate, space), days).value;
      (forall rest :: Follows(sys.server, rest) ==> LawHolds(sys, Run(sys, Start(now, catalog), [create] + rest))) <==>
      Share(sys.server.settings, FirstPrice(gate, space, d)) >= 0.0 || (gate.tpe != "wg" && d <= 0)
  {
    var create := AtServer(Create(gate, space, tokens, days, Works));
    if Harmless(sys.server, gate, space, days) {
      forall rest | Follows(sys.server, rest)
        ensures LawHolds(sys, Run(sys, Start(now, catalog), [create] + rest))
      {
        LawKept(sys, catalog, gate, space, tokens, days, now, rest);
      }
    } else {
      var rest := LawBroken(sys, catalog, gate, space, tokens, days, now);
    }
  }

  // The methods a record goes through, on either side, in any order.
  datatype Call =
    | CallPay(gate: Gate, p: Payment, now: int, tool: Tool)
    | CallActivate(gate: Gate, now: int, tool: Tool)
    | CallLoad(gate: Gate, space: Space, now: int, tool: Tool)
    | CallPrepare(wg: WgData)

  function Called(cfg: Config, r: SessionData, c: Call): SessionData
  {
    match c
    case CallPay(gate, p, now, tool) => AddPayment(cfg.site, gate, r, p, now, tool).data
    case CallActivate(gate, now, tool) => Activate(cfg.site, gate, r, now, tool).data
    case CallLoad(gate, space, now, tool) => Load(cfg, gate, space, r, now, tool).data
    case CallPrepare(wg) => r.(wg := Some(wg))
  }

  function CalledAll(cfg: Config, r: SessionData, cs: seq<Call>): SessionData
  {
    if |cs| == 0 then r else Called(cfg, CalledAll(cfg, r, cs[..|cs| - 1]), cs[|cs| - 1])
  }

  // Once active, a record keeps its activation time and expiry for good.
  lemma {:induction false} ActivationIsFinal(cfg: Config, r: SessionData, cs: seq<Call>)
    requires r.activated != 0
    ensures
      var q := CalledAll(cfg, r, cs);
      q.activated == r.activated && q.expires == r.expires && q.sessionid == r.sessionid && q.days == r.days
  {
    if |cs| > 0 {
      ActivationIsFinal(cfg, r, cs[..|cs| - 1]);
    }
  }

  // Nothing keeps the days of a request positive, and with a negative number the law
  // fails: a percentage of a negative price is negative, so every load raises the price,
  // and a session that counted as paid no longer covers it.
  lemma {:induction false} NegativeDaysBreakTheLaw(cfg: Config, tokens: Tokens, now: int)
    requires cfg.site.Server? && cfg.settings == [Setting("w", "dev", Percent(60.0))]
    ensures
      var gate, space := Gate("g", "wg", 10.0), Space("s", 0.0);
      var created := Generate(cfg, gate, space, tokens, -1, now, Works).value.data;
      var credited := AddPayment(cfg.site, gate, created, Payment(0.0, 1, "t"), now, Works).data;
      var loaded := Load(cfg, gate, space, credited, now, Works).data;
      loaded.paid && Total(loaded.payments) < loaded.price
  {
    var gate, space := Gate("g", "wg", 10.0), Space("s", 0.0);
    var created := Generate(cfg, gate, space, tokens, -1, now, Works).value.data;
    assert ListPrice(gate, space, -1) == -10.0;
    OneShare(cfg.settings, Blank(cfg, gate, space, tokens, -1, -10.0, now));
    assert created.price == -4.0;
    hide WithContributions, Generate;
    var credited := AddPayment(cfg.site, gate, created, Payment(0.0, 1, "t"), now, Works).data;
    TotalPush([], Payment(0.0, 1, "t"));
    assert [] + [Payment(0.0, 1, "t")] == [Payment(0.0, 1, "t")];
    assert credited == created.(payments := [Payment(0.0, 1, "t")], paid := true);
    SameShare(cfg.settings, credited);
  }

  const SHARE := Contribution("w", "dev.server", -6.0)

  lemma {:induction false} OneShare(settings: seq<Setting>, r: SessionData)
    requires settings == [Setting("w", "dev", Percent(60.0))] && r.contributions == [] && r.price == -10.0
    ensures WithContributions(settings, false, r) == r.(contributions := [SHARE], price := -4.0)
  {
    var offers := Offers(settings, r.price, false);
    assert offers[0] == SHARE;
    assert offers == [SHARE];
    assert Missing(offers[..0], []) == [];
    assert Missing(offers, []) == [SHARE];
    SumOne();
  }

  lemma {:induction false} SameShare(settings: seq<Setting>, r: SessionData)
    requires settings == [Setting("w", "dev", Percent(60.0))] && r.contributions == [SHARE] && r.price == -4.0
    ensures WithContributions(settings, false, r) == r.(price := 2.0)
  {
    var offers := Offers(settings, r.price, false);
    assert offers[0].purpose == SHARE.purpose && |offers| == 1;
    assert r.contributions[0].purpose == SHARE.purpose;
    assert Missing(offers[..0], r.contributions) == [];
    assert r.contributions + [] == r.contributions;
    SumOne();
  }

  lemma {:induction false} SumOne()
    ensures Sum([SHARE]) == -6.0
  {
    assert [SHARE][..0] == [];
  }

  // After a cleanup no row that expired before it is ever live again, whatever copies
  // are saved later by whichever process.
  lemma {:induction false} ExpiredStayGone(sys: System, s: State, steps: seq<Step>)
    ensures
      var after := Next(sys, s, AtServer(CleanUp));
      Run(sys, after, steps).now >= s.now && LiveSince(Run(sys, after, steps).server.rows, s.now)
  {
    if |steps| > 0 {
      var before := steps[..|steps| - 1];
      ExpiredStayGone(sys, s, before);
      var m := Run(sys, Next(sys, s, AtServer(CleanUp)), before);
      match steps[|steps| - 1] {
        case AtServer(act) =>
          var w := Produces(sys.server, m.server, act, m.now);
          if w.Some? {
            SavedAllLive(m.server.rows, w.value.1.saves, s.now, m.now);
          }
        case _ =>
      }
    }
  }

  lemma {:induction false} SavedAllLive(rows: Rows, rs: seq<SessionData>, t: int, now: int)
    requires LiveSince(rows, t) && now >= t
    ensures LiveSince(SavedAll(rows, rs, now), t)
  {
    if |rs| > 0 {
      SavedAllLive(rows, rs[..|rs| - 1], t, now);
    }
  }
}
