/**
  The session record of lib/session.py and what its methods do to it, as
  functions on values.  SessionObject.dfy proves the in-place methods equal to
  these functions; the laws about whole runs are proved on the functions.
 */
module SessionRecord {
  import opened Basics

  const SECONDS_PER_DAY := 3600 * 24

  datatype Payment = Payment(amount: real, height: int, txid: string)

  datatype Contribution = Contribution(wallet: string, purpose: string, price: real)

  // One comma separated part of the `contributions` setting, already split.
  datatype Amount = Percent(rate: real) | Flat(coins: real)
  datatype Setting = Setting(wallet: string, purpose: string, amount: Amount)

  // What a WireGuard session stores under "wg"; `ipv4` is None when the pool was full.
  datatype WgData = WgData(clientKey: string, endpoint: string, ipv4: Option<int>)

  datatype SessionData = SessionData(
    sessionid: string,
    spaceid: string,
    gateid: string,
    paymentid: string,
    created: int,
    expires: int,
    activated: int,
    days: int,
    price: real,
    paid: bool,
    payments: seq<Payment>,
    contributions: seq<Contribution>,
    wg: Option<WgData>)

  datatype Gate = Gate(id: string, tpe: string, price: real)
  datatype Space = Space(id: string, price: real)

  // The gates and spaces the descriptor database knows by their ids.
  datatype Catalog = Catalog(gates: string -> Gate, spaces: string -> Space)

  datatype Site = Server | Client

  datatype Config = Config(
    site: Site,
    unpaidExpiry: int,
    settings: seq<Setting>,
    freeSessionDays: Option<int>,
    autoPayDays: int)

  // Whether the external commands run by an activation succeed or raise.
  datatype Tool = Works | Breaks

  datatype Grant = Granted | Refused | Raised

  // The record after a call, the records handed to `save` on the way, and how the call ended.
  datatype Outcome = Outcome(data: SessionData, saves: seq<SessionData>, raised: bool, ok: bool)

  // ---- sums -----------------------------------------------------------------

  function Total(payments: seq<Payment>): real
  {
    if |payments| == 0 then 0.0
    else Total(payments[..|payments| - 1]) + payments[|payments| - 1].amount
  }

  function Sum(contributions: seq<Contribution>): real
  {
    if |contributions| == 0 then 0.0
    else Sum(contributions[..|contributions| - 1]) + contributions[|contributions| - 1].price
  }

  lemma {:induction false} TotalPush(payments: seq<Payment>, p: Payment)
    ensures Total(payments + [p]) == Total(payments) + p.amount
  {
    assert (payments + [p])[..|payments|] == payments;
  }

  // ---- contributions --------------------------------------------------------

  predicate HasPurpose(contributions: seq<Contribution>, purpose: string)
  {
    exists i :: 0 <= i < |contributions| && contributions[i].purpose == purpose
  }

  function SitePurpose(purpose: string, increase: bool): string
  {
    purpose + (if increase then ".client" else ".server")
  }

  function Offer(s: Setting, price: real, increase: bool): Contribution
  {
    Contribution(
      s.wallet,
      SitePurpose(s.purpose, increase),
      match s.amount
      case Percent(rate) => price * (rate / 100.0)
      case Flat(coins) => coins)
  }

  function Offers(settings: seq<Setting>, price: real, increase: bool): seq<Contribution>
  {
    seq(|settings|, i requires 0 <= i < |settings| => Offer(settings[i], price, increase))
  }

  // The offers whose purpose is not among `present`, in order.
  function Missing(offers: seq<Contribution>, present: seq<Contribution>): seq<Contribution>
  {
    if |offers| == 0 then []
    else
      var last := offers[|offers| - 1];
      var before := Missing(offers[..|offers| - 1], present);
      if HasPurpose(present, last.purpose) then before else before + [last]
  }

  function WithContributions(settings: seq<Setting>, increase: bool, r: SessionData): SessionData
  {
    if settings == [] then r
    else
      var cs := r.contributions + Missing(Offers(settings, r.price, increase), r.contributions);
      r.(contributions := cs,
         price := if increase then r.price + Sum(cs) else r.price - Sum(cs))
  }

  // ---- activation and payment -------------------------------------------------

  predicate IsFree(gate: Gate, space: Space)
  {
    space.price + gate.price == 0.0
  }

  // Gateway.activate_server answers False only for a WireGuard session without its data;
  // Gateway.activate_client has no path that returns a true value.
  function GateActivates(site: Site, gate: Gate, r: SessionData, tool: Tool): Grant
  {
    match site
    case Server =>
      if gate.tpe == "wg" && r.wg.None? then Refused
      else if tool.Works? then Granted else Raised
    case Client =>
      if gate.tpe == "wg" && r.wg.Some? && tool.Breaks? then Raised else Refused
  }

  function Activated(r: SessionData, now: int): SessionData
  {
    r.(expires := now + r.days * SECONDS_PER_DAY, activated := now)
  }

  function Activate(site: Site, gate: Gate, r: SessionData, now: int, tool: Tool): (o: Outcome)
    ensures o.data.sessionid == r.sessionid && o.data.days == r.days && o.data.created == r.created
    ensures forall i :: 0 <= i < |o.saves| ==> o.saves[i] == o.data
    ensures site.Client? || r.activated != 0 ==> o.data.activated == r.activated
  {
    if Total(r.payments) >= r.price && r.activated == 0 then
      match GateActivates(site, gate, r, tool)
      case Granted => Outcome(Activated(r, now), [Activated(r, now)], false, true)
      case Refused => Outcome(r, [], false, false)
      case Raised => Outcome(r, [], true, false)
    else
      Outcome(r, [], false, false)
  }

  predicate HasPayment(payments: seq<Payment>, height: int, txid: string)
  {
    exists i :: 0 <= i < |payments| && payments[i].height == height && payments[i].txid == txid
  }

  function AddPayment(site: Site, gate: Gate, r: SessionData, p: Payment, now: int, tool: Tool): (o: Outcome)
    ensures o.data.sessionid == r.sessionid && o.data.days == r.days && o.data.created == r.created
    ensures forall i :: 0 <= i < |o.saves| ==> o.saves[i] == o.data
    ensures site.Client? || r.activated != 0 ==> o.data.activated == r.activated
  {
    if HasPayment(r.payments, p.height, p.txid) then
      Outcome(r, [], false, false)
    else
      var credited := r.(payments := r.payments + [p]);
      if Total(credited.payments) >= r.price then
        var a := Activate(site, gate, credited.(paid := true), now, tool);
        if a.raised then a else Outcome(a.data, a.saves + [a.data], false, true)
      else
        var unpaid := credited.(paid := false);
        Outcome(unpaid, [unpaid], false, true)
  }

  // What `Session(data)` does to a record it is handed: a paid-for free WireGuard
  // session activates, any other record has the contributions applied once more.
  function Load(cfg: Config, gate: Gate, space: Space, r: SessionData, now: int, tool: Tool): (o: Outcome)
    ensures o.data.sessionid == r.sessionid && o.data.days == r.days && o.data.created == r.created
    ensures forall i :: 0 <= i < |o.saves| ==> o.saves[i] == o.data
    ensures cfg.site.Client? || r.activated != 0 ==> o.data.activated == r.activated
  {
    if IsFree(gate, space) && gate.tpe == "wg" && r.wg.Some? && r.activated == 0 then
      Activate(cfg.site, gate, r, now, tool)
    else
      Outcome(WithContributions(cfg.settings, cfg.site.Client?, r), [], false, true)
  }

  // ---- generation --------------------------------------------------------------

  datatype Tokens = Tokens(sessionid: string, paymentid: string)

  datatype GenerateError = MissingDays

  function DaysOf(cfg: Config, free: bool, days: int): Option<int>
  {
    if days != 0 then Some(days)
    else if free then cfg.freeSessionDays
    else if cfg.site.Client? then Some(cfg.autoPayDays)
    else None
  }

  function Blank(cfg: Config, gate: Gate, space: Space, tokens: Tokens, days: int, price: real, now: int): SessionData
  {
    SessionData(tokens.sessionid, space.id, gate.id, tokens.paymentid, now, now + cfg.unpaidExpiry, 0,
                days, price, false, [], [], None)
  }

  function ListPrice(gate: Gate, space: Space, days: int): real
  {
    (space.price + gate.price) * (days as real)
  }

  function Generate(cfg: Config, gate: Gate, space: Space, tokens: Tokens, days: int, now: int, tool: Tool)
    : (res: Result<Outcome, GenerateError>)
    ensures res.Ok? ==>
      && res.value.data.sessionid == tokens.sessionid
      && (forall i :: 0 <= i < |res.value.saves| ==> res.value.saves[i] == res.value.data)
      && (cfg.site.Client? ==> res.value.data.activated == 0)
  {
    match DaysOf(cfg, IsFree(gate, space), days)
    case None => Err(MissingDays)
    case Some(d) =>
      if IsFree(gate, space) then
        var r := Blank(cfg, gate, space, tokens, d, 0.0, now);
        if gate.tpe != "wg" then Ok(Activate(cfg.site, gate, r, now, tool))
        else Ok(Outcome(r, [], false, true))
      else
        var r := Blank(cfg, gate, space, tokens, d, ListPrice(gate, space, d), now);
        Ok(Outcome(WithContributions(cfg.settings, cfg.site.Client?, r), [], false, true))
  }
}
