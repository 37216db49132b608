/** What the contributions setting does to a record's price, over any number of loads. */
module Contributions {
  import opened Basics
  import opened SessionRecord

  // Every purpose of the setting is on the list.
  predicate Covered(settings: seq<Setting>, increase: bool, cs: seq<Contribution>)
  {
    forall i :: 0 <= i < |settings| ==> HasPurpose(cs, SitePurpose(settings[i].purpose, increase))
  }

  lemma {:induction false} MissingCovers(offers: seq<Contribution>, present: seq<Contribution>, k: nat)
    requires k < |offers|
    ensures HasPurpose(present + Missing(offers, present), offers[k].purpose)
  {
    var n := |offers| - 1;
    var last := offers[n];
    var before := Missing(offers[..n], present);
    if k < n {
      MissingCovers(offers[..n], present, k);
      assert offers[..n][k] == offers[k];
      var i :| 0 <= i < |present + before| && (present + before)[i].purpose == offers[k].purpose;
      assert (present + Missing(offers, present))[i] == (present + before)[i];
    } else if HasPurpose(present, last.purpose) {
      var i :| 0 <= i < |present| && present[i].purpose == last.purpose;
      assert (present + Missing(offers, present))[i] == present[i];
    } else {
      var all := present + Missing(offers, present);
      assert all[|all| - 1] == last;
    }
  }

  lemma {:induction false} NothingMissing(offers: seq<Contribution>, present: seq<Contribution>)
    requires forall k :: 0 <= k < |offers| ==> HasPurpose(present, offers[k].purpose)
    ensures Missing(offers, present) == []
  {
    if |offers| > 0 {
      var before := offers[..|offers| - 1];
      assert forall k :: 0 <= k < |before| ==> before[k] == offers[k];
      NothingMissing(before, present);
    }
  }

  lemma {:induction false} AppliedOnceCovers(settings: seq<Setting>, increase: bool, r: SessionData)
    ensures Covered(settings, increase, WithContributions(settings, increase, r).contributions)
  {
    var offers := Offers(settings, r.price, increase);
    forall i | 0 <= i < |settings|
      ensures HasPurpose(WithContributions(settings, increase, r).contributions,
                         SitePurpose(settings[i].purpose, increase))
    {
      MissingCovers(offers, r.contributions, i);
    }
  }

  lemma {:induction false} CoveredAddsNothing(settings: seq<Setting>, increase: bool, r: SessionData)
    requires Covered(settings, increase, r.contributions)
    ensures WithContributions(settings, increase, r).contributions == r.contributions
    ensures settings != [] ==>
              WithContributions(settings, increase, r).price ==
              if increase then r.price + Sum(r.contributions) else r.price - Sum(r.contributions)
  {
    var offers := Offers(settings, r.price, increase);
    assert forall k :: 0 <= k < |offers| ==> offers[k].purpose == SitePurpose(settings[k].purpose, increase);
    NothingMissing(offers, r.contributions);
  }

  function Applied(settings: seq<Setting>, increase: bool, r: SessionData, n: nat): SessionData
  {
    if n == 0 then r else WithContributions(settings, increase, Applied(settings, increase, r, n - 1))
  }

  function Repeated(n: nat, s: real): real
  {
    if n == 0 then 0.0 else Repeated(n - 1, s) + s
  }

  lemma {:induction false} RepeatedIsProduct(n: nat, s: real)
    ensures Repeated(n, s) == (n as real) * s
  {
    if n > 0 {
      RepeatedIsProduct(n - 1, s);
      var m := (n - 1) as real;
      assert n as real == m + 1.0;
      assert (m + 1.0) * s == m * s + s;
    }
  }

  // With the setting fixed the list is complete after one application, and n
  // applications move the price by n times the sum of that list.
  lemma {:induction false} RepeatedApplication(settings: seq<Setting>, increase: bool, r: SessionData, n: nat)
    requires n >= 1 && settings != []
    ensures
      var cs := WithContributions(settings, increase, r).contributions;
      && Applied(settings, increase, r, n).contributions == cs
      && Applied(settings, increase, r, n).price ==
         if increase then r.price + Repeated(n, Sum(cs)) else r.price - Repeated(n, Sum(cs))
  {
    if n == 1 {
      assert Applied(settings, increase, r, 0) == r;
      assert Repeated(0, Sum(WithContributions(settings, increase, r).contributions)) == 0.0;
    } else {
      RepeatedApplication(settings, increase, r, n - 1);
      AppliedOnceCovers(settings, increase, r);
      CoveredAddsNothing(settings, increase, Applied(settings, increase, r, n - 1));
    }
  }

  // A fresh paid record: what the customer pays and what the contributors get add
  // up to space and gate for the days on the server; the client pays the contributions on
  // top.  Only a server that is asked for no days refuses.
  lemma {:induction false} GeneratedPrice(
    cfg: Config, gate: Gate, space: Space, tokens: Tokens, days: int, now: int, tool: Tool)
    requires space.price + gate.price != 0.0
    ensures
      match Generate(cfg, gate, space, tokens, days, now, tool)
      case Err(_) => days == 0 && cfg.site.Server?
      case Ok(o) =>
        && !(days == 0 && cfg.site.Server?)
        && o.data.days == (if days == 0 then cfg.autoPayDays else days)
        && (space.price + gate.price) * (o.data.days as real) ==
           (if cfg.site.Client? then o.data.price - Sum(o.data.contributions)
            else o.data.price + Sum(o.data.contributions))
  {
  }

  // The rest of a fresh record, field by field, paid or free; a free one costs nothing, and
  // is active at once when it needs no WireGuard data and the activation goes through.
  lemma {:induction false} GeneratedRecord(
    cfg: Config, gate: Gate, space: Space, tokens: Tokens, days: int, now: int, tool: Tool)
    requires Generate(cfg, gate, space, tokens, days, now, tool).Ok?
    ensures
      var o := Generate(cfg, gate, space, tokens, days, now, tool).value;
      var r, free := o.data, space.price + gate.price == 0.0;
      var active := free && gate.tpe != "wg" && cfg.site.Server? && tool == Works;
      && r.sessionid == tokens.sessionid && r.paymentid == tokens.paymentid
      && r.spaceid == space.id && r.gateid == gate.id
      && r.created == now && !r.paid && r.payments == [] && r.wg == None
      && (free ==> r.price == 0.0 && r.contributions == [] && (days != 0 ==> r.days == days)
                   && (days == 0 ==> Some(r.days) == cfg.freeSessionDays))
      && r.activated == (if active then now else 0)
      && r.expires == (if active then now + 86400 * r.days else now + cfg.unpaidExpiry)
      && o.saves == (if active then [r] else [])
  {
    hide Offers, Missing, Sum, ListPrice;
  }

  // On the fields: the entry a setting asks for.
  predicate IsOffer(c: Contribution, s: Setting, price: real, suffix: string)
  {
    && c.wallet == s.wallet && c.purpose == s.purpose + suffix
    && (s.amount.Percent? ==> c.price == price * (s.amount.rate / 100.0))
    && (s.amount.Flat? ==> c.price == s.amount.coins)
  }

  lemma {:induction false} OffersAsked(settings: seq<Setting>, price: real, increase: bool, i: nat)
    requires i < |settings|
    ensures
      var suffix := if increase then ".client" else ".server";
      var c := Offers(settings, price, increase)[i];
      IsOffer(c, settings[i], price, suffix) && c.purpose == settings[i].purpose + suffix
  {
  }

  // The list an application leaves: the old one, then for every setting whose purpose was
  // not on it the entry it asks for, and nothing else.
  lemma {:induction false} ContributionsWrittenOut(settings: seq<Setting>, increase: bool, r: SessionData)
    ensures
      var cs := WithContributions(settings, increase, r).contributions;
      var suffix := if increase then ".client" else ".server";
      && r.contributions <= cs
      && (forall i :: 0 <= i < |settings| ==>
            || HasPurpose(r.contributions, settings[i].purpose + suffix)
            || exists c :: c in cs[|r.contributions|..] && IsOffer(c, settings[i], r.price, suffix))
      && (forall c :: c in cs[|r.contributions|..] ==>
            && !HasPurpose(r.contributions, c.purpose)
            && exists i :: 0 <= i < |settings| && IsOffer(c, settings[i], r.price, suffix))
  {
    var offers := Offers(settings, r.price, increase);
    var missing := Missing(offers, r.contributions);
    var suffix := if increase then ".client" else ".server";
    MissingFrom(offers, r.contributions);
    assert settings == [] ==> missing == [];
    var cs := WithContributions(settings, increase, r).contributions;
    assert cs == r.contributions + missing;
    assert cs[|r.contributions|..] == missing;
    hide WithContributions, Offers, Missing, HasPurpose, IsOffer;
    forall i | 0 <= i < |settings|
      ensures IsOffer(offers[i], settings[i], r.price, suffix) && offers[i].purpose == settings[i].purpose + suffix
      ensures HasPurpose(r.contributions, offers[i].purpose) || offers[i] in missing
    {
      OffersAsked(settings, r.price, increase, i);
      MissingHolds(offers, r.contributions, i);
    }
    forall c | c in missing
      ensures exists i :: 0 <= i < |settings| && IsOffer(c, settings[i], r.price, suffix)
    {
      var i :| 0 <= i < |offers| && offers[i] == c;
      assert IsOffer(offers[i], settings[i], r.price, suffix);
    }
  }

  lemma {:induction false} MissingHolds(offers: seq<Contribution>, present: seq<Contribution>, k: nat)
    requires k < |offers|
    ensures HasPurpose(present, offers[k].purpose) || offers[k] in Missing(offers, present)
  {
    if k < |offers| - 1 {
      MissingHolds(offers[..|offers| - 1], present, k);
    }
  }

  lemma {:induction false} MissingFrom(offers: seq<Contribution>, present: seq<Contribution>)
    ensures forall c :: c in Missing(offers, present) ==> c in offers && !HasPurpose(present, c.purpose)
  {
    if |offers| > 0 {
      MissingFrom(offers[..|offers| - 1], present);
    }
  }

  // What an activation does, on the fields: it goes through on a server, for an inactive
  // record that is paid for, when the commands work and a WireGuard session has its data;
  // it raises where the commands run and break; otherwise the record stays.
  lemma {:induction false} ActivationWhen(site: Site, gate: Gate, r: SessionData, now: int, tool: Tool)
    ensures
      var o := Activate(site, gate, r, now, tool);
      var due := Total(r.payments) >= r.price && r.activated == 0;
      var ready := gate.tpe != "wg" || r.wg.Some?;
      var runs := if site == Server then ready else gate.tpe == "wg" && r.wg.Some?;
      && (o.ok <==> due && site == Server && ready && tool == Works)
      && (o.raised <==> due && runs && tool == Breaks)
      && o.data == (if o.ok then r.(activated := now, expires := now + 86400 * r.days) else r)
      && o.saves == (if o.ok then [o.data] else [])
  {
  }

  // A load activates a free WireGuard session that has its data and is not active, and
  // applies the contributions to any other.
  lemma {:induction false} LoadWhen(cfg: Config, gate: Gate, space: Space, r: SessionData, now: int, tool: Tool)
    ensures
      var free := space.price + gate.price == 0.0;
      var o := Load(cfg, gate, space, r, now, tool);
      if free && gate.tpe == "wg" && r.wg.Some? && r.activated == 0
      then o == Activate(cfg.site, gate, r, now, tool)
      else o.saves == [] && !o.raised && o.data == WithContributions(cfg.settings, cfg.site == Client, r)
  {
  }

  lemma {:induction false} SentPrice(
    server: Config, gate: Gate, space: Space, tokens: Tokens, days: int, now: int, tool: Tool)
    requires space.price + gate.price != 0.0 && server.site.Server? && days != 0
    ensures
      var res := Generate(server, gate, space, tokens, days, now, tool);
      && res.Ok?
      && res.value.data.price + Sum(res.value.data.contributions) == (space.price + gate.price) * (days as real)
  {
    GeneratedPrice(server, gate, space, tokens, days, now, tool);
    assert Generate(server, gate, space, tokens, days, now, tool).value.data.days == days;
    hide *;
  }

  // A record fetched from the server and loaded by a client carries both lists:
  // the client is charged the list price plus its own contributions.
  lemma {:induction false} ServerThenClient(
    server: Config, client: Config, gate: Gate, space: Space, tokens: Tokens, days: int, now: int,
    there: Tool, here: Tool)
    requires space.price + gate.price != 0.0 && server.site.Server? && client.site.Client?
    requires days != 0 && client.settings != []
    ensures
      var sent := Generate(server, gate, space, tokens, days, now, there).value.data;
      var got := Load(client, gate, space, sent, now, here).data;
      && sent.contributions <= got.contributions
      && got.price == (space.price + gate.price) * (days as real) + Sum(got.contributions[|sent.contributions|..])
  {
    var sent := Generate(server, gate, space, tokens, days, now, there).value.data;
    SentPrice(server, gate, space, tokens, days, now, there);
    hide Generate, Sum, WithContributions;
    assert Load(client, gate, space, sent, now, here).data == WithContributions(client.settings, true, sent);
    hide *;
    ClientLoadPrice(client.settings, sent);
  }

  lemma {:induction false} ClientLoadPrice(settings: seq<Setting>, sent: SessionData)
    requires settings != []
    ensures
      var got := WithContributions(settings, true, sent);
      && sent.contributions <= got.contributions
      && got.price == sent.price + Sum(sent.contributions) + Sum(got.contributions[|sent.contributions|..])
  {
    var got := WithContributions(settings, true, sent);
    SumSplit(sent.contributions, got.contributions[|sent.contributions|..]);
    assert sent.contributions + got.contributions[|sent.contributions|..] == got.contributions;
  }

  lemma {:induction false} SumSplit(a: seq<Contribution>, b: seq<Contribution>)
    ensures Sum(a + b) == Sum(a) + Sum(b)
  {
    if |b| == 0 {
      assert a + b == a;
    } else {
      assert (a + b)[..|a + b| - 1] == a + b[..|b| - 1];
      SumSplit(a, b[..|b| - 1]);
    }
  }

  // ---- non-negative settings ------------------------------------------------------

  predicate NonNegative(settings: seq<Setting>)
  {
    forall i :: 0 <= i < |settings| ==>
      match settings[i].amount
      case Percent(rate) => rate >= 0.0
      case Flat(coins) => coins >= 0.0
  }

  predicate NonNegativeList(cs: seq<Contribution>)
  {
    forall i :: 0 <= i < |cs| ==> cs[i].price >= 0.0
  }

  lemma {:induction false} SumNonNegative(cs: seq<Contribution>)
    requires NonNegativeList(cs)
    ensures Sum(cs) >= 0.0
  {
    if |cs| > 0 {
      SumNonNegative(cs[..|cs| - 1]);
    }
  }

  lemma {:induction false} MissingNonNegative(offers: seq<Contribution>, present: seq<Contribution>)
    requires NonNegativeList(offers)
    ensures NonNegativeList(Missing(offers, present))
  {
    if |offers| > 0 {
      MissingNonNegative(offers[..|offers| - 1], present);
    }
  }

  lemma {:induction false} OfferNonNegative(s: Setting, price: real, increase: bool)
    requires price >= 0.0 && NonNegative([s])
    ensures Offer(s, price, increase).price >= 0.0
  {
    assert [s][0] == s;
    match s.amount
    case Percent(rate) => assert price * (rate / 100.0) >= 0.0;
    case Flat(_) =>
  }

  // On a server a load never raises the price and keeps the list non-negative,
  // provided the list is complete already or the price is not negative yet.
  lemma {:induction false} ServerLoadLowersPrice(settings: seq<Setting>, r: SessionData)
    requires NonNegative(settings) && NonNegativeList(r.contributions)
    requires Covered(settings, false, r.contributions) || r.price >= 0.0
    ensures
      var l := WithContributions(settings, false, r);
      && NonNegativeList(l.contributions)
      && l.price <= r.price
      && (settings != [] ==> Covered(settings, false, l.contributions))
  {
    AppliedOnceCovers(settings, false, r);
    if Covered(settings, false, r.contributions) {
      CoveredAddsNothing(settings, false, r);
      SumNonNegative(r.contributions);
    } else {
      var offers := Offers(settings, r.price, false);
      forall i | 0 <= i < |offers| ensures offers[i].price >= 0.0 {
        assert NonNegative([settings[i]]);
        OfferNonNegative(settings[i], r.price, false);
      }
      MissingNonNegative(offers, r.contributions);
      SumNonNegative(WithContributions(settings, false, r).contributions);
    }
  }
}
