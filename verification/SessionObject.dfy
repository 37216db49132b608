/**
  The Session object of lib/session.py: one record updated in place, saved to the
  table as it goes.  Every method is proved equal to its function in SessionRecord.
 */
module SessionObject {
  import opened Basics
  import opened SessionRecord
  import opened SessionTable

  class Session {
    const gate: Gate
    const space: Space
    var data: SessionData

    constructor (gate: Gate, space: Space, data: SessionData)
      ensures this.gate == gate && this.space == space && this.data == data
    {
      this.gate, this.space, this.data := gate, space, data;
    }

    method GetPayment() returns (paid: real)
      ensures paid == Total(data.payments)
    {
      paid := 0.0;
      for i := 0 to |data.payments|
        invariant paid == Total(data.payments[..i])
      {
        assert data.payments[..i + 1][..i] == data.payments[..i];
        paid := paid + data.payments[i].amount;
      }
      assert data.payments[..|data.payments|] == data.payments;
    }

    method GetContributionsPrice() returns (price: real)
      ensures price == Sum(data.contributions)
    {
      price := 0.0;
      for i := 0 to |data.contributions|
        invariant price == Sum(data.contributions[..i])
      {
        assert data.contributions[..i + 1][..i] == data.contributions[..i];
        price := price + data.contributions[i].price;
      }
      assert data.contributions[..|data.contributions|] == data.contributions;
    }

    // The purposes among `carr` that `present` already holds.
    static method PurposesToSkip(present: seq<Contribution>, carr: seq<Contribution>)
      returns (willSkip: seq<string>)
      ensures forall k :: 0 <= k < |carr| ==> (carr[k].purpose in willSkip <==> HasPurpose(present, carr[k].purpose))
    {
      willSkip := [];
      for i := 0 to |present|
        invariant forall p :: p in willSkip ==> HasPurpose(present, p)
        invariant forall h, k :: 0 <= h < i && 0 <= k < |carr| && present[h].purpose == carr[k].purpose
                    ==> carr[k].purpose in willSkip
      {
        for j := 0 to |carr|
          invariant forall p :: p in willSkip ==> HasPurpose(present, p)
          invariant forall h, k :: 0 <= h < i && 0 <= k < |carr| && present[h].purpose == carr[k].purpose
                      ==> carr[k].purpose in willSkip
          invariant forall k :: 0 <= k < j && present[i].purpose == carr[k].purpose ==> carr[k].purpose in willSkip
        {
          if carr[j].purpose == present[i].purpose {
            willSkip := willSkip + [carr[j].purpose];
          }
        }
      }
    }

    static method Offered(settings: seq<Setting>, price: real, increase: bool) returns (carr: seq<Contribution>)
      ensures carr == Offers(settings, price, increase)
    {
      carr := [];
      for i := 0 to |settings|
        invariant carr == Offers(settings, price, increase)[..i]
      {
        carr := carr + [Offer(settings[i], price, increase)];
      }
    }

    method AddContributions(settings: seq<Setting>, increase: bool)
      modifies this`data
      ensures data == WithContributions(settings, increase, old(data))
    {
      if settings == [] {
        return;
      }
      var carr := Offered(settings, data.price, increase);
      var willSkip := PurposesToSkip(data.contributions, carr);
      AppendOthers(carr, willSkip);
      var sum := GetContributionsPrice();
      if increase {
        data := data.(price := data.price + sum);
      } else {
        data := data.(price := data.price - sum);
      }
    }

    method AppendOthers(carr: seq<Contribution>, willSkip: seq<string>)
      requires forall k :: 0 <= k < |carr| ==>
                 (carr[k].purpose in willSkip <==> HasPurpose(data.contributions, carr[k].purpose))
      modifies this`data
      ensures data == old(data).(contributions := old(data).contributions + Missing(carr, old(data).contributions))
    {
      ghost var present := data.contributions;
      for i := 0 to |carr|
        invariant data == old(data).(contributions := present + Missing(carr[..i], present))
      {
        assert carr[..i + 1][..i] == carr[..i];
        if carr[i].purpose !in willSkip {
          data := data.(contributions := data.contributions + [carr[i]]);
        }
      }
      assert carr[..|carr|] == carr;
    }

    method Save(db: SessionDb, now: int)
      modifies db
      ensures db.rows == Saved(old(db.rows), data, now)
    {
      db.Save(data, now);
    }

    method Activate(db: SessionDb, site: Site, now: int, tool: Tool) returns (ok: bool, raised: bool)
      modifies this`data, db
      ensures
        var o := SessionRecord.Activate(site, gate, old(data), now, tool);
        data == o.data && db.rows == SavedAll(old(db.rows), o.saves, now) && ok == o.ok && raised == o.raised
    {
      ok, raised := false, false;
      var payment := GetPayment();
      if payment >= data.price && data.activated == 0 {
        match GateActivates(site, gate, data, tool) {
          case Refused =>
          case Raised =>
            raised := true;
          case Granted =>
            data := data.(expires := now + data.days * SECONDS_PER_DAY);
            data := data.(activated := now);
            Save(db, now);
            ok := true;
            SavedPush(old(db.rows), [], data, now);
            assert [] + [data] == [data];
        }
      }
    }

    method IsProcessed(height: int, txid: string) returns (known: bool)
      ensures known == HasPayment(data.payments, height, txid)
    {
      for i := 0 to |data.payments|
        invariant forall k :: 0 <= k < i ==> !(data.payments[k].height == height && data.payments[k].txid == txid)
      {
        if data.payments[i].height == height && data.payments[i].txid == txid {
          return true;
        }
      }
      return false;
    }

    method AddPayment(db: SessionDb, site: Site, p: Payment, now: int, tool: Tool) returns (ok: bool, raised: bool)
      modifies this`data, db
      ensures
        var o := SessionRecord.AddPayment(site, gate, old(data), p, now, tool);
        data == o.data && db.rows == SavedAll(old(db.rows), o.saves, now) && ok == o.ok && raised == o.raised
    {
      ok, raised := false, false;
      var known := IsProcessed(p.height, p.txid);
      if known {
        return;
      }
      data := data.(payments := data.payments + [p]);
      ghost var saves: seq<SessionData> := [];
      var payment := GetPayment();
      if payment >= data.price {
        data := data.(paid := true);
        saves := SessionRecord.Activate(site, gate, data, now, tool).saves;
        var _, broke := Activate(db, site, now, tool);
        if broke {
          raised := true;
          return;
        }
      } else {
        data := data.(paid := false);
        assert saves + [data] == [data];
      }
      SavedPush(old(db.rows), saves, data, now);
      Save(db, now);
      ok := true;
    }

    method Generate(db: SessionDb, cfg: Config, tokens: Tokens, days: int, now: int, tool: Tool)
      returns (raised: bool)
      modifies this`data, db
      ensures
        match SessionRecord.Generate(cfg, gate, space, tokens, days, now, tool)
        case Err(_) => raised && data == old(data) && db.rows == old(db.rows)
        case Ok(o) => data == o.data && db.rows == SavedAll(old(db.rows), o.saves, now) && raised == o.raised
    {
      raised := false;
      var free := IsFree(gate, space);
      var effective := DaysOf(cfg, free, days);
      if effective.None? {
        raised := true;
        return;
      }
      data := Blank(cfg, gate, space, tokens, effective.value, 0.0, now);
      if free {
        if gate.tpe != "wg" {
          var _, broke := Activate(db, cfg.site, now, tool);
          raised := broke;
        }
      } else {
        data := data.(price := ListPrice(gate, space, data.days));
        AddContributions(cfg.settings, cfg.site.Client?);
      }
    }

    // The part of the constructor that runs when a stored or received record is loaded.
    method Load(db: SessionDb, cfg: Config, now: int, tool: Tool) returns (raised: bool)
      modifies this`data, db
      ensures
        var o := SessionRecord.Load(cfg, gate, space, old(data), now, tool);
        data == o.data && db.rows == SavedAll(old(db.rows), o.saves, now) && raised == o.raised
    {
      raised := false;
      if IsFree(gate, space) && gate.tpe == "wg" && data.wg.Some? && data.activated == 0 {
        var _, broke := Activate(db, cfg.site, now, tool);
        raised := broke;
      } else {
        AddContributions(cfg.settings, cfg.site.Client?);
      }
    }
  }

  lemma {:induction false} SavedPush(rows: Rows, rs: seq<SessionData>, r: SessionData, now: int)
    ensures SavedAll(rows, rs + [r], now) == Saved(SavedAll(rows, rs, now), r, now)
  {
    assert (rs + [r])[..|rs|] == rs;
  }
}
