/** Where the passes of a gate's service lead, and what a rekey between them changes. */
module WgReconcile {
  import opened Basics
  import opened SessionRecord
  import opened SessionTable
  import opened WgPool
  import opened WgServer

  predicate Lists(rows: Rows, order: seq<string>)
  {
    forall id :: id in rows ==> id in order
  }

  // The interface carries exactly the keys of the live active sessions.
  predicate Agrees(g: WgGate, w: World)
  {
    w.peers.Keys == LiveKeys(g, w.rows)
  }

  // A live active session besides `id` with the key.
  predicate HeldBeside(g: WgGate, rows: Rows, k: string, id: string)
  {
    exists other :: other in rows && other != id && Serves(g, rows[other]) && KeyOf(rows[other]) == k
  }

  // ---- convergence -----------------------------------------------------------------------

  lemma {:induction false} NeededIsLive(g: WgGate, rows: Rows, order: seq<string>)
    requires Indexed(rows) && Lists(rows, order)
    ensures NeededBy(g, rows, order).Keys == LiveKeys(g, rows)
  {
    NeededHolds(g, rows, order);
    var needed := NeededBy(g, rows, order);
    forall k | k in needed ensures k in LiveKeys(g, rows) {
      assert Holds(g, rows, k, needed[k]);
    }
  }

  // A session whose row is removed had the key it was removed for.
  lemma {:induction false} DeadHasKey(g: WgGate, w: World, order: seq<string>, now: int, id: string)
    requires Indexed(w.rows)
    ensures
      var needed := NeededBy(g, w.rows, order);
      var evicted := Evicted(g, w.peers, needed, now);
      id in IdsOf(needed, evicted) ==>
        && id in w.rows && Serves(g, w.rows[id])
        && KeyOf(w.rows[id]) in evicted && needed[KeyOf(w.rows[id])].sessionid == id
  {
    NeededHolds(g, w.rows, order);
    var needed := NeededBy(g, w.rows, order);
    var evicted := Evicted(g, w.peers, needed, now);
    if id in IdsOf(needed, evicted) {
      var k :| k in evicted && k in needed && needed[k].sessionid == id;
      assert Holds(g, w.rows, k, needed[k]);
    }
  }

  // After a pass the interface holds live keys only.
  lemma {:induction false} KeptIsLive(g: WgGate, w: World, order: seq<string>, now: int, k: string)
    requires Indexed(w.rows) && k in Passed(g, w, order, now).peers
    ensures k in LiveKeys(g, Passed(g, w, order, now).rows)
  {
    var needed := NeededBy(g, w.rows, order);
    NeededHolds(g, w.rows, order);
    assert Holds(g, w.rows, k, needed[k]);
    DeadHasKey(g, w, order, now, needed[k].sessionid);
    assert Serves(g, Passed(g, w, order, now).rows[needed[k].sessionid]);
  }

  // What it may lack are the keys of evicted sessions that another live session holds ...
  lemma {:induction false} LackingIsShared(g: WgGate, w: World, order: seq<string>, now: int, k: string)
    requires Indexed(w.rows) && Lists(w.rows, order)
    requires k in LiveKeys(g, Passed(g, w, order, now).rows) && k !in Passed(g, w, order, now).peers
    ensures
      var needed := NeededBy(g, w.rows, order);
      k in Evicted(g, w.peers, needed, now) && HeldBeside(g, w.rows, k, needed[k].sessionid)
  {
    var needed := NeededBy(g, w.rows, order);
    var after := Passed(g, w, order, now);
    NeededIsLive(g, w.rows, order);
    var id :| id in after.rows && Serves(g, after.rows[id]) && KeyOf(after.rows[id]) == k;
    assert Serves(g, w.rows[id]) && KeyOf(w.rows[id]) == k;
    assert k in LiveKeys(g, w.rows);
    assert needed[k].sessionid in IdsOf(needed, Evicted(g, w.peers, needed, now));
  }

  // ... and those it does lack.
  lemma {:induction false} SharedIsLacking(g: WgGate, w: World, order: seq<string>, now: int, k: string)
    requires Indexed(w.rows) && Lists(w.rows, order)
    requires
      var needed := NeededBy(g, w.rows, order);
      k in Evicted(g, w.peers, needed, now) && HeldBeside(g, w.rows, k, needed[k].sessionid)
    ensures k in LiveKeys(g, Passed(g, w, order, now).rows) && k !in Passed(g, w, order, now).peers
  {
    var needed := NeededBy(g, w.rows, order);
    var other :| other in w.rows && other != needed[k].sessionid
                 && Serves(g, w.rows[other]) && KeyOf(w.rows[other]) == k;
    DeadHasKey(g, w, order, now, other);
    assert Serves(g, Passed(g, w, order, now).rows[other]);
  }

  // A pass that completes reaches agreement exactly when no evicted key is held by a
  // second session.
  lemma {:induction false} CompletePass(g: WgGate, w: World, order: seq<string>, now: int)
    requires Indexed(w.rows) && Lists(w.rows, order)
    ensures Agrees(g, Passed(g, w, order, now)) <==> NoneShared(g, w, order, now)
  {
    var needed := NeededBy(g, w.rows, order);
    var after := Passed(g, w, order, now);
    if k :| k in Evicted(g, w.peers, needed, now) && HeldBeside(g, w.rows, k, needed[k].sessionid) {
      SharedIsLacking(g, w, order, now, k);
    } else {
      forall k | k in after.peers ensures k in LiveKeys(g, after.rows) {
        KeptIsLive(g, w, order, now, k);
      }
      forall k | k in LiveKeys(g, after.rows) ensures k in after.peers {
        if k !in after.peers {
          LackingIsShared(g, w, order, now, k);
          assert false;
        }
      }
    }
  }

  // No key that the pass evicts is held by a second live session.
  predicate NoneShared(g: WgGate, w: World, order: seq<string>, now: int)
  {
    var needed := NeededBy(g, w.rows, order);
    forall k :: k in Evicted(g, w.peers, needed, now) ==> !HeldBeside(g, w.rows, k, needed[k].sessionid)
  }

  // A pass that raises leaves a live key without its peer.
  lemma {:induction false} RaisedDisagrees(g: WgGate, w: World, order: seq<string>, now: int, after: World)
    requires Indexed(w.rows) && PassEnds(g, w, order, now, after, true)
    ensures !Agrees(g, after)
  {
    var needed := NeededBy(g, w.rows, order);
    var k :| k in needed && k !in w.peers && k !in after.peers && Addressless(needed[k]);
    KeptIsLive(g, w, order, now, k);
  }

  // One pass, however it ends, reaches agreement exactly when it does not raise and no
  // evicted key is held by a second session.
  lemma {:induction false} OnePass(g: WgGate, w: World, order: seq<string>, now: int, after: World, raised: bool)
    requires Indexed(w.rows) && Lists(w.rows, order) && PassEnds(g, w, order, now, after, raised)
    ensures Agrees(g, after) <==> !Raises(g, w, order) && NoneShared(g, w, order, now)
  {
    CompletePass(g, w, order, now);
    if raised {
      RaisedDisagrees(g, w, order, now, after);
    }
  }

  predicate DistinctKeys(g: WgGate, rows: Rows)
  {
    forall a, b :: a in rows && b in rows && a != b && Serves(g, rows[a]) && Serves(g, rows[b]) ==>
      KeyOf(rows[a]) != KeyOf(rows[b])
  }

  lemma {:induction false} OnePassOfDistinctKeys(
    g: WgGate, w: World, order: seq<string>, now: int, after: World, raised: bool)
    requires Indexed(w.rows) && Lists(w.rows, order) && DistinctKeys(g, w.rows)
    requires PassEnds(g, w, order, now, after, raised)
    ensures Agrees(g, after) <==> !Raises(g, w, order)
  {
    NeededHolds(g, w.rows, order);
    OnePass(g, w, order, now, after, raised);
  }

  // A needed session whose row stays is still the one needed for its key.
  lemma {:induction false} NeededStays(g: WgGate, rows: Rows, order: seq<string>, dead: set<string>)
    requires Indexed(rows)
    ensures
      var before, after := NeededBy(g, rows, order), NeededBy(g, RowsWithout(rows, dead), order);
      forall k :: k in before && before[k].sessionid !in dead ==> k in after && after[k] == before[k]
  {
    if |order| > 0 {
      var id, rows1 := order[|order| - 1], RowsWithout(rows, dead);
      NeededStays(g, rows, order[..|order| - 1], dead);
      var before, after := NeededBy(g, rows, order), NeededBy(g, rows1, order);
      if id in rows && Serves(g, rows[id]) {
        assert before == NeededBy(g, rows, order[..|order| - 1])[KeyOf(rows[id]) := rows[id].blob];
        assert rows[id].blob.sessionid == id;
        if id in dead {
          assert !Serves(g, rows1[id]) && after == NeededBy(g, rows1, order[..|order| - 1]);
        } else {
          assert after == NeededBy(g, rows1, order[..|order| - 1])[KeyOf(rows[id]) := rows[id].blob];
        }
      } else {
        assert before == NeededBy(g, rows, order[..|order| - 1]);
        assert after == NeededBy(g, rows1, order[..|order| - 1]);
      }
    }
  }

  // A pass leaves no peer for the next one to evict: the kept ones were looked at, and
  // the added ones have no handshake yet.
  lemma {:induction false} NoneLeftToEvict(g: WgGate, w: World, order: seq<string>, now: int)
    requires Indexed(w.rows)
    ensures
      var after := Passed(g, w, order, now);
      Evicted(g, after.peers, NeededBy(g, after.rows, order), now) == {}
  {
    var needed := NeededBy(g, w.rows, order);
    var evicted := Evicted(g, w.peers, needed, now);
    var after := Passed(g, w, order, now);
    NeededHolds(g, w.rows, order);
    NeededStays(g, w.rows, order, IdsOf(needed, evicted));
    forall k | k in after.peers ensures k !in Evicted(g, after.peers, NeededBy(g, after.rows, order), now) {
      assert Holds(g, w.rows, k, needed[k]);
      DeadHasKey(g, w, order, now, needed[k].sessionid);
    }
  }

  lemma {:induction false} QuietPass(g: WgGate, w: World, order: seq<string>, now: int)
    requires Indexed(w.rows) && Lists(w.rows, order)
    requires Evicted(g, w.peers, NeededBy(g, w.rows, order), now) == {}
    ensures Passed(g, w, order, now).rows == w.rows && Agrees(g, Passed(g, w, order, now))
    ensures Agrees(g, w) ==> Passed(g, w, order, now) == w
  {
    NeededIsLive(g, w.rows, order);
    assert IdsOf(NeededBy(g, w.rows, order), {}) == {};
    assert RowsWithout(w.rows, {}) == w.rows;
  }

  // The service after n passes: gone once one of them has raised.
  function Service(g: WgGate, w: World, order: seq<string>, now: int, n: nat): Option<World>
  {
    if n == 0 then Some(w)
    else
      match Service(g, w, order, now, n - 1)
      case None => None
      case Some(u) => if Raises(g, u, order) then None else Some(Passed(g, u, order, now))
  }

  lemma {:induction false} PassedIndexed(g: WgGate, w: World, order: seq<string>, now: int)
    requires Indexed(w.rows) && Lists(w.rows, order)
    ensures Indexed(Passed(g, w, order, now).rows) && Lists(Passed(g, w, order, now).rows, order)
  {
  }

  // When the second pass raises: the next holder of an evicted key has no address.
  lemma {:induction false} SecondRaises(g: WgGate, w: World, order: seq<string>, now: int)
    requires Indexed(w.rows) && Lists(w.rows, order)
    ensures
      var evicted := Evicted(g, w.peers, NeededBy(g, w.rows, order), now);
      var next := NeededBy(g, Passed(g, w, order, now).rows, order);
      Raises(g, Passed(g, w, order, now), order) <==>
        exists k :: k in evicted && k in next && Addressless(next[k])
  {
    var w1 := Passed(g, w, order, now);
    var next := NeededBy(g, w1.rows, order);
    PassedIndexed(g, w, order, now);
    NeededIsLive(g, w1.rows, order);
    forall k | k in next && k !in w1.peers ensures k in Evicted(g, w.peers, NeededBy(g, w.rows, order), now) {
      LackingIsShared(g, w, order, now, k);
    }
  }

  // Two passes from `w` on: the second agrees, and a third changes nothing and does not raise.
  lemma {:induction false} Settles(g: WgGate, w: World, order: seq<string>, now: int)
    requires Indexed(w.rows) && Lists(w.rows, order)
    ensures
      var w1 := Passed(g, w, order, now);
      var w2 := Passed(g, w1, order, now);
      && Agrees(g, w2) && Passed(g, w2, order, now) == w2 && !Raises(g, w2, order)
      && (Agrees(g, w1) ==> w2 == w1)
  {
    var w1 := Passed(g, w, order, now);
    var w2 := Passed(g, w1, order, now);
    PassedIndexed(g, w, order, now);
    NoneLeftToEvict(g, w, order, now);
    QuietPass(g, w1, order, now);
    NoneLeftToEvict(g, w1, order, now);
    QuietPass(g, w2, order, now);
    NeededIsLive(g, w2.rows, order);
  }

  // At a fixed time and without new handshakes, from any interface and any table: the
  // service outlives every number of passes exactly when neither of the first two raises,
  // and then two passes reach agreement and no later pass changes anything.
  lemma {:induction false} TwoPasses(g: WgGate, w: World, order: seq<string>, now: int, n: nat)
    requires Indexed(w.rows) && Lists(w.rows, order) && n >= 2
    ensures Service(g, w, order, now, n).Some? <==>
              !Raises(g, w, order) && !Raises(g, Passed(g, w, order, now), order)
    ensures Service(g, w, order, now, n).Some? ==>
              && Agrees(g, Service(g, w, order, now, n).value)
              && Service(g, w, order, now, n) == Service(g, w, order, now, 2)
              && (NoneShared(g, w, order, now) ==> Service(g, w, order, now, n) == Some(Passed(g, w, order, now)))
    decreases n
  {
    Settles(g, w, order, now);
    CompletePass(g, w, order, now);
    assert Service(g, w, order, now, 1) ==
           if Raises(g, w, order) then None else Some(Passed(g, w, order, now)) by {
      assert Service(g, w, order, now, 0) == Some(w);
    }
    if n > 2 {
      TwoPasses(g, w, order, now, n - 1);
      assert Service(g, w, order, now, 2) == match Service(g, w, order, now, 1)
                                             case None => None
                                             case Some(u) =>
                                               if Raises(g, u, order) then None else Some(Passed(g, u, order, now));
    }
  }

  // ---- what is installed ---------------------------------------------------------------------

  // On the fields: a peer fresh on the interface that is allowed the one address.
  ghost predicate Carries(p: Peer, address: Option<int>)
  {
    && p.nets.Some? && address.Some? && p.handshake == 0
    && V4(address.value, 32) in p.nets.value
    && Singles(p.nets.value) == {address.value}
  }

  lemma {:induction false} NewPeerCarries(r: SessionData)
    requires r.wg.Some? && !Addressless(r)
    ensures Carries(NewPeer(r), r.wg.value.ipv4)
  {
    NetsSingle(r.wg.value.ipv4.value);
    assert Nets(r.wg.value.ipv4.value)[0] == V4(r.wg.value.ipv4.value, 32);
  }

  // Every peer a pass adds carries the address of the session that is needed under its key,
  // so that the next allocation finds it occupied; a pass that completes adds them all.
  lemma {:induction false} PassInstalls(
    g: WgGate, w: World, order: seq<string>, now: int, after: World, raised: bool, k: string)
    requires Indexed(w.rows) && PassEnds(g, w, order, now, after, raised) && k !in w.peers
    ensures !raised ==> (k in after.peers <==> k in NeededBy(g, w.rows, order))
    ensures k in after.peers ==>
              && k in NeededBy(g, w.rows, order)
              && var wg := NeededBy(g, w.rows, order)[k].wg;
                 && wg.Some? && wg.value.clientKey == k
                 && Carries(after.peers[k], wg.value.ipv4) && wg.value.ipv4.value in Occupied(after.peers)
  {
    NeededHolds(g, w.rows, order);
    if k in after.peers {
      var r := NeededBy(g, w.rows, order)[k];
      assert Holds(g, w.rows, k, r);
      assert !Addressless(r);
      NewPeerCarries(r);
      hide NeededBy, NewPeer, Addressless;
      assert after.peers[k] == NewPeer(r);
      CarriedIsOccupied(after.peers, k, r.wg.value.ipv4);
    }
  }

  lemma {:induction false} CarriedIsOccupied(peers: Table, k: string, address: Option<int>)
    requires k in peers && Carries(peers[k], address)
    ensures address.value in Occupied(peers)
  {
    assert address.value in Singles(peers[k].nets.value);
  }

  // Loading a session installs its peer at most, with its own address.
  lemma {:induction false} LoadInstalls(cfg: Config, g: WgGate, w: World, id: string, now: int, tool: Tool)
    requires id in w.rows
    ensures
      var r, o := w.rows[id].blob, LoadHere(cfg, g, w.rows[id].blob, now, tool);
      var peers := LoadedWorld(cfg, g, w, id, now, tool).peers;
      if o.saves == [] then peers == w.peers
      else
        var key := r.wg.value.clientKey;
        && peers.Keys == w.peers.Keys + {key} && Carries(peers[key], r.wg.value.ipv4)
        && forall k :: k in w.peers && k != key ==> peers[k] == w.peers[k]
  {
    var r, o := w.rows[id].blob, LoadHere(cfg, g, w.rows[id].blob, now, tool);
    if o.saves != [] {
      NewPeerCarries(r);
    }
  }

  // ---- who is evicted -----------------------------------------------------------------------

  // The sessions a pass removes are the free ones whose peer had a handshake, but none
  // within the timeout; a paid session is never removed.
  lemma {:induction false} WhoIsRemoved(
    g: WgGate, w: World, order: seq<string>, now: int, after: World, raised: bool, id: string)
    requires Indexed(w.rows) && id in w.rows && !w.rows[id].deleted && PassEnds(g, w, order, now, after, raised)
    ensures id in after.rows
    ensures
      var row := w.rows[id];
      after.rows[id].deleted ==>
        && Serves(g, row) && KeyOf(row) in w.peers
        && 0 < w.peers[KeyOf(row)].handshake < now - g.timeout
        && g.spaces(row.blob.spaceid).price + g.gate.price == 0.0
    ensures
      var row := w.rows[id];
      DistinctKeys(g, w.rows) && Lists(w.rows, order) && Serves(g, row) && KeyOf(row) in w.peers
      && 0 < w.peers[KeyOf(row)].handshake < now - g.timeout
      && g.spaces(row.blob.spaceid).price + g.gate.price == 0.0 ==>
        after.rows[id].deleted && KeyOf(row) !in after.peers
  {
    DeadHasKey(g, w, order, now, id);
    NeededHolds(g, w.rows, order);
    if DistinctKeys(g, w.rows) && Lists(w.rows, order) && Serves(g, w.rows[id]) {
      assert Holds(g, w.rows, KeyOf(w.rows[id]), NeededBy(g, w.rows, order)[KeyOf(w.rows[id])]);
    }
  }

  // The peer of a live paid session stays, however old its handshake.
  lemma {:induction false} PaidPeersStay(
    g: WgGate, w: World, order: seq<string>, now: int, after: World, raised: bool, k: string)
    requires Indexed(w.rows) && Lists(w.rows, order) && k in w.peers && k in LiveKeys(g, w.rows)
    requires PassEnds(g, w, order, now, after, raised)
    requires forall id :: id in w.rows && Serves(g, w.rows[id]) && KeyOf(w.rows[id]) == k ==>
               g.spaces(w.rows[id].blob.spaceid).price + g.gate.price != 0.0
    ensures k in after.peers && after.peers[k] == w.peers[k]
  {
    NeededIsLive(g, w.rows, order);
    NeededHolds(g, w.rows, order);
    assert Holds(g, w.rows, k, NeededBy(g, w.rows, order)[k]);
  }

  // ---- the expiry floor -------------------------------------------------------------------

  // Once a cleanup has run at t, whatever saves and removes follow, every peer a pass
  // leaves on the interface belongs to a live active session that expires at t or later.
  lemma {:induction false} PeersOutliveCleanup(
    g: WgGate, rows: Rows, t: int, ws: seq<Write>, peers: Table, order: seq<string>, now: int,
    after: World, raised: bool, k: string)
    returns (id: string)
    requires Indexed(rows)
    requires forall i :: 0 <= i < |ws| && !ws[i].RemoveOf? ==> ws[i].at >= t
    requires PassEnds(g, World(peers, ApplyAll(Cleaned(rows, t), ws)), order, now, after, raised)
    requires k in after.peers
    ensures id in after.rows && Serves(g, after.rows[id]) && KeyOf(after.rows[id]) == k && after.rows[id].expires >= t
  {
    DeletionIndexed(rows, "", t);
    WritesKeepIndexed(Cleaned(rows, t), ws);
    CleanupHolds(rows, t, ws);
    var w := World(peers, ApplyAll(Cleaned(rows, t), ws));
    KeptIsLive(g, w, order, now, k);
    id :| id in after.rows && Serves(g, after.rows[id]) && KeyOf(after.rows[id]) == k;
    assert id in w.rows && !w.rows[id].deleted && after.rows[id].expires == w.rows[id].expires;
  }

  // ---- rekey --------------------------------------------------------------------------------

  // An active session is loaded without being saved or installed, and only its key data
  // and the contribution fields change.
  lemma {:induction false} RekeyedKeeps(
    cfg: Config, g: WgGate, r: SessionData, key: string, ip: Option<int>, now: int, tool: Tool)
    requires r.activated != 0
    ensures
      var s := RekeyedOf(cfg, g, r, key, ip, now, tool);
      && s.sessionid == r.sessionid && s.gateid == r.gateid && s.spaceid == r.spaceid
      && s.expires == r.expires && s.activated == r.activated && s.payments == r.payments
      && s.wg == Some(WgData(key, "dynamic", ip))
  {
  }

  // Which keys are live once the session is stored under its new key.
  lemma {:induction false} LiveAfterRekey(g: WgGate, rows: Rows, id: string, s: SessionData, now: int)
    requires Indexed(rows) && id in rows && Serves(g, rows[id])
    requires s.sessionid == id && s.gateid == g.gate.id && s.activated > 0 && s.wg.Some?
    requires s.expires > now && s.wg.value.clientKey !in LiveKeys(g, rows)
    ensures
      var rows1 := Saved(rows, s, now);
      var was, key := KeyOf(rows[id]), s.wg.value.clientKey;
      && key in LiveKeys(g, rows1) && !HeldBeside(g, rows1, key, id)
      && (was in LiveKeys(g, rows1) <==> HeldBeside(g, rows, was, id))
      && forall k :: k in LiveKeys(g, rows) && k != was ==> k in LiveKeys(g, rows1)
  {
    var rows1 := Saved(rows, s, now);
    var was, key := KeyOf(rows[id]), s.wg.value.clientKey;
    assert Serves(g, rows1[id]) && KeyOf(rows1[id]) == key;
    assert forall other :: other in rows && other != id ==> rows1[other] == rows[other];
    assert forall other :: other in rows && Serves(g, rows[other]) ==> KeyOf(rows[other]) in LiveKeys(g, rows);
    forall k | k in LiveKeys(g, rows) && k != was ensures k in LiveKeys(g, rows1) {
      var other :| other in rows && Serves(g, rows[other]) && KeyOf(rows[other]) == k;
      assert rows1[other] == rows[other];
    }
    if HeldBeside(g, rows, was, id) {
      var other :| other in rows && other != id && Serves(g, rows[other]) && KeyOf(rows[other]) == was;
      assert rows1[other] == rows[other];
    }
  }

  // What a pass finds when an active session has been rekeyed to an unused key.
  function Rekeyed(
    cfg: Config, g: WgGate, w: World, id: string, key: string, ip: Option<int>, now: int, tool: Tool): World
    requires id in w.rows
  {
    World(w.peers, Saved(w.rows, RekeyedOf(cfg, g, w.rows[id].blob, key, ip, now, tool), now))
  }

  // A needed session other than the one under `key` has to be added and has no address.
  predicate OthersRaise(g: WgGate, w: World, order: seq<string>, key: string)
  {
    var needed := NeededBy(g, w.rows, order);
    exists k :: k != key && k in needed && k !in w.peers && Addressless(needed[k])
  }

  ghost predicate Rekeyable(g: WgGate, w: World, order: seq<string>, id: string, key: string, ip: Option<int>)
  {
    && Indexed(w.rows) && Lists(w.rows, order) && id in w.rows && Serves(g, w.rows[id])
    && key !in LiveKeys(g, w.rows) && key !in w.peers
    && g.block.plen <= 32 && LeastFree(g.block, Occupied(w.peers), ip)
  }

  // The session is needed under its new key exactly when it was unexpired at the rekey.
  lemma {:induction false} NewKeyNeeded(
    cfg: Config, g: WgGate, w: World, order: seq<string>, id: string, key: string, ip: Option<int>,
    now: int, tool: Tool)
    requires Rekeyable(g, w, order, id, key, ip)
    ensures
      var s := RekeyedOf(cfg, g, w.rows[id].blob, key, ip, now, tool);
      var w1 := Rekeyed(cfg, g, w, id, key, ip, now, tool);
      var needed := NeededBy(g, w1.rows, order);
      && Indexed(w1.rows) && Lists(w1.rows, order) && needed.Keys == LiveKeys(g, w1.rows)
      && (key in needed <==> w.rows[id].expires > now)
      && (key in needed ==> needed[key] == s)
      && (key in needed && KeyOf(w.rows[id]) in needed ==> HeldBeside(g, w.rows, KeyOf(w.rows[id]), id))
      && (forall k :: k in LiveKeys(g, w.rows) && k != KeyOf(w.rows[id]) ==> k in needed)
      && s.wg == Some(WgData(key, "dynamic", ip))
  {
    var s := RekeyedOf(cfg, g, w.rows[id].blob, key, ip, now, tool);
    var w1 := Rekeyed(cfg, g, w, id, key, ip, now, tool);
    RekeyedKeeps(cfg, g, w.rows[id].blob, key, ip, now, tool);
    SavedIndexed(w.rows, s, now);
    NeededIsLive(g, w1.rows, order);
    if s.expires > now {
      LiveAfterRekey(g, w.rows, id, s, now);
      NewKeyNeeds(g, w1.rows, order, id, key);
    }
  }

  // After a rekey to an unused key the next pass completes with the new key installed
  // exactly when the session was unexpired at the rekey, an address was free, and no other
  // session raises; whatever the handler answered.  It raises also when no address was free.
  lemma {:induction false} RekeyHandover(
    cfg: Config, g: WgGate, w: World, order: seq<string>, id: string, key: string, ip: Option<int>,
    now: int, tool: Tool, later: int, after: World, raised: bool)
    requires Rekeyable(g, w, order, id, key, ip)
    requires PassEnds(g, Rekeyed(cfg, g, w, id, key, ip, now, tool), order, later, after, raised)
    ensures
      var w1 := Rekeyed(cfg, g, w, id, key, ip, now, tool);
      && (!raised && key in after.peers <==>
            w.rows[id].expires > now && ip.Some? && !OthersRaise(g, w1, order, key))
      && (raised <==> (w.rows[id].expires > now && ip.None?) || OthersRaise(g, w1, order, key))
      && (key in after.peers ==>
            && w.rows[id].expires > now
            && Carries(after.peers[key], ip) && ip.value in Occupied(after.peers))
  {
    NewKeyNeeded(cfg, g, w, order, id, key, ip, now, tool);
    PassInstalls(g, Rekeyed(cfg, g, w, id, key, ip, now, tool), order, later, after, raised, key);
    hide Indexed, Lists, LiveKeys, LeastFree, Occupied, Serves, Saved, RekeyedOf, Carries;
    var w1 := Rekeyed(cfg, g, w, id, key, ip, now, tool);
    var needed := NeededBy(g, w1.rows, order);
    assert key in needed && Addressless(needed[key]) <==> w.rows[id].expires > now && ip.None?;
  }

  // However that pass ends: the old key is gone unless another session holds it, every
  // other needed peer without a stale handshake is as it was, and the new address differs
  // from every address installed at the rekey, the session's own old one among them.
  lemma {:induction false} RekeyKeepsOthers(
    cfg: Config, g: WgGate, w: World, order: seq<string>, id: string, key: string, ip: Option<int>,
    now: int, tool: Tool, later: int, after: World, raised: bool)
    requires Rekeyable(g, w, order, id, key, ip)
    requires PassEnds(g, Rekeyed(cfg, g, w, id, key, ip, now, tool), order, later, after, raised)
    ensures w.rows[id].expires > now && KeyOf(w.rows[id]) in after.peers ==>
              HeldBeside(g, w.rows, KeyOf(w.rows[id]), id)
    ensures forall k ::
              (k in w.peers && k in LiveKeys(g, w.rows) && k != KeyOf(w.rows[id]) && !Stale(g, w.peers[k], later)) ==>
              k in after.peers && after.peers[k] == w.peers[k]
    ensures ip.Some? ==> ip.value in Usable(g.block)
    ensures ip.Some? ==> forall k :: k in w.peers && w.peers[k].nets.Some? ==>
                           ip.value !in Singles(w.peers[k].nets.value)
  {
    NewKeyNeeded(cfg, g, w, order, id, key, ip, now, tool);
    assert ip.Some? ==>
        forall k :: k in w.peers && w.peers[k].nets.Some? && ip.value in Singles(w.peers[k].nets.value) ==>
          ip.value in Occupied(w.peers);
  }

  // The only session with a key is the one needed for it.
  lemma {:induction false} NewKeyNeeds(g: WgGate, rows: Rows, order: seq<string>, id: string, key: string)
    requires Indexed(rows) && Lists(rows, order) && id in rows && Serves(g, rows[id]) && KeyOf(rows[id]) == key
    requires !HeldBeside(g, rows, key, id)
    ensures key in NeededBy(g, rows, order) && NeededBy(g, rows, order)[key] == rows[id].blob
  {
    NeededHolds(g, rows, order);
    assert Holds(g, rows, key, NeededBy(g, rows, order)[key]);
  }

  // A rekey while the pool is full stops the service at its next pass: it raises, and the
  // interface does not agree with the sessions.
  lemma {:induction false} FullPoolStopsService(
    cfg: Config, g: WgGate, w: World, order: seq<string>, id: string, key: string,
    now: int, tool: Tool, later: int, after: World, raised: bool)
    requires Rekeyable(g, w, order, id, key, None) && w.rows[id].expires > now
    requires PassEnds(g, Rekeyed(cfg, g, w, id, key, None, now, tool), order, later, after, raised)
    ensures raised && !Agrees(g, after)
  {
    RekeyHandover(cfg, g, w, order, id, key, None, now, tool, later, after, raised);
    NewKeyNeeded(cfg, g, w, order, id, key, None, now, tool);
    RaisedDisagrees(g, Rekeyed(cfg, g, w, id, key, None, now, tool), order, later, after);
  }
}
