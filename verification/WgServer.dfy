/**
  The WireGuard service of one gate (server/wg_service.py): the loop that drives the
  interface's peers towards the session table, and the rekey handler of server/http.py
  that changes a session's key under it.
 */
module WgServer {
  import opened Basics
  import opened SessionRecord
  import opened SessionTable
  import opened WgPool

  // ---- the interface ------------------------------------------------------------------

  // Allowed networks, absent when the kernel lists none, and the last handshake (0: never).
  datatype Peer = Peer(nets: PeerNets, handshake: int)

  type Table = map<string, Peer>

  datatype WgGate = WgGate(gate: Gate, block: Block, timeout: int, spaces: string -> Space)

  function Occupied(peers: Table): set<int>
  {
    set k, a | k in peers && peers[k].nets.Some? && a in Singles(peers[k].nets.value) :: a
  }

  // ---- what the sessions need -----------------------------------------------------------

  // A row the query for active sessions of the gate returns and that carries a key.
  predicate Serves(g: WgGate, row: Row)
  {
    !row.deleted && row.activated > 0 && row.gateid == g.gate.id && row.blob.wg.Some?
  }

  function KeyOf(row: Row): string
    requires row.blob.wg.Some?
  {
    row.blob.wg.value.clientKey
  }

  function LiveKeys(g: WgGate, rows: Rows): set<string>
  {
    set id | id in rows && Serves(g, rows[id]) :: KeyOf(rows[id])
  }

  // The sessions by key, in the table's order: of several with one key the last stays.
  function NeededBy(g: WgGate, rows: Rows, order: seq<string>): map<string, SessionData>
  {
    if |order| == 0 then map[]
    else
      var before, id := NeededBy(g, rows, order[..|order| - 1]), order[|order| - 1];
      if id in rows && Serves(g, rows[id]) then before[KeyOf(rows[id]) := rows[id].blob] else before
  }

  // ---- one pass ------------------------------------------------------------------------------

  predicate Stale(g: WgGate, p: Peer, now: int)
  {
    now - g.timeout > p.handshake > 0
  }

  predicate Free(g: WgGate, r: SessionData)
  {
    IsFree(g.gate, g.spaces(r.spaceid))
  }

  // Peers of free sessions without a recent handshake lose the session, too.
  function Evicted(g: WgGate, peers: Table, needed: map<string, SessionData>, now: int): set<string>
  {
    set k | k in peers && k in needed && Stale(g, peers[k], now) && Free(g, needed[k])
  }

  function IdsOf(needed: map<string, SessionData>, keys: set<string>): set<string>
  {
    set k | k in keys && k in needed :: needed[k].sessionid
  }

  function RowsWithout(rows: Rows, dead: set<string>): Rows
  {
    map id | id in rows :: if id in dead then rows[id].(deleted := true) else rows[id]
  }

  function NewPeer(r: SessionData): Peer
  {
    Peer(if r.wg.Some? && r.wg.value.ipv4.Some? then Some(Nets(r.wg.value.ipv4.value)) else None, 0)
  }

  function PeersAfter(g: WgGate, peers: Table, needed: map<string, SessionData>, now: int): Table
  {
    map k | k in needed && k !in Evicted(g, peers, needed, now) ::
      if k in peers then peers[k] else NewPeer(needed[k])
  }

  function RowsAfter(g: WgGate, peers: Table, rows: Rows, needed: map<string, SessionData>, now: int): Rows
  {
    RowsWithout(rows, IdsOf(needed, Evicted(g, peers, needed, now)))
  }

  // A session prepared while the pool was full has no address the tool accepts.
  predicate Addressless(r: SessionData)
  {
    r.wg.Some? && r.wg.value.ipv4.None?
  }

  // The interface and the session table.
  datatype World = World(peers: Table, rows: Rows)

  // Where a pass that completes leads.
  function Passed(g: WgGate, w: World, order: seq<string>, now: int): World
  {
    var needed := NeededBy(g, w.rows, order);
    World(PeersAfter(g, w.peers, needed, now), RowsAfter(g, w.peers, w.rows, needed, now))
  }

  // A pass has to add a peer that has no address, and raises when it comes to it.
  predicate Raises(g: WgGate, w: World, order: seq<string>)
  {
    var needed := NeededBy(g, w.rows, order);
    exists k :: k in needed && k !in w.peers && Addressless(needed[k])
  }

  // The possible ends of a pass.  One that raises has done all removals and some additions.
  ghost predicate PassEnds(g: WgGate, w: World, order: seq<string>, now: int, after: World, raised: bool)
  {
    var needed, whole := NeededBy(g, w.rows, order), Passed(g, w, order, now);
    && (raised <==> Raises(g, w, order))
    && after.rows == whole.rows
    && (!raised ==> after.peers == whole.peers)
    && (raised ==>
          && (forall k :: k in after.peers ==> k in whole.peers && after.peers[k] == whole.peers[k])
          && (forall k :: k in w.peers && k in whole.peers ==> k in after.peers)
          && (forall k :: k in after.peers && k !in w.peers ==> !Addressless(needed[k]))
          && (exists k :: k in needed && k !in w.peers && k !in after.peers && Addressless(needed[k])))
  }

  // `r` is stored live and active for the gate under the key.
  predicate Holds(g: WgGate, rows: Rows, k: string, r: SessionData)
  {
    && r.sessionid in rows
    && rows[r.sessionid].blob == r
    && Serves(g, rows[r.sessionid])
    && KeyOf(rows[r.sessionid]) == k
  }

  // The needed keys are those of the live active sessions, each with a session that has it.
  lemma {:induction false} NeededHolds(g: WgGate, rows: Rows, order: seq<string>)
    requires Indexed(rows)
    ensures forall k :: k in NeededBy(g, rows, order) ==> Holds(g, rows, k, NeededBy(g, rows, order)[k])
    ensures forall id :: id in order && id in rows && Serves(g, rows[id]) ==>
              KeyOf(rows[id]) in NeededBy(g, rows, order)
  {
    if |order| > 0 {
      NeededHolds(g, rows, order[..|order| - 1]);
    }
  }

  // ---- the two loops, step by step ------------------------------------------------------------

  // The peers while `left` are still to be looked at.
  function Pruned(gathered: Table, needed: map<string, SessionData>, evicted: set<string>, left: set<string>): Table
  {
    map k | k in gathered && (k in left || (k in needed && k !in evicted)) :: gathered[k]
  }

  lemma {:induction false} PrunedNext(
    gathered: Table, needed: map<string, SessionData>, evicted: set<string>,
    left: set<string>, k: string)
    requires k in left
    ensures Pruned(gathered, needed, evicted, left - {k}) ==
            if k in needed && k !in evicted then Pruned(gathered, needed, evicted, left)
            else Pruned(gathered, needed, evicted, left) - {k}
  {
  }

  lemma {:induction false} RowsNext(
    rows: Rows, needed: map<string, SessionData>, evicted: set<string>,
    left: set<string>, k: string)
    requires k in left && evicted <= needed.Keys
    ensures RowsWithout(rows, IdsOf(needed, evicted - (left - {k}))) ==
            if k in evicted then Removed(RowsWithout(rows, IdsOf(needed, evicted - left)), needed[k].sessionid)
            else RowsWithout(rows, IdsOf(needed, evicted - left))
  {
    if k in evicted {
      assert evicted - (left - {k}) == (evicted - left) + {k};
      assert IdsOf(needed, (evicted - left) + {k}) == IdsOf(needed, evicted - left) + {needed[k].sessionid};
    } else {
      assert evicted - (left - {k}) == evicted - left;
    }
  }

  // The peers once the needed keys outside `left` are there, too.
  function Filled(all: Table, gathered: Table, left: set<string>): Table
  {
    map k | k in all && (k in gathered || k !in left) :: all[k]
  }

  lemma {:induction false} FilledNext(all: Table, gathered: Table, left: set<string>, k: string)
    ensures k in all && k !in gathered ==> Filled(all, gathered, left - {k}) == Filled(all, gathered, left)[k := all[k]]
    ensures k in gathered ==> Filled(all, gathered, left - {k}) == Filled(all, gathered, left)
  {
  }

  class WgService {
    const g: WgGate
    const db: SessionDb
    var peers: Table
    var gathered: Table
    var needed: map<string, SessionData>

    constructor (g: WgGate, db: SessionDb)
      ensures this.g == g && this.db == db && peers == map[]
    {
      this.g, this.db := g, db;
      peers, gathered, needed := map[], map[], map[];
    }

    method FindPeersFromSessions(order: seq<string>) returns (found: map<string, SessionData>)
      ensures found == NeededBy(g, db.rows, order)
    {
      found := map[];
      for i := 0 to |order|
        invariant found == NeededBy(g, db.rows, order[..i])
      {
        assert order[..i + 1][..i] == order[..i];
        if order[i] in db.rows && Matches(db.rows[order[i]], ANY.(active := true, gateid := Some(g.gate.id)), 0) {
          var s := db.rows[order[i]].blob;
          if s.wg.Some? {
            found := found[s.wg.value.clientKey := s];
          }
        }
      }
      assert order[..|order|] == order;
    }

    // Session.remove on the server: the peer goes first, then the row is marked.
    method RemoveSession(r: SessionData)
      modifies this`peers, db
      ensures peers == if r.activated != 0 && r.wg.Some? then old(peers) - {r.wg.value.clientKey} else old(peers)
      ensures db.rows == Removed(old(db.rows), r.sessionid)
    {
      if r.activated != 0 && r.wg.Some? {
        peers := peers - {r.wg.value.clientKey};
      }
      db.Remove(r.sessionid);
    }

    // One pass; `raised` when a peer to add has no address, which ends the service.
    method Pass(order: seq<string>, now: int) returns (raised: bool)
      requires Indexed(db.rows)
      modifies this, db
      ensures gathered == old(peers) && needed == NeededBy(g, old(db.rows), order)
      ensures PassEnds(g, World(old(peers), old(db.rows)), order, now, World(peers, db.rows), raised)
    {
      gathered := peers;
      needed := FindPeersFromSessions(order);
      NeededHolds(g, db.rows, order);
      Prune(now);
      raised := Install(now);
    }

    // First half: drop what is not needed, and the sessions of stale free peers.
    method Prune(now: int)
      requires gathered == peers && NeededWell(needed)
      modifies this`peers, db
      ensures db.rows == RowsAfter(g, gathered, old(db.rows), needed, now)
      ensures peers == Pruned(gathered, needed, Evicted(g, gathered, needed, now), {})
    {
      hide Pruned, IdsOf, RowsWithout, Removed;
      ghost var evicted := Evicted(g, gathered, needed, now);
      var left := gathered.Keys;
      PruneStart(gathered, needed, evicted, db.rows);
      while left != {}
        invariant left <= gathered.Keys
        invariant peers == Pruned(gathered, needed, evicted, left)
        invariant db.rows == RowsWithout(old(db.rows), IdsOf(needed, evicted - left))
        decreases |left|
      {
        var k :| k in left;
        PrunedNext(gathered, needed, evicted, left, k);
        RowsNext(old(db.rows), needed, evicted, left, k);
        left := left - {k};
        if k in needed {
          if Stale(g, gathered[k], now) && Free(g, needed[k]) {
            RemoveSession(needed[k]);
          }
        } else {
          peers := peers - {k};
        }
      }
      assert evicted - left == evicted;
    }

    // Second half: add what is needed and was not there.
    method Install(now: int) returns (raised: bool)
      requires peers == Pruned(gathered, needed, Evicted(g, gathered, needed, now), {})
      modifies this`peers
      ensures raised <==> exists k :: k in needed && k !in gathered && Addressless(needed[k])
      ensures
        var all := PeersAfter(g, gathered, needed, now);
        && (!raised ==> peers == all)
        && (raised ==>
              && (forall k :: k in peers ==> k in all && peers[k] == all[k])
              && (forall k :: k in gathered && k in all ==> k in peers)
              && (forall k :: k in peers && k !in gathered ==> !Addressless(needed[k]))
              && (exists k :: k in needed && k !in gathered && k !in peers && Addressless(needed[k])))
    {
      ghost var all := PeersAfter(g, gathered, needed, now);
      InstallStart(g, gathered, needed, now);
      var left := needed.Keys;
      hide Filled, PeersAfter, Addressless, NewPeer, Pruned, Evicted;
      while left != {}
        invariant left <= needed.Keys
        invariant peers == Filled(all, gathered, left)
        invariant forall k :: k in needed && k !in left && k !in gathered ==> !Addressless(needed[k])
        decreases |left|
      {
        var k :| k in left;
        if k !in gathered && Addressless(needed[k]) {
          FilledWithin(all, gathered, left);
          return true;
        }
        FilledNext(all, gathered, left, k);
        left := left - {k};
        if k !in gathered {
          peers := peers[k := NewPeer(needed[k])];
        }
      }
      return false;
    }

    // The handler gives the session a new key and a free address; the interface follows
    // with the next pass.  The answer is 200 whether or not the save went through.  Loading
    // a free session that is not active yet activates it, which installs its old key first.
    method RekeySession(cfg: Config, id: Option<string>, key: Option<string>, now: int, tool: Tool)
      returns (code: int, body: Option<SessionData>)
      requires g.block.plen <= 32
      requires id.Some? && IsLive(db.rows, id.value) ==> db.rows[id.value].blob.gateid == g.gate.id
      modifies this`peers, db
      ensures
        var before := World(old(peers), old(db.rows));
        var mid := if id.Some? && IsLive(before.rows, id.value) then LoadedWorld(cfg, g, before, id.value, now, tool)
                   else before;
        && code == RekeyCode(cfg, g, before, id, key, now, tool)
        && peers == mid.peers
        && (code == 200 ==>
              && body.Some? && body.value.wg.Some?
              && body.value ==
                 RekeyedOf(cfg, g, before.rows[id.value].blob, key.value, body.value.wg.value.ipv4, now, tool)
              && LeastFree(g.block, Occupied(mid.peers), body.value.wg.value.ipv4)
              && db.rows == Saved(mid.rows, body.value, now))
        && (code != 200 ==> body.None? && db.rows == mid.rows)
    {
      if id.None? {
        return 400, None;
      }
      var r := db.Get(id.value);
      if r.None? {
        return 404, None;
      }
      var o := LoadHere(cfg, g, r.value, now, tool);
      if |o.saves| > 0 {
        peers := peers[r.value.wg.value.clientKey := NewPeer(r.value)];
        db.Save(o.data, now);
      }
      if o.raised {
        return 500, None;
      }
      if g.gate.tpe != "wg" || key.None? {
        return 400, None;
      }
      var keys, nets := ListNets();
      ListedSame(peers, keys, nets);
      var ip := FindFreeIp(g.block, nets);
      if ip.Err? {
        return 500, None;
      }
      var s := o.data.(wg := Some(WgData(key.value, "dynamic", ip.value)));
      db.Save(s, now);
      return 200, Some(s);
    }

    // The allowed networks of every peer, as the dump lists them.
    method ListNets() returns (keys: seq<string>, nets: seq<PeerNets>)
      ensures Listed(peers, keys, nets)
    {
      keys, nets := [], [];
      var left := peers.Keys;
      while left != {}
        invariant left <= peers.Keys && |keys| == |nets|
        invariant forall i :: 0 <= i < |keys| ==> keys[i] in peers && nets[i] == peers[keys[i]].nets
        invariant forall k :: k in peers && k !in left ==> k in keys
        decreases |left|
      {
        var k :| k in left;
        left := left - {k};
        keys, nets := keys + [k], nets + [peers[k].nets];
      }
    }
  }

  predicate Listed(peers: Table, keys: seq<string>, nets: seq<PeerNets>)
  {
    && |keys| == |nets|
    && (forall i :: 0 <= i < |keys| ==> keys[i] in peers && nets[i] == peers[keys[i]].nets)
    && (forall k :: k in peers ==> k in keys)
  }

  // The order of the listing does not matter to the allocator.
  lemma {:induction false} ListedSame(peers: Table, keys: seq<string>, nets: seq<PeerNets>)
    requires Listed(peers, keys, nets)
    ensures Installed(nets) == Occupied(peers)
    ensures (exists i :: 0 <= i < |nets| && nets[i].None?) <==> exists k :: k in peers && peers[k].nets.None?
  {
    forall a | a in Installed(nets) ensures a in Occupied(peers) {
      var i :| 0 <= i < |nets| && nets[i].Some? && a in Singles(nets[i].value);
      assert peers[keys[i]].nets == nets[i];
    }
    forall a | a in Occupied(peers) ensures a in Installed(nets) {
      var k :| k in peers && peers[k].nets.Some? && a in Singles(peers[k].nets.value);
      var i :| 0 <= i < |keys| && keys[i] == k;
      assert nets[i] == peers[k].nets;
    }
    if i :| 0 <= i < |nets| && nets[i].None? {
      assert keys[i] in peers && peers[keys[i]].nets.None?;
    }
    if k :| k in peers && peers[k].nets.None? {
      var i :| 0 <= i < |keys| && keys[i] == k;
      assert nets[i].None?;
    }
  }

  predicate IsLive(rows: Rows, id: string)
  {
    id in rows && !rows[id].deleted
  }

  // Loading a session of the gate; an activation without an address to install raises.
  function LoadHere(cfg: Config, g: WgGate, r: SessionData, now: int, tool: Tool): (o: Outcome)
    ensures |o.saves| > 0 ==> r.wg.Some? && r.wg.value.ipv4.Some?
    ensures r.activated != 0 ==> !o.raised && o.saves == []
  {
    Load(cfg, g.gate, g.spaces(r.spaceid), r, now, if Addressless(r) && cfg.site.Server? then Breaks else tool)
  }

  // What loading here does, on the fields: a free session that has its WireGuard data, is not
  // active and owes nothing is activated on a server that has an address for it and whose
  // commands work; where they run and break it raises; any other is charged the contributions.
  lemma {:induction false} LoadHereWhen(cfg: Config, g: WgGate, r: SessionData, now: int, tool: Tool)
    ensures
      var o := LoadHere(cfg, g, r, now, tool);
      var starts := g.spaces(r.spaceid).price + g.gate.price == 0.0 && g.gate.tpe == "wg"
                    && r.wg.Some? && r.activated == 0;
      if !starts
      then o.saves == [] && !o.raised && o.data == WithContributions(cfg.settings, cfg.site == Client, r)
      else
        var due := Total(r.payments) >= r.price;
        var addressed := cfg.site == Client || r.wg.value.ipv4.Some?;
        && (o.raised <==> due && (!addressed || tool == Breaks))
        && (o.saves != [] <==> due && cfg.site == Server && addressed && tool == Works)
        && o.data == if o.saves != [] then r.(activated := now, expires := now + 86400 * r.days) else r
  {
    hide Total, WithContributions;
  }

  // Interface and table once the session has been loaded from it.
  function LoadedWorld(cfg: Config, g: WgGate, w: World, id: string, now: int, tool: Tool): World
    requires id in w.rows
  {
    var r := w.rows[id].blob;
    var o := LoadHere(cfg, g, r, now, tool);
    if |o.saves| > 0 then World(w.peers[r.wg.value.clientKey := NewPeer(r)], Saved(w.rows, o.data, now)) else w
  }

  function RekeyedOf(cfg: Config, g: WgGate, r: SessionData, key: string, ip: Option<int>, now: int, tool: Tool)
    : SessionData
  {
    LoadHere(cfg, g, r, now, tool).data.(wg := Some(WgData(key, "dynamic", ip)))
  }

  function RekeyCode(cfg: Config, g: WgGate, w: World, id: Option<string>, key: Option<string>, now: int, tool: Tool)
    : int
  {
    if id.None? then 400
    else if !IsLive(w.rows, id.value) then 404
    else
      var peers := LoadedWorld(cfg, g, w, id.value, now, tool).peers;
      if LoadHere(cfg, g, w.rows[id.value].blob, now, tool).raised then 500
      else if g.gate.tpe != "wg" || key.None? then 400
      else if exists k :: k in peers && peers[k].nets.None? then 500
      else 200
  }

  lemma {:induction false} InstallStart(g: WgGate, gathered: Table, needed: map<string, SessionData>, now: int)
    ensures
      var all := PeersAfter(g, gathered, needed, now);
      && Pruned(gathered, needed, Evicted(g, gathered, needed, now), {}) == Filled(all, gathered, needed.Keys)
      && Filled(all, gathered, {}) == all
      && all.Keys <= needed.Keys
      && forall k :: k in needed && k !in gathered ==> k in all && all[k] == NewPeer(needed[k])
  {
  }

  lemma {:induction false} FilledWithin(all: Table, gathered: Table, left: set<string>)
    ensures forall k :: k in Filled(all, gathered, left) ==> k in all && Filled(all, gathered, left)[k] == all[k]
    ensures forall k :: k in Filled(all, gathered, left) <==> k in all && (k in gathered || k !in left)
  {
  }

  lemma {:induction false} PruneStart(
    gathered: Table, needed: map<string, SessionData>, evicted: set<string>,
    rows: Rows)
    requires evicted <= gathered.Keys
    ensures Pruned(gathered, needed, evicted, gathered.Keys) == gathered
    ensures RowsWithout(rows, IdsOf(needed, evicted - gathered.Keys)) == rows
  {
    assert evicted - gathered.Keys == {};
  }

  // Every needed record is active and sits under its own key.
  predicate NeededWell(needed: map<string, SessionData>)
  {
    forall k :: k in needed ==> needed[k].activated > 0 && needed[k].wg.Some? && needed[k].wg.value.clientKey == k
  }
}
