/**
  The client's proxy (client/proxy.py) and its connection list (client/connection.py):
  connections with child links in one list, the processes behind them in another.
 */
module ProxyObject {
  import opened Basics
  import opened Forest

  class Connection {
    const id: Id
    const gateid: string
    const spaceid: string
    var children: seq<Id>

    constructor (id: Id, gateid: string, spaceid: string)
      ensures this.id == id && this.gateid == gateid && this.spaceid == spaceid && children == []
    {
      this.id, this.gateid, this.spaceid, children := id, gateid, spaceid, [];
    }

    method AddChildren(child: Id)
      modifies this
      ensures children == old(children) + [child]
    {
      children := children + [child];
    }
  }

  // A snapshot of the list.
  ghost function ViewOf(data: seq<Connection>): (v: seq<Node>)
    reads data
    ensures |v| == |data|
    ensures forall i :: 0 <= i < |data| ==> v[i] == Node(data[i].id, data[i].children)
  {
    if |data| == 0 then [] else [Node(data[0].id, data[0].children)] + ViewOf(data[1..])
  }

  // The list without some ids.
  ghost function Kept(data: seq<Connection>, gone: set<Id>): (kept: seq<Connection>)
  {
    if |data| == 0 then []
    else if data[0].id in gone then Kept(data[1..], gone)
    else [data[0]] + Kept(data[1..], gone)
  }

  lemma {:induction false} ViewOfKept(data: seq<Connection>, gone: set<Id>)
    ensures ViewOf(Kept(data, gone)) == Without(ViewOf(data), gone)
  {
    if |data| > 0 {
      ViewOfKept(data[1..], gone);
      assert ViewOf(data)[1..] == ViewOf(data[1..]);
      var rest := Kept(data[1..], gone);
      if data[0].id !in gone {
        assert ([data[0]] + rest)[1..] == rest;
      }
    }
  }

  lemma {:induction false} KeptTwice(data: seq<Connection>, a: set<Id>, b: set<Id>)
    ensures Kept(Kept(data, a), b) == Kept(data, a + b)
  {
    if |data| > 0 {
      KeptTwice(data[1..], a, b);
      var rest := Kept(data[1..], a);
      if data[0].id !in a {
        assert ([data[0]] + rest)[1..] == rest;
      }
    }
  }

  lemma {:induction false} KeptPush(data: seq<Connection>, c: Connection, gone: set<Id>)
    ensures Kept(data + [c], gone) == Kept(data, gone) + if c.id in gone then [] else [c]
  {
    if |data| > 0 {
      assert (data + [c])[1..] == data[1..] + [c];
      KeptPush(data[1..], c, gone);
    } else {
      assert (data + [c])[1..] == [];
    }
  }

  lemma {:induction false} KeptNothing(data: seq<Connection>)
    ensures Kept(data, {}) == data
  {
    if |data| > 0 {
      KeptNothing(data[1..]);
    }
  }

  class Connections {
    var data: seq<Connection>
    // The same list as plain values.
    ghost var nodes: seq<Node>

    constructor ()
      ensures Valid() && data == [] && nodes == []
    {
      data, nodes := [], [];
    }

    ghost predicate Valid()
      reads this, data
    {
      nodes == ViewOf(data)
    }

    method Get(id: Id) returns (c: Connection?)
      requires Valid()
      ensures c != null <==> Present(nodes, id)
      ensures c != null ==> c in data && c.id == id && c.children == ChildrenOf(nodes, id)
      ensures c == null ==> ChildrenOf(nodes, id) == []
    {
      for i := 0 to |data|
        invariant forall k :: 0 <= k < i ==> data[k].id != id
      {
        if data[i].id == id {
          FoundFirst(data, i);
          assert nodes[i].id == id;
          return data[i];
        }
      }
      NotFound(data, id);
      return null;
    }

    method IsConnected(gateid: string, spaceid: string) returns (yes: bool)
      ensures yes <==> exists c :: c in data && c.gateid == gateid && c.spaceid == spaceid
    {
      for i := 0 to |data|
        invariant forall k :: 0 <= k < i ==> !(data[k].gateid == gateid && data[k].spaceid == spaceid)
      {
        if data[i].gateid == gateid && data[i].spaceid == spaceid {
          return true;
        }
      }
      return false;
    }

    method FindByGateid(gateid: string) returns (id: Option<Id>)
      ensures id == FirstFor(data, gateid)
      ensures id.None? ==> forall c :: c in data ==> c.gateid != gateid
      ensures id.Some? ==> exists c :: c in data && c.gateid == gateid && c.id == id.value
    {
      for i := 0 to |data|
        invariant forall k :: 0 <= k < i ==> data[k].gateid != gateid
        invariant FirstFor(data, gateid) == FirstFor(data[i..], gateid)
      {
        if data[i].gateid == gateid {
          return Some(data[i].id);
        }
      }
      return None;
    }

    method Add(c: Connection)
      requires Valid()
      modifies this
      ensures Valid()
      ensures data == old(data) + [c] && nodes == old(nodes) + [Node(c.id, c.children)]
    {
      ViewOfPush(data, c);
      nodes := nodes + [Node(c.id, c.children)];
      data := data + [c];
    }

    method Remove(id: Id) returns (removed: bool)
      requires Valid()
      modifies this
      ensures Valid()
      ensures data == Kept(old(data), {id}) && nodes == Without(old(nodes), {id})
      ensures removed <==> exists c :: c in old(data) && c.id == id
    {
      removed := false;
      var left: seq<Connection> := [];
      for i := 0 to |data|
        invariant data == old(data) && nodes == old(nodes)
        invariant left == Kept(data[..i], {id})
        invariant removed <==> exists c :: c in data[..i] && c.id == id
      {
        assert data[..i + 1] == data[..i] + [data[i]];
        KeptPush(data[..i], data[i], {id});
        if data[i].id == id {
          removed := true;
        } else {
          left := left + [data[i]];
        }
      }
      assert data[..|data|] == data;
      ViewOfKept(data, {id});
      nodes := Without(nodes, {id});
      data := left;
    }
  }

  // The id of the first connection to a gate.
  function FirstFor(data: seq<Connection>, gateid: string): Option<Id>
  {
    if |data| == 0 then None
    else if data[0].gateid == gateid then Some(data[0].id)
    else FirstFor(data[1..], gateid)
  }

  lemma {:induction false} ViewOfPush(data: seq<Connection>, c: Connection)
    ensures ViewOf(data + [c]) == ViewOf(data) + [Node(c.id, c.children)]
  {
  }

  lemma {:induction false} FoundFirst(data: seq<Connection>, i: nat)
    requires i < |data| && forall k :: 0 <= k < i ==> data[k].id != data[i].id
    ensures ChildrenOf(ViewOf(data), data[i].id) == data[i].children
  {
    assert ViewOf(data)[1..] == ViewOf(data[1..]);
    if i > 0 {
      FoundFirst(data[1..], i - 1);
    }
  }

  lemma {:induction false} NotFound(data: seq<Connection>, id: Id)
    requires forall k :: 0 <= k < |data| ==> data[k].id != id
    ensures ChildrenOf(ViewOf(data), id) == []
  {
    if |data| > 0 {
      assert ViewOf(data)[1..] == ViewOf(data[1..]);
      NotFound(data[1..], id);
    }
  }

  // ---- the process list -----------------------------------------------------------------

  // An entry of the process list; a forwarded connection has no process of its own.
  datatype PInfo = PInfo(id: Id, process: Option<nat>)

  ghost function ProcIds(ps: seq<PInfo>): set<Id>
  {
    set i | 0 <= i < |ps| :: ps[i].id
  }

  // The processes behind some ids.
  ghost function Handles(ps: seq<PInfo>, ids: set<Id>): set<nat>
  {
    set i | 0 <= i < |ps| && ps[i].id in ids && ps[i].process.Some? :: ps[i].process.value
  }

  lemma {:induction false} HandlesUnion(ps: seq<PInfo>, a: set<Id>, b: set<Id>)
    ensures Handles(ps, a + b) == Handles(ps, a) + Handles(ps, b)
  {
  }

  lemma {:induction false} HandlesPush(ps: seq<PInfo>, j: nat, ids: set<Id>)
    requires j < |ps|
    ensures Handles(ps[..j + 1], ids) ==
            Handles(ps[..j], ids) +
            if ps[j].id in ids && ps[j].process.Some? then {ps[j].process.value} else {}
  {
    var less, more := ps[..j], ps[..j + 1];
    forall h | h in Handles(more, ids)
      ensures h in Handles(less, ids) || (ps[j].id in ids && ps[j].process == Some(h))
    {
      var i :| 0 <= i < |more| && more[i].id in ids && more[i].process == Some(h);
      assert i < j ==> less[i] == more[i];
    }
    forall h | h in Handles(less, ids) ensures h in Handles(more, ids) {
      var i :| 0 <= i < |less| && less[i].id in ids && less[i].process == Some(h);
      assert more[i] == less[i];
    }
    if ps[j].id in ids && ps[j].process.Some? {
      assert more[j] == ps[j];
    }
  }

  lemma {:induction false} HandlesNone(ps: seq<PInfo>, j: nat, id: Id)
    requires j <= |ps| && id !in ProcIds(ps[..j])
    ensures Handles(ps[..j], {id}) == {}
  {
    forall i | 0 <= i < j ensures ps[..j][i].id != id {
      assert ps[..j][i].id in ProcIds(ps[..j]);
    }
  }

  lemma {:induction false} ProcIdsPush(ps: seq<PInfo>, j: nat)
    requires j < |ps|
    ensures ProcIds(ps[..j + 1]) == ProcIds(ps[..j]) + {ps[j].id}
  {
    var less, more := ps[..j], ps[..j + 1];
    forall x | x in ProcIds(more) ensures x in ProcIds(less) || x == ps[j].id {
      var i :| 0 <= i < |more| && more[i].id == x;
      assert i < j ==> less[i] == more[i];
    }
    forall x | x in ProcIds(less) ensures x in ProcIds(more) {
      var i :| 0 <= i < |less| && less[i].id == x;
      assert more[i] == less[i];
    }
    assert more[j].id == ps[j].id;
  }

  // ---- the lists together -------------------------------------------------------------------

  // Every connection has its process entry, children are younger than parents, and
  // no id is used twice.
  ghost predicate Sound(v: seq<Node>, ps: seq<PInfo>, born: map<Id, nat>, clock: nat)
  {
    && Backed(v, ProcIds(ps))
    && Ordered(v, born, clock)
    && ProcIds(ps) <= born.Keys
    && Distinct(v)
  }

  // Dropping connections keeps the lists sound.
  lemma {:induction false} WithoutSound(v: seq<Node>, gone: set<Id>, ps: seq<PInfo>, born: map<Id, nat>, clock: nat)
    requires Sound(v, ps, born, clock)
    ensures Sound(Without(v, gone), ps, born, clock)
  {
    WithoutKeeps(v, gone, ProcIds(ps), born, clock);
    WithoutDistinct(v, gone);
  }

  // Once a connection and all below it are out, a further entry with its id finds nothing.
  lemma {:induction false} AlreadyOut(v: seq<Node>, id: Id, hit: set<Id>, procs: set<Id>)
    requires id in hit
    ensures HitAll(Without(v, hit), ChildrenOf(Without(v, hit), id), procs) == {}
  {
    WithoutChildren(v, hit, id);
  }

  // What the first j entries of the process list have taken out, and the processes killed.
  ghost function GoneBy(ps: seq<PInfo>, j: nat, id: Id, below: set<Id>): set<Id>
    requires j <= |ps|
  {
    if id in ProcIds(ps[..j]) then below + {id} else {}
  }

  ghost function DeadBy(ps: seq<PInfo>, j: nat, id: Id, below: set<Id>): set<nat>
    requires j <= |ps|
  {
    if id in ProcIds(ps[..j]) then Handles(ps, below) + Handles(ps[..j], {id}) else {}
  }

  // An entry with another id changes nothing.
  lemma {:induction false} EntryPassed(ps: seq<PInfo>, j: nat, id: Id, below: set<Id>)
    requires j < |ps| && ps[j].id != id
    ensures GoneBy(ps, j + 1, id, below) == GoneBy(ps, j, id, below)
    ensures DeadBy(ps, j + 1, id, below) == DeadBy(ps, j, id, below)
  {
    ProcIdsPush(ps, j);
    HandlesPush(ps, j, {id});
  }

  // The first entry with the id takes everything out; a repeated one only its process.
  lemma {:induction false} EntrySevered(
    all: seq<Connection>, v: seq<Node>, k0: set<nat>, ps: seq<PInfo>,
    j: nat, id: Id, below: set<Id>)
    requires j < |ps| && ps[j].id == id && below == HitAll(v, ChildrenOf(v, id), ProcIds(ps))
    ensures
      var gone, gone1 := GoneBy(ps, j, id, below), GoneBy(ps, j + 1, id, below);
      var left := Without(v, gone);
      var again := HitAll(left, ChildrenOf(left, id), ProcIds(ps));
      && Kept(Kept(all, gone), again + {id}) == Kept(all, gone1)
      && Without(left, again + {id}) == Without(v, gone1)
      && k0 + DeadBy(ps, j, id, below) + Handles(ps, again)
         + (if ps[j].process.Some? then {ps[j].process.value} else {})
         == k0 + DeadBy(ps, j + 1, id, below)
  {
    var gone := GoneBy(ps, j, id, below);
    ProcIdsPush(ps, j);
    HandlesPush(ps, j, {id});
    if id in ProcIds(ps[..j]) {
      AlreadyOut(v, id, gone, ProcIds(ps));
      KeptTwice(all, gone, {id});
      WithoutTwice(v, gone, {id});
      assert gone + {id} == gone && {} + {id} == {id};
      assert Handles(ps, {}) == {};
    } else {
      KeptNothing(all);
      WithoutNothing(v, {});
      HandlesNone(ps, j, id);
    }
  }

  lemma {:induction false} EntriesDone(
    v: seq<Node>, ps: seq<PInfo>, born: map<Id, nat>, clock: nat, id: Id,
    below: set<Id>)
    requires Sound(v, ps, born, clock) && below == HitAll(v, ChildrenOf(v, id), ProcIds(ps))
    ensures GoneBy(ps, |ps|, id, below) == Hit(v, id, ProcIds(ps))
    ensures DeadBy(ps, |ps|, id, below) == Handles(ps, Hit(v, id, ProcIds(ps)))
  {
    assert ps[..|ps|] == ps;
    if id in ProcIds(ps) {
      HitUnfold(v, id, ProcIds(ps));
      HandlesUnion(ps, below, {id});
      assert below + {id} == {id} + below;
    } else {
      HitNothing(v, id, ProcIds(ps));
    }
  }

  // One more child disconnected after the earlier ones.
  lemma {:induction false} OneMoreOut(v: seq<Node>, subs: seq<Id>, k: nat, ps: seq<PInfo>)
    requires Backed(v, ProcIds(ps)) && k < |subs|
    ensures
      var u, wider := HitAll(v, subs[..k], ProcIds(ps)), HitAll(v, subs[..k + 1], ProcIds(ps));
      var more := Hit(Without(v, u), subs[k], ProcIds(ps));
      u + more == wider && Handles(ps, u) + Handles(ps, more) == Handles(ps, wider)
  {
    var u := HitAll(v, subs[..k], ProcIds(ps));
    var more := Hit(Without(v, u), subs[k], ProcIds(ps));
    HitAllDownClosed(v, subs[..k], ProcIds(ps));
    HitBeside(v, u, subs[k], ProcIds(ps));
    HitAllPush(v, subs, k, ProcIds(ps));
    HandlesUnion(ps, u, more);
  }

  // A new connection under an id never used before keeps the lists sound.
  lemma {:induction false} AddedSound(v: seq<Node>, p: PInfo, ps: seq<PInfo>, born: map<Id, nat>, clock: nat)
    requires Sound(v, ps, born, clock) && p.id !in born
    ensures Sound(v + [Node(p.id, [])], ps + [p], born[p.id := clock], clock + 1)
  {
    assert (ps + [p])[..|ps|] == ps && (ps + [p])[..|ps| + 1] == ps + [p];
    ProcIdsPush(ps + [p], |ps|);
  }

  // So does naming it as a child of a listed parent.
  lemma {:induction false} AdoptedSound(
    v: seq<Node>, parent: Option<Id>, p: PInfo, ps: seq<PInfo>,
    born: map<Id, nat>, clock: nat)
    requires Sound(v, ps, born, clock) && p.id !in born
    ensures Sound(Adopted(v, parent, p.id) + [Node(p.id, [])], ps + [p], born[p.id := clock], clock + 1)
  {
    AddedSound(v, p, ps, born, clock);
    if i :| 0 <= i < |v| && Some(v[i].id) == parent {
      AdoptedAt(v, i, p.id);
      var w := Adopted(v, parent, p.id) + [Node(p.id, [])];
      assert forall k :: 0 <= k < |w| ==> w[k].id == (v + [Node(p.id, [])])[k].id;
      forall k, c | 0 <= k < |w| && c in w[k].children
        ensures c in born[p.id := clock] && born[p.id := clock][w[k].id] < born[p.id := clock][c]
      {
        assert c == p.id || c in v[k].children;
      }
    } else {
      AdoptedNowhere(v, parent, p.id);
    }
  }

  // A listed connection and its direct children.
  ghost function WithChildren(v: seq<Node>, id: Id): set<Id>
  {
    if Present(v, id) then ToSet(ChildrenOf(v, id)) + {id} else {}
  }

  // A process entry may go together with the connection that carries its id.
  lemma {:induction false} EntryRemovedSound(
    v: seq<Node>, gone: set<Id>, j: nat, ps: seq<PInfo>, born: map<Id, nat>,
    clock: nat)
    requires Sound(v, ps, born, clock) && j < |ps|
    requires Present(v, ps[j].id) ==> ps[j].id in gone
    ensures Sound(Without(v, gone), ps[..j] + ps[j + 1..], born, clock)
  {
    var w, qs := Without(v, gone), ps[..j] + ps[j + 1..];
    WithoutSound(v, gone, ps, born, clock);
    WithoutMember(v, gone);
    assert ProcIds(qs) <= ProcIds(ps) by {
      forall k | 0 <= k < |qs| ensures qs[k].id in ProcIds(ps) {
        assert qs[k] == if k < j then ps[k] else ps[k + 1];
      }
    }
    forall i | 0 <= i < |w| ensures w[i].id in ProcIds(qs) {
      var n :| 0 <= n < |v| && v[n] == w[i];
      var k :| 0 <= k < |ps| && ps[k].id == w[i].id;
      assert k != j;
      assert qs[if k < j then k else k - 1] == ps[k];
    }
  }

  // What a connect request finds for its session id.
  datatype Target = UnknownSession | Target(gate: GateInfo, spaceid: string)

  datatype GateInfo = GateInfo(id: string, tpe: string, spaces: set<string>, supersedes: Option<string>)

  // How starting the process went: an ssh command may fail, or be left running alone.
  datatype Launch = Started | Failed | Detached

  // False, True or nothing returned, or a ProxyException raised.
  datatype Answer = Refused | Already | Finished | Raised

  const PROXY_TYPES := {"http-proxy", "daemon-rpc-proxy", "daemon-p2p-proxy", "socks-proxy"}

  predicate InUse(data: seq<Connection>, gateid: string, spaceid: string)
  {
    exists c :: c in data && c.gateid == gateid && c.spaceid == spaceid
  }

  // Everything below the connection, if there is one, that a connect through the gate replaces.
  ghost function Replaced(data: seq<Connection>, v: seq<Node>, ps: seq<PInfo>, gate: GateInfo): set<Id>
  {
    if gate.supersedes.None? || FirstFor(data, gate.supersedes.value).None? then {}
    else Hit(v, FirstFor(data, gate.supersedes.value).value, ProcIds(ps))
  }

  predicate Launches(gate: GateInfo, launch: Launch)
  {
    gate.tpe in PROXY_TYPES || gate.tpe == "wg" || (gate.tpe == "ssh" && launch == Started)
  }

  // Which gates leave a connection behind: the proxies and WireGuard always, ssh when its
  // process was started, and no other type.
  lemma {:induction false} LaunchesWhen(gate: GateInfo, launch: Launch)
    ensures gate.tpe in {"http-proxy", "daemon-rpc-proxy", "daemon-p2p-proxy", "socks-proxy", "wg"} ==>
              Launches(gate, launch)
    ensures gate.tpe == "ssh" ==> (Launches(gate, launch) <==> launch == Started)
    ensures gate.tpe !in {"http-proxy", "daemon-rpc-proxy", "daemon-p2p-proxy", "socks-proxy", "wg", "ssh"} ==>
              !Launches(gate, launch)
  {
  }

  // ---- the proxy --------------------------------------------------------------------------

  class Proxy {
    const connections: Connections
    var processes: seq<PInfo>
    var killed: set<nat>
    // When each connection id was created, and the next creation time.
    ghost var born: map<Id, nat>
    ghost var clock: nat

    constructor ()
      ensures Valid() && fresh(connections) && connections.data == [] && processes == [] && killed == {}
    {
      connections := new Connections();
      processes, killed, born, clock := [], {}, map[], 0;
    }

    ghost predicate Valid()
      reads this, connections, connections.data
    {
      connections.Valid() && Sound(connections.nodes, processes, born, clock)
    }

    // The age still ahead of an id: shrinks from parent to child.
    ghost function Left(id: Id): nat
      reads this
    {
      if id in born && born[id] < clock then clock - born[id] else 0
    }

    // Removes and terminates exactly what is reachable, and nothing else moves.
    method Disconnect(id: Id)
      requires Valid()
      modifies connections, this`killed
      ensures Valid()
      ensures
        var hit := Hit(old(connections.nodes), id, ProcIds(processes));
        && connections.data == Kept(old(connections.data), hit)
        && connections.nodes == Without(old(connections.nodes), hit)
        && killed == old(killed) + Handles(processes, hit)
      decreases Left(id), 2
    {
      hide Sound, ViewOf, HitAll, Handles, ChildrenOf, Without, Kept;
      ghost var all, v := connections.data, connections.nodes;
      ghost var below := HitAll(v, ChildrenOf(v, id), ProcIds(processes));
      KeptNothing(all);
      WithoutNothing(v, {});
      for j := 0 to |processes|
        invariant Valid()
        invariant connections.data == Kept(all, GoneBy(processes, j, id, below))
        invariant connections.nodes == Without(v, GoneBy(processes, j, id, below))
        invariant killed == old(killed) + DeadBy(processes, j, id, below)
      {
        if processes[j].id == id {
          EntrySevered(all, v, old(killed), processes, j, id, below);
          Sever(processes[j]);
        } else {
          EntryPassed(processes, j, id, below);
        }
      }
      EntriesDone(v, processes, born, clock, id, below);
    }

    // What a disconnect does for one entry of the process list.
    method Sever(p: PInfo)
      requires Valid()
      modifies connections, this`killed
      ensures Valid()
      ensures
        var below := HitAll(old(connections.nodes), ChildrenOf(old(connections.nodes), p.id), ProcIds(processes));
        && connections.data == Kept(old(connections.data), below + {p.id})
        && connections.nodes == Without(old(connections.nodes), below + {p.id})
        && killed == old(killed) + Handles(processes, below) + if p.process.Some? then {p.process.value} else {}
      decreases Left(p.id), 1
    {
      hide Sound, ViewOf;
      ghost var all, v := connections.data, connections.nodes;
      ghost var below := HitAll(v, ChildrenOf(v, p.id), ProcIds(processes));
      KeptNothing(all);
      WithoutNothing(v, {});
      var c := connections.Get(p.id);
      if c != null {
        DisconnectAll(p.id, c.children);
      } else {
        assert below == {};
      }
      assert connections.data == Kept(all, below) && connections.nodes == Without(v, below);
      if p.process.Some? {
        killed := killed + {p.process.value};
      }
      var _ := connections.Remove(p.id);
      KeptTwice(all, below, {p.id});
      WithoutTwice(v, below, {p.id});
      WithoutSound(v, below + {p.id}, processes, born, clock);
    }

    method DisconnectAll(id: Id, subs: seq<Id>)
      requires Valid()
      requires subs == ChildrenOf(connections.nodes, id)
      modifies connections, this`killed
      ensures Valid()
      ensures
        var hit := HitAll(old(connections.nodes), subs, ProcIds(processes));
        && connections.data == Kept(old(connections.data), hit)
        && connections.nodes == Without(old(connections.nodes), hit)
        && killed == old(killed) + Handles(processes, hit)
      decreases Left(id), 0
    {
      hide ViewOf;
      ghost var procs, all, v := ProcIds(processes), connections.data, connections.nodes;
      KeptNothing(all);
      WithoutNothing(v, {});
      ChildrenYounger(v, born, clock, id);
      assert HitAll(v, subs[..0], procs) == {};
      for k := 0 to |subs|
        invariant Valid()
        invariant
          var hit := HitAll(v, subs[..k], procs);
          && connections.data == Kept(all, hit)
          && connections.nodes == Without(v, hit)
          && killed == old(killed) + Handles(processes, hit)
      {
        OneMoreOut(v, subs, k, processes);
        ghost var u := HitAll(v, subs[..k], procs);
        ghost var more := Hit(Without(v, u), subs[k], procs);
        Disconnect(subs[k]);
        KeptTwice(all, u, more);
        WithoutTwice(v, u, more);
      }
      assert subs[..|subs|] == subs;
    }

    // Connects at most once per gate and space, after taking out what the gate replaces.
    method Connect(target: Target, id: Id, handle: nat, launch: Launch) returns (a: Answer, c: Connection?)
      requires Valid() && id !in born
      modifies this`processes, this`killed, this`born, this`clock, connections
      ensures Valid()
      ensures a == if target.UnknownSession? then Refused
                   else if InUse(old(connections.data), target.gate.id, target.spaceid) then Already
                   else if target.spaceid !in target.gate.spaces then Raised
                   else if target.gate.tpe == "ssh" && launch == Failed then Refused
                   else Finished
      ensures c != null <==> a == Finished && Launches(target.gate, launch)
      ensures c != null ==> c.id == id && c.gateid == target.gate.id && c.spaceid == target.spaceid
      ensures
        var gone := if a == Finished || (a == Refused && target.Target?)
                    then Replaced(old(connections.data), old(connections.nodes), old(processes), target.gate) else {};
        && connections.data == Kept(old(connections.data), gone) + (if c == null then [] else [c])
        && connections.nodes == Without(old(connections.nodes), gone) + (if c == null then [] else [Node(id, [])])
        && killed == old(killed) + Handles(old(processes), gone)
        && processes == old(processes) + if c == null then [] else [PInfo(id, Some(handle))]
    {
      hide Sound, ViewOf;
      KeptNothing(connections.data);
      WithoutNothing(connections.nodes, {});
      assert Handles(processes, {}) == {};
      if target.UnknownSession? {
        return Refused, null;
      }
      var used := connections.IsConnected(target.gate.id, target.spaceid);
      if used {
        return Already, null;
      }
      if target.spaceid !in target.gate.spaces {
        return Raised, null;
      }
      Replace(target.gate);
      if target.gate.tpe == "ssh" && launch == Failed {
        return Refused, null;
      }
      a, c := Finished, null;
      if target.gate.tpe in PROXY_TYPES || target.gate.tpe == "wg" || (target.gate.tpe == "ssh" && launch == Started) {
        c := Start(id, target.gate.id, target.spaceid, handle);
      }
    }

    method Replace(gate: GateInfo)
      requires Valid()
      modifies this`killed, connections
      ensures Valid()
      ensures
        var gone := Replaced(old(connections.data), old(connections.nodes), processes, gate);
        && connections.data == Kept(old(connections.data), gone)
        && connections.nodes == Without(old(connections.nodes), gone)
        && killed == old(killed) + Handles(processes, gone)
    {
      KeptNothing(connections.data);
      WithoutNothing(connections.nodes, {});
      assert Handles(processes, {}) == {};
      if gate.supersedes.Some? {
        var replaced := connections.FindByGateid(gate.supersedes.value);
        if replaced.Some? {
          Disconnect(replaced.value);
        }
      }
    }

    // A process and its connection, entered in both lists.
    method Start(id: Id, gateid: string, spaceid: string, handle: nat) returns (c: Connection)
      requires Valid() && id !in born
      modifies this`processes, this`born, this`clock, connections
      ensures Valid()
      ensures c.id == id && c.gateid == gateid && c.spaceid == spaceid
      ensures processes == old(processes) + [PInfo(id, Some(handle))]
      ensures connections.data == old(connections.data) + [c]
      ensures connections.nodes == old(connections.nodes) + [Node(id, [])]
      ensures born == old(born)[id := old(clock)] && clock == old(clock) + 1
    {
      hide Sound, ViewOf;
      AddedSound(connections.nodes, PInfo(id, Some(handle)), processes, born, clock);
      c := new Connection(id, gateid, spaceid);
      processes := processes + [PInfo(id, Some(handle))];
      connections.Add(c);
      born, clock := born[id := clock], clock + 1;
    }

    // A connection made by another process: it hangs below its parent when that is listed.
    // Asking a record for its parent raises when it names none; an empty name is no parent.
    method ConnectInfo(id: Id, parent: Option<Id>, gateid: string, spaceid: string)
      returns (raised: bool, c: Connection?)
      requires Valid() && id !in born
      modifies this`processes, this`born, this`clock, connections, connections.data
      ensures Valid()
      ensures raised <==> parent.None?
      ensures raised ==>
                && c == null && processes == old(processes)
                && connections.data == old(connections.data) && connections.nodes == old(connections.nodes)
      ensures !raised ==>
                && c != null && c.id == id && c.gateid == gateid && c.spaceid == spaceid
                && processes == old(processes) + [PInfo(id, None)]
                && connections.data == old(connections.data) + [c]
                && connections.nodes ==
                   Adopted(old(connections.nodes), if parent == Some("") then None else parent, id) + [Node(id, [])]
    {
      if parent.None? {
        return true, null;
      }
      var named := if parent == Some("") then None else parent;
      c := EnterForwarded(id, named, gateid, spaceid);
      return false, c;
    }

    method EnterForwarded(id: Id, parent: Option<Id>, gateid: string, spaceid: string) returns (c: Connection)
      requires Valid() && id !in born
      modifies this`processes, this`born, this`clock, connections, connections.data
      ensures Valid()
      ensures c.id == id && c.gateid == gateid && c.spaceid == spaceid
      ensures processes == old(processes) + [PInfo(id, None)]
      ensures connections.data == old(connections.data) + [c]
      ensures connections.nodes == Adopted(old(connections.nodes), parent, id) + [Node(id, [])]
    {
      hide ViewOf, Adopted, Backed, Ordered, Distinct;
      AdoptedSound(connections.nodes, parent, PInfo(id, None), processes, born, clock);
      c := new Connection(id, gateid, spaceid);
      Adopt(parent, id);
      connections.Add(c);
      processes := processes + [PInfo(id, None)];
      born, clock := born[id := clock], clock + 1;
    }

    method Adopt(parent: Option<Id>, child: Id)
      requires connections.Valid() && Distinct(connections.nodes)
      modifies connections`nodes, connections.data
      ensures connections.Valid()
      ensures connections.nodes == Adopted(old(connections.nodes), parent, child)
    {
      ghost var v := connections.nodes;
      var p: Connection? := null;
      if parent.Some? {
        p := connections.Get(parent.value);
      }
      if p == null {
        AdoptedNowhere(v, parent, child);
      } else {
        ghost var i :| 0 <= i < |connections.data| && connections.data[i] == p;
        AdoptedAt(v, i, child);
        AdoptAt(p, i, child);
      }
    }

    method AdoptAt(p: Connection, ghost i: nat, child: Id)
      requires connections.Valid() && Distinct(connections.nodes)
      requires i < |connections.data| && connections.data[i] == p
      modifies connections`nodes, p
      ensures connections.Valid()
      ensures connections.nodes == old(connections.nodes[i := Node(p.id, p.children + [child])])
    {
      ghost var v := connections.nodes;
      assert forall k :: 0 <= k < |v| && v[k].id == v[i].id ==> k == i;
      p.AddChildren(child);
      ViewOfAdopted(connections.data, v, i, child);
      connections.nodes := v[i := Node(p.id, v[i].children + [child])];
    }

    // A process found dead leaves the list, and its connection and the direct children with it.
    method RemoveDead(j: nat)
      requires Valid() && j < |processes|
      modifies this`processes, connections
      ensures Valid()
      ensures processes == old(processes)[..j] + old(processes)[j + 1..]
      ensures
        var gone := WithChildren(old(connections.nodes), old(processes)[j].id);
        && connections.data == Kept(old(connections.data), gone)
        && connections.nodes == Without(old(connections.nodes), gone)
    {
      hide Sound, ViewOf, Present, ToSet;
      ghost var v := connections.nodes;
      RemoveWithChildren(processes[j].id);
      EntryRemovedSound(v, WithChildren(v, processes[j].id), j, processes, born, clock);
      processes := processes[..j] + processes[j + 1..];
    }

    method RemoveWithChildren(id: Id)
      requires Valid()
      modifies connections
      ensures connections.Valid()
      ensures
        var gone := WithChildren(old(connections.nodes), id);
        && connections.data == Kept(old(connections.data), gone)
        && connections.nodes == Without(old(connections.nodes), gone)
    {
      hide Sound, ViewOf, Present, ToSet;
      ghost var all, v := connections.data, connections.nodes;
      KeptNothing(all);
      WithoutNothing(v, {});
      var c := connections.Get(id);
      if c != null {
        var subs := c.children;
        RemoveEach(subs);
        var _ := connections.Remove(id);
        KeptTwice(all, ToSet(subs), {id});
        WithoutTwice(v, ToSet(subs), {id});
      }
    }

    method RemoveEach(ids: seq<Id>)
      requires Valid()
      modifies connections
      ensures Valid()
      ensures connections.data == Kept(old(connections.data), ToSet(ids))
      ensures connections.nodes == Without(old(connections.nodes), ToSet(ids))
    {
      hide Sound, ViewOf;
      ghost var all, v := connections.data, connections.nodes;
      KeptNothing(all);
      WithoutNothing(v, {});
      assert ToSet(ids[..0]) == {};
      for k := 0 to |ids|
        invariant connections.Valid()
        invariant connections.data == Kept(all, ToSet(ids[..k])) && connections.nodes == Without(v, ToSet(ids[..k]))
      {
        var _ := connections.Remove(ids[k]);
        ToSetPush(ids, k);
        KeptTwice(all, ToSet(ids[..k]), {ids[k]});
        WithoutTwice(v, ToSet(ids[..k]), {ids[k]});
      }
      assert ids[..|ids|] == ids;
      WithoutSound(v, ToSet(ids), processes, born, clock);
    }

    // A liveness check gives up on some connections; their processes stay.
    method CheckAlive(dead: seq<Id>)
      requires Valid()
      modifies connections
      ensures Valid()
      ensures connections.data == Kept(old(connections.data), ToSet(dead))
      ensures connections.nodes == Without(old(connections.nodes), ToSet(dead))
    {
      RemoveEach(dead);
    }
  }

  lemma {:induction false} ViewOfAdopted(data: seq<Connection>, v: seq<Node>, i: nat, child: Id)
    requires |v| == |data| && i < |v|
    requires forall k :: 0 <= k < |v| ==>
               data[k].id == v[k].id && data[k].children == if k == i then v[k].children + [child] else v[k].children
    ensures ViewOf(data) == v[i := Node(v[i].id, v[i].children + [child])]
  {
  }

  function ToSet(ids: seq<Id>): set<Id>
  {
    set i | 0 <= i < |ids| :: ids[i]
  }

  lemma {:induction false} ToSetPush(ids: seq<Id>, k: nat)
    requires k < |ids|
    ensures ToSet(ids[..k + 1]) == ToSet(ids[..k]) + {ids[k]}
  {
    assert ids[..k + 1] == ids[..k] + [ids[k]];
    assert ids[..k + 1][k] == ids[k];
    assert forall i :: 0 <= i < k ==> ids[..k][i] == ids[..k + 1][i];
  }

  // Disconnecting the same id twice takes out what disconnecting it once does.
  lemma {:induction false} SecondDisconnect(data: seq<Connection>, v: seq<Node>, id: Id, ps: seq<PInfo>)
    requires Backed(v, ProcIds(ps))
    ensures
      var hit := Hit(v, id, ProcIds(ps));
      var again := Hit(Without(v, hit), id, ProcIds(ps));
      Kept(Kept(data, hit), again) == Kept(data, hit) && Without(Without(v, hit), again) == Without(v, hit)
  {
    var hit := Hit(v, id, ProcIds(ps));
    var again := Hit(Without(v, hit), id, ProcIds(ps));
    HitAgain(v, id, ProcIds(ps));
    KeptTwice(data, hit, again);
    WithoutTwice(v, hit, again);
  }

  // In every valid state the listed connections have process entries, and no
  // connection is below one of its children.
  lemma {:induction false} SoundIsAcyclic(v: seq<Node>, ps: seq<PInfo>, born: map<Id, nat>, clock: nat)
    requires Sound(v, ps, born, clock)
    ensures forall i :: 0 <= i < |v| ==> v[i].id in ProcIds(ps)
    ensures forall a, c :: c in ChildrenOf(v, a) ==> !Reaches(v, c, a)
  {
    forall a, c | c in ChildrenOf(v, a) ensures !Reaches(v, c, a) {
      Acyclic(v, born, clock, a, c);
    }
  }
}
