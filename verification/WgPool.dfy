/** The address pool of a WireGuard gate (server/wg_service.py): who gets which address. */
module WgPool {
  import opened Basics

  // ---- addresses and blocks -----------------------------------------------------------

  // One allowed network of a peer: an address and its prefix length.
  datatype Cidr = V4(addr: int, plen: nat) | V6(addr: int, plen: nat)

  // A block in prefix notation (section 3.1 of RFC 4632) with the gateway's own address.
  datatype Block = Block(base: int, plen: nat, gateway: int)

  function Pow2(n: nat): (p: nat)
    ensures p >= 1
    ensures n >= 2 ==> p >= 4
  {
    if n == 0 then 1 else 2 * Pow2(n - 1)
  }

  function Size(b: Block): (n: nat)
    requires b.plen <= 32
    ensures n >= 1
    ensures b.plen <= 30 ==> n >= 4
  {
    Pow2(32 - b.plen)
  }

  function Range(lo: int, hi: int): (range: set<int>)
    requires lo <= hi
    ensures forall a :: a in range <==> lo <= a < hi
    ensures |range| == hi - lo
    decreases hi - lo
  {
    if lo == hi then {} else Range(lo, hi - 1) + {hi - 1}
  }

  // What may be handed out: not the network, not the broadcast, not the gateway address.
  function Usable(b: Block): set<int>
    requires b.plen <= 32
  {
    Range(b.base, b.base + Size(b)) - {b.base, b.base + Size(b) - 1, b.gateway}
  }

  // The single addresses among some allowed networks.
  function Singles(cidrs: seq<Cidr>): set<int>
  {
    set i | 0 <= i < |cidrs| && cidrs[i].V4? && cidrs[i].plen == 32 :: cidrs[i].addr
  }

  // A peer whose allowed networks were printed as "(none)" has no list at all.
  type PeerNets = Option<seq<Cidr>>

  function Installed(peers: seq<PeerNets>): set<int>
  {
    set i, a | 0 <= i < |peers| && peers[i].Some? && a in Singles(peers[i].value) :: a
  }

  // The least usable address that is not taken, and none only when all are.
  ghost predicate LeastFree(b: Block, taken: set<int>, r: Option<int>)
    requires b.plen <= 32
  {
    match r
    case None => Usable(b) <= taken
    case Some(a) => a in Usable(b) && a !in taken && forall c :: c in Usable(b) && c < a ==> c in taken
  }

  // ---- the allocator --------------------------------------------------------------------

  datatype PoolError = NoAllowedIps

  method FindFreeIp(b: Block, peers: seq<PeerNets>) returns (r: Result<Option<int>, PoolError>)
    requires b.plen <= 32
    ensures r.Err? <==> exists i :: 0 <= i < |peers| && peers[i].None?
    ensures r.Ok? ==> LeastFree(b, Installed(peers), r.value)
  {
    var found: seq<int> := [];
    for i := 0 to |peers|
      invariant forall k :: 0 <= k < i ==> peers[k].Some?
      invariant forall a :: InBlock(b, a) ==> (a in found <==> a in Installed(peers[..i]))
    {
      InstalledPush(peers, i);
      if peers[i].None? {
        return Err(NoAllowedIps);
      }
      var more := SinglesIn(b, peers[i].value);
      found := found + more;
    }
    assert peers[..|peers|] == peers;
    for a := b.base to b.base + Size(b)
      invariant forall c :: c in Usable(b) && c < a ==> c in Installed(peers)
    {
      if a == b.gateway || a == b.base || a == b.base + Size(b) - 1 {
        continue;
      } else if a in found {
        continue;
      } else {
        return Ok(Some(a));
      }
    }
    return Ok(None);
  }

  predicate InBlock(b: Block, a: int)
    requires b.plen <= 32
  {
    b.base <= a < b.base + Size(b)
  }

  method SinglesIn(b: Block, cidrs: seq<Cidr>) returns (found: seq<int>)
    requires b.plen <= 32
    ensures forall a :: InBlock(b, a) ==> (a in found <==> a in Singles(cidrs))
  {
    found := [];
    for i := 0 to |cidrs|
      invariant forall a :: a in found <==> InBlock(b, a) && a in Singles(cidrs[..i])
    {
      SinglesPush(cidrs, i);
      if cidrs[i].plen == 32 {
        if cidrs[i].V4? && InBlock(b, cidrs[i].addr) {
          found := found + [cidrs[i].addr];
        }
      } else {
        continue;
      }
    }
    assert cidrs[..|cidrs|] == cidrs;
  }

  lemma {:induction false} SinglesPush(cidrs: seq<Cidr>, i: nat)
    requires i < |cidrs|
    ensures Singles(cidrs[..i + 1]) ==
            Singles(cidrs[..i]) + if cidrs[i].V4? && cidrs[i].plen == 32 then {cidrs[i].addr} else {}
  {
    var less, more := cidrs[..i], cidrs[..i + 1];
    assert more[i] == cidrs[i];
    assert forall k :: 0 <= k < i ==> less[k] == more[k];
  }

  lemma {:induction false} InstalledPush(peers: seq<PeerNets>, i: nat)
    requires i < |peers|
    ensures Installed(peers[..i + 1]) ==
            Installed(peers[..i]) + if peers[i].Some? then Singles(peers[i].value) else {}
  {
    var less, more := peers[..i], peers[..i + 1];
    assert more[i] == peers[i];
    assert forall k :: 0 <= k < i ==> less[k] == more[k];
  }

  // ---- the size of the pool ----------------------------------------------------------------

  // The number of addresses in a block, by prefix length from 0 to 32.
  const BLOCK_SIZES := [
    4294967296, 2147483648, 1073741824, 536870912, 268435456, 134217728, 67108864, 33554432,
    16777216, 8388608, 4194304, 2097152, 1048576, 524288, 262144, 131072,
    65536, 32768, 16384, 8192, 4096, 2048, 1024, 512,
    256, 128, 64, 32, 16, 8, 4, 2, 1]

  lemma {:induction false} SizeIsListed(plen: nat)
    requires plen <= 32
    ensures Pow2(32 - plen) == BLOCK_SIZES[plen]
    decreases 32 - plen
  {
    if plen < 32 {
      SizeIsListed(plen + 1);
    }
  }

  // A block of four addresses or more with the gateway among its hosts leaves all but three.
  lemma {:induction false} PoolSize(b: Block)
    requires b.plen <= 30 && b.base < b.gateway < b.base + BLOCK_SIZES[b.plen] - 1
    ensures |Usable(b)| == BLOCK_SIZES[b.plen] - 3
    ensures forall a :: a in Usable(b) <==> b.base < a < b.base + BLOCK_SIZES[b.plen] - 1 && a != b.gateway
  {
    SizeIsListed(b.plen);
    assert Size(b) == BLOCK_SIZES[b.plen];
    hide BLOCK_SIZES;
    var all := Range(b.base, b.base + Size(b));
    var out := {b.base, b.base + Size(b) - 1, b.gateway};
    assert out <= all && |out| == 3;
    assert |all - out| == |all| - |out|;
  }

  // ---- runs: each allocation is installed before the next -------------------------------------

  type Peers = map<string, seq<Cidr>>

  // What a new peer is allowed: its own address.
  function Nets(ip: int): seq<Cidr>
  {
    [V4(ip, 32)]
  }

  function Taken(p: Peers): set<int>
  {
    set k, a | k in p && a in Singles(p[k]) :: a
  }

  // A join installs the allocated address, or nothing when the pool had none.
  datatype Step = Join(key: string, ip: Option<int>) | Leave(key: string)

  function Apply(p: Peers, s: Step): Peers
  {
    match s
    case Join(key, ip) => if ip.Some? then p[key := Nets(ip.value)] else p
    case Leave(key) => p - {key}
  }

  function Run(p: Peers, steps: seq<Step>): Peers
  {
    if |steps| == 0 then p else Apply(Run(p, steps[..|steps| - 1]), steps[|steps| - 1])
  }

  // Every join carries what the allocator answers for the peers at that moment.
  ghost predicate Lawful(b: Block, p: Peers, steps: seq<Step>)
    requires b.plen <= 32
  {
    forall i :: 0 <= i < |steps| && steps[i].Join? ==> LeastFree(b, Taken(Run(p, steps[..i])), steps[i].ip)
  }

  // Every peer holds one usable address and no two hold the same.
  predicate Separate(b: Block, p: Peers)
    requires b.plen <= 32
  {
    && (forall k :: k in p ==> exists a :: a in Usable(b) && Singles(p[k]) == {a})
    && (forall k, l :: k in p && l in p && k != l ==> Singles(p[k]) !! Singles(p[l]))
  }

  lemma {:induction false} NetsSingle(ip: int)
    ensures Singles(Nets(ip)) == {ip}
  {
    assert Nets(ip)[0] == V4(ip, 32);
  }

  lemma {:induction false} NotHeld(p: Peers, a: int)
    requires a !in Taken(p)
    ensures forall k :: k in p ==> a !in Singles(p[k])
  {
    assert forall k :: k in p && a in Singles(p[k]) ==> a in Taken(p);
  }

  lemma {:induction false} RunSeparate(b: Block, first: Peers, steps: seq<Step>)
    requires b.plen <= 32 && Separate(b, first) && Lawful(b, first, steps)
    ensures Separate(b, Run(first, steps))
  {
    if |steps| > 0 {
      var before, s := steps[..|steps| - 1], steps[|steps| - 1];
      assert forall i :: 0 <= i < |before| ==> before[i] == steps[i] && before[..i] == steps[..i];
      RunSeparate(b, first, before);
      if s.Join? && s.ip.Some? {
        var p := Run(first, before);
        NetsSingle(s.ip.value);
        NotHeld(p, s.ip.value);
      }
    }
  }

  // Taking one peer away frees its address alone.
  lemma {:induction false} TakenWithout(b: Block, p: Peers, k: string) returns (a: int)
    requires b.plen <= 32 && Separate(b, p) && k in p
    ensures a in Usable(b) && a !in Taken(p - {k}) && Taken(p) == Taken(p - {k}) + {a}
  {
    var q := p - {k};
    a :| a in Usable(b) && Singles(p[k]) == {a};
    assert a in Singles(p[k]);
    assert forall l :: l in q ==> q[l] == p[l] && Singles(p[l]) !! Singles(p[k]);
    assert forall l, x :: l in p && x in Singles(p[l]) && l != k ==> l in q && x in Singles(q[l]);
    assert forall l, x :: l in q && x in Singles(q[l]) ==> l in p && x in Singles(p[l]);
  }

  // As many addresses are taken as there are peers.
  lemma {:induction false} TakenCount(b: Block, p: Peers)
    requires b.plen <= 32 && Separate(b, p)
    ensures |Taken(p)| == |p| && Taken(p) <= Usable(b)
    decreases |p|
  {
    if k :| k in p {
      var a := TakenWithout(b, p, k);
      var q := p - {k};
      assert q.Keys == p.Keys - {k};
      assert |q| == |p| - 1;
      TakenCount(b, q);
    }
  }

  lemma {:induction false} SubsetSmaller(s: set<int>, t: set<int>)
    requires s <= t
    ensures |s| <= |t|
    ensures |s| == |t| ==> s == t
  {
    assert |t - s| == |t| - |s|;
    if |s| == |t| {
      assert t - s == {};
    }
  }

  // With separate peers the allocator fails exactly when there are as many peers as
  // usable addresses.
  lemma {:induction false} FullMeansAllUsed(b: Block, p: Peers, next: Option<int>)
    requires b.plen <= 32 && Separate(b, p) && LeastFree(b, Taken(p), next)
    ensures |p| <= |Usable(b)|
    ensures next.None? <==> |p| == |Usable(b)|
  {
    TakenCount(b, p);
    SubsetSmaller(Taken(p), Usable(b));
    hide Taken, Usable, Singles, Separate;
    assert Usable(b) <= Taken(p) <==> Taken(p) == Usable(b);
    assert next.None? <==> Usable(b) <= Taken(p);
  }

  // Along every run from an interface whose peers hold usable addresses, no two the same,
  // the installed addresses stay usable and pairwise distinct, and the next allocation is
  // of a further one while there are fewer peers than usable addresses.
  lemma {:induction false} PoolRuns(b: Block, first: Peers, steps: seq<Step>, next: Option<int>)
    requires b.plen <= 32 && Separate(b, first) && Lawful(b, first, steps)
    requires LeastFree(b, Taken(Run(first, steps)), next)
    ensures Separate(b, Run(first, steps))
    ensures |Run(first, steps)| <= |Usable(b)|
    ensures next.None? <==> |Run(first, steps)| == |Usable(b)|
    ensures next.Some? ==> forall k :: k in Run(first, steps) ==> next.value !in Singles(Run(first, steps)[k])
  {
    RunSeparate(b, first, steps);
    FullMeansAllUsed(b, Run(first, steps), next);
    if next.Some? {
      NotHeld(Run(first, steps), next.value);
    }
  }
}
