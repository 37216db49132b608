/** Reachability through child links, on snapshots of the connection list. */
module Forest {
  import opened Basics

  type Id = string

  datatype Node = Node(id: Id, children: seq<Id>)

  // ---- the list as a graph --------------------------------------------------------------

  ghost predicate Present(v: seq<Node>, id: Id)
  {
    exists i :: 0 <= i < |v| && v[i].id == id
  }

  // The children of the first connection with the id, which is the one a lookup finds.
  function ChildrenOf(v: seq<Node>, id: Id): seq<Id>
  {
    if |v| == 0 then [] else if v[0].id == id then v[0].children else ChildrenOf(v[1..], id)
  }

  predicate IsPath(v: seq<Node>, p: seq<Id>)
  {
    |p| >= 1 && forall i :: 0 <= i < |p| - 1 ==> p[i + 1] in ChildrenOf(v, p[i])
  }

  ghost predicate Reaches(v: seq<Node>, a: Id, b: Id)
  {
    exists p :: IsPath(v, p) && p[0] == a && p[|p| - 1] == b
  }

  // The list without some ids, the others in place and in order.
  function Without(v: seq<Node>, gone: set<Id>): seq<Node>
  {
    if |v| == 0 then []
    else if v[0].id in gone then Without(v[1..], gone)
    else [v[0]] + Without(v[1..], gone)
  }

  lemma {:induction false} WithoutChildren(v: seq<Node>, gone: set<Id>, id: Id)
    ensures ChildrenOf(Without(v, gone), id) == if id in gone then [] else ChildrenOf(v, id)
  {
    if |v| > 0 {
      WithoutChildren(v[1..], gone, id);
      var rest := Without(v[1..], gone);
      assert ([v[0]] + rest)[1..] == rest;
    }
  }

  lemma {:induction false} WithoutTwice(v: seq<Node>, a: set<Id>, b: set<Id>)
    ensures Without(Without(v, a), b) == Without(v, a + b)
  {
    if |v| > 0 {
      WithoutTwice(v[1..], a, b);
      var rest := Without(v[1..], a);
      assert ([v[0]] + rest)[1..] == rest;
    }
  }

  lemma {:induction false} WithoutNothing(v: seq<Node>, gone: set<Id>)
    requires forall i :: 0 <= i < |v| ==> v[i].id !in gone
    ensures Without(v, gone) == v
  {
    if |v| > 0 {
      WithoutNothing(v[1..], gone);
    }
  }

  // ---- reachability ---------------------------------------------------------------------

  lemma {:induction false} ReachesSelf(v: seq<Node>, a: Id)
    ensures Reaches(v, a, a)
  {
    assert IsPath(v, [a]);
  }

  lemma {:induction false} ReachesStep(v: seq<Node>, a: Id, c: Id, b: Id)
    requires c in ChildrenOf(v, a) && Reaches(v, c, b)
    ensures Reaches(v, a, b)
  {
    var p :| IsPath(v, p) && p[0] == c && p[|p| - 1] == b;
    var q := [a] + p;
    forall i | 0 <= i < |q| - 1 ensures q[i + 1] in ChildrenOf(v, q[i]) {
      assert i > 0 ==> q[i] == p[i - 1] && q[i + 1] == p[i];
    }
    assert IsPath(v, q) && q[0] == a && q[|q| - 1] == b;
  }

  lemma {:induction false} FirstStep(v: seq<Node>, a: Id, b: Id) returns (c: Id)
    requires Reaches(v, a, b) && a != b
    ensures c in ChildrenOf(v, a) && Reaches(v, c, b)
  {
    var p :| IsPath(v, p) && p[0] == a && p[|p| - 1] == b;
    c := p[1];
    var q := p[1..];
    assert forall i :: 0 <= i < |q| ==> q[i] == p[i + 1];
    assert IsPath(v, q) && q[0] == c && q[|q| - 1] == b;
  }

  // ---- what a disconnect hits -------------------------------------------------------------

  // The processes' ids reachable from `a`.
  ghost function Hit(v: seq<Node>, a: Id, procs: set<Id>): set<Id>
  {
    set x | x in procs && Reaches(v, a, x)
  }

  ghost function HitAll(v: seq<Node>, subs: seq<Id>, procs: set<Id>): set<Id>
  {
    set x | x in procs && exists i :: 0 <= i < |subs| && Reaches(v, subs[i], x)
  }

  // Every listed connection has a process.
  ghost predicate Backed(v: seq<Node>, procs: set<Id>)
  {
    forall i :: 0 <= i < |v| ==> v[i].id in procs
  }

  // A set that holds, with a connection, everything below it that has a process.
  ghost predicate DownClosed(v: seq<Node>, u: set<Id>, procs: set<Id>)
  {
    forall a, c :: a in u && c in ChildrenOf(v, a) && c in procs ==> c in u
  }

  lemma {:induction false} ChildrenMeansPresent(v: seq<Node>, a: Id)
    ensures ChildrenOf(v, a) != [] ==> Present(v, a)
  {
    if |v| > 0 && v[0].id != a {
      ChildrenMeansPresent(v[1..], a);
      if Present(v[1..], a) {
        var i :| 0 <= i < |v[1..]| && v[1..][i].id == a;
        assert v[i + 1].id == a;
      }
    }
  }

  lemma {:induction false} HitAllDownClosed(v: seq<Node>, subs: seq<Id>, procs: set<Id>)
    ensures DownClosed(v, HitAll(v, subs, procs), procs)
  {
    forall a, c | a in HitAll(v, subs, procs) && c in ChildrenOf(v, a) && c in procs
      ensures c in HitAll(v, subs, procs)
    {
      var i :| 0 <= i < |subs| && Reaches(v, subs[i], a);
      ReachesSnoc(v, subs[i], a, c);
    }
  }

  lemma {:induction false} ReachesSnoc(v: seq<Node>, a: Id, b: Id, c: Id)
    requires Reaches(v, a, b) && c in ChildrenOf(v, b)
    ensures Reaches(v, a, c)
  {
    var p :| IsPath(v, p) && p[0] == a && p[|p| - 1] == b;
    var q := p + [c];
    forall i | 0 <= i < |q| - 1 ensures q[i + 1] in ChildrenOf(v, q[i]) {
      assert i < |p| - 1 ==> q[i] == p[i] && q[i + 1] == p[i + 1];
    }
    assert IsPath(v, q) && q[0] == a && q[|q| - 1] == c;
  }

  // Taking a down-closed set out first changes nothing about what is hit besides it.
  lemma {:induction false} HitBeside(v: seq<Node>, u: set<Id>, a: Id, procs: set<Id>)
    requires Backed(v, procs) && DownClosed(v, u, procs)
    ensures u + Hit(Without(v, u), a, procs) == u + Hit(v, a, procs)
  {
    forall x | x in procs && x !in u ensures Reaches(Without(v, u), a, x) <==> Reaches(v, a, x) {
      if Reaches(Without(v, u), a, x) {
        var p :| IsPath(Without(v, u), p) && p[0] == a && p[|p| - 1] == x;
        forall i | 0 <= i < |p| - 1 ensures p[i + 1] in ChildrenOf(v, p[i]) {
          WithoutChildren(v, u, p[i]);
        }
        assert IsPath(v, p);
      }
      if Reaches(v, a, x) {
        var p :| IsPath(v, p) && p[0] == a && p[|p| - 1] == x;
        AvoidsSet(v, u, p, procs);
        forall i | 0 <= i < |p| - 1 ensures p[i + 1] in ChildrenOf(Without(v, u), p[i]) {
          WithoutChildren(v, u, p[i]);
        }
        assert IsPath(Without(v, u), p);
      }
    }
  }

  // A path that ends outside a down-closed set never enters it.
  lemma {:induction false} AvoidsSet(v: seq<Node>, u: set<Id>, p: seq<Id>, procs: set<Id>)
    requires Backed(v, procs) && DownClosed(v, u, procs) && IsPath(v, p)
    requires p[|p| - 1] in procs && p[|p| - 1] !in u
    ensures forall i :: 0 <= i < |p| ==> p[i] !in u
    decreases |p|
  {
    if |p| > 1 {
      var q := p[..|p| - 1];
      var b, c := p[|p| - 2], p[|p| - 1];
      assert c in ChildrenOf(v, b);
      ChildrenMeansPresent(v, b);
      assert b !in u && b in procs;
      assert forall i :: 0 <= i < |q| ==> q[i] == p[i];
      AvoidsSet(v, u, q, procs);
    }
  }

  lemma {:induction false} HitAllPush(v: seq<Node>, subs: seq<Id>, k: nat, procs: set<Id>)
    requires k < |subs|
    ensures HitAll(v, subs[..k + 1], procs) == HitAll(v, subs[..k], procs) + Hit(v, subs[k], procs)
  {
    var less, more := subs[..k], subs[..k + 1];
    forall x | x in procs
      ensures x in HitAll(v, more, procs) <==> x in HitAll(v, less, procs) || Reaches(v, subs[k], x)
    {
      if x in HitAll(v, more, procs) {
        var i :| 0 <= i < |more| && Reaches(v, more[i], x);
        assert i < k ==> less[i] == more[i];
      }
      if x in HitAll(v, less, procs) {
        var i :| 0 <= i < |less| && Reaches(v, less[i], x);
        assert more[i] == less[i];
      }
      if Reaches(v, subs[k], x) {
        assert more[k] == subs[k];
      }
    }
  }

  // What a connection hits is itself and what its children hit.
  lemma {:induction false} HitUnfold(v: seq<Node>, a: Id, procs: set<Id>)
    requires a in procs
    ensures Hit(v, a, procs) == {a} + HitAll(v, ChildrenOf(v, a), procs)
  {
    var subs := ChildrenOf(v, a);
    ReachesSelf(v, a);
    forall x | x in procs && x != a
      ensures Reaches(v, a, x) <==> exists i :: 0 <= i < |subs| && Reaches(v, subs[i], x)
    {
      if Reaches(v, a, x) {
        var c := FirstStep(v, a, x);
        var i :| 0 <= i < |subs| && subs[i] == c;
        assert Reaches(v, subs[i], x);
      }
      if i :| 0 <= i < |subs| && Reaches(v, subs[i], x) {
        ReachesStep(v, a, subs[i], x);
      }
    }
    forall x | x in HitAll(v, subs, procs) ensures x in Hit(v, a, procs) {
      var i :| 0 <= i < |subs| && Reaches(v, subs[i], x);
      ReachesStep(v, a, subs[i], x);
    }
  }

  // An id without process hits nothing.
  lemma {:induction false} HitNothing(v: seq<Node>, a: Id, procs: set<Id>)
    requires a !in procs && Backed(v, procs)
    ensures Hit(v, a, procs) == {}
  {
    forall x | x in procs ensures !Reaches(v, a, x) {
      if Reaches(v, a, x) {
        var c := FirstStep(v, a, x);
        ChildrenMeansPresent(v, a);
        assert false;
      }
    }
  }

  // ---- a new child --------------------------------------------------------------------------

  // The list with `child` appended to the children of the parent, when that is listed.
  function Adopted(v: seq<Node>, parent: Option<Id>, child: Id): seq<Node>
  {
    if |v| == 0 then []
    else if Some(v[0].id) == parent then [Node(v[0].id, v[0].children + [child])] + v[1..]
    else [v[0]] + Adopted(v[1..], parent, child)
  }

  lemma {:induction false} AdoptedAt(v: seq<Node>, i: nat, child: Id)
    requires i < |v| && Distinct(v)
    ensures Adopted(v, Some(v[i].id), child) == v[i := Node(v[i].id, v[i].children + [child])]
  {
    if i > 0 {
      assert Distinct(v[1..]) && v[1..][i - 1] == v[i];
      AdoptedAt(v[1..], i - 1, child);
    }
  }

  lemma {:induction false} AdoptedNowhere(v: seq<Node>, parent: Option<Id>, child: Id)
    requires forall i :: 0 <= i < |v| ==> Some(v[i].id) != parent
    ensures Adopted(v, parent, child) == v
  {
    if |v| > 0 {
      AdoptedNowhere(v[1..], parent, child);
    }
  }

  // ---- birth order ------------------------------------------------------------------------

  // Every child was created after its parent.
  ghost predicate Ordered(v: seq<Node>, born: map<Id, nat>, clock: nat)
  {
    && (forall id :: id in born ==> born[id] < clock)
    && (forall i :: 0 <= i < |v| ==> v[i].id in born)
    && (forall i, c :: 0 <= i < |v| && c in v[i].children ==> c in born && born[v[i].id] < born[c])
  }

  lemma {:induction false} ChildrenYounger(v: seq<Node>, born: map<Id, nat>, clock: nat, a: Id)
    requires Ordered(v, born, clock)
    ensures forall c :: c in ChildrenOf(v, a) ==> a in born && c in born && born[a] < born[c]
  {
    if |v| > 0 && v[0].id != a {
      assert Ordered(v[1..], born, clock) by {
        assert forall i :: 0 <= i < |v[1..]| ==> v[1..][i] == v[i + 1];
      }
      ChildrenYounger(v[1..], born, clock, a);
    }
  }

  // Birth order rules out cycles: nothing reaches itself through a child.
  lemma {:induction false} PathsGrowYounger(v: seq<Node>, born: map<Id, nat>, clock: nat, p: seq<Id>)
    requires Ordered(v, born, clock) && IsPath(v, p) && |p| >= 2
    ensures p[0] in born && p[|p| - 1] in born && born[p[0]] < born[p[|p| - 1]]
    decreases |p|
  {
    var q := p[..|p| - 1];
    assert forall i :: 0 <= i < |q| ==> q[i] == p[i];
    assert p[|p| - 1] in ChildrenOf(v, p[|p| - 2]);
    ChildrenYounger(v, born, clock, p[|p| - 2]);
    if |q| >= 2 {
      PathsGrowYounger(v, born, clock, q);
    }
  }

  lemma {:induction false} WithoutMember(v: seq<Node>, gone: set<Id>)
    ensures forall i :: 0 <= i < |Without(v, gone)| ==> Without(v, gone)[i] in v && Without(v, gone)[i].id !in gone
  {
    if |v| > 0 {
      WithoutMember(v[1..], gone);
    }
  }

  ghost predicate Distinct(v: seq<Node>)
  {
    forall i, j :: 0 <= i < j < |v| ==> v[i].id != v[j].id
  }

  lemma {:induction false} WithoutDistinct(v: seq<Node>, gone: set<Id>)
    requires Distinct(v)
    ensures Distinct(Without(v, gone))
  {
    if |v| > 0 {
      WithoutDistinct(v[1..], gone);
      WithoutMember(v[1..], gone);
      var rest := Without(v[1..], gone);
      forall j | 0 <= j < |rest| ensures rest[j].id != v[0].id {
        var i :| 0 <= i < |v[1..]| && v[1..][i] == rest[j];
        assert v[i + 1] == rest[j];
      }
    }
  }

  lemma {:induction false} WithoutKeeps(v: seq<Node>, gone: set<Id>, procs: set<Id>, born: map<Id, nat>, clock: nat)
    ensures Backed(v, procs) ==> Backed(Without(v, gone), procs - gone) && Backed(Without(v, gone), procs)
    ensures Ordered(v, born, clock) ==> Ordered(Without(v, gone), born, clock)
  {
    WithoutMember(v, gone);
    var w := Without(v, gone);
    forall i | 0 <= i < |w| ensures exists j :: 0 <= j < |v| && v[j] == w[i] {
      assert w[i] in v;
    }
  }

  // No connection is below one of its own children.
  lemma {:induction false} Acyclic(v: seq<Node>, born: map<Id, nat>, clock: nat, a: Id, c: Id)
    requires Ordered(v, born, clock) && c in ChildrenOf(v, a)
    ensures !Reaches(v, c, a)
  {
    if Reaches(v, c, a) {
      var p :| IsPath(v, p) && p[0] == c && p[|p| - 1] == a;
      ChildrenYounger(v, born, clock, a);
      if |p| >= 2 {
        PathsGrowYounger(v, born, clock, p);
      }
      assert false;
    }
  }

  // After a disconnect nothing that is left is reachable from the same id.
  lemma {:induction false} HitAgain(v: seq<Node>, a: Id, procs: set<Id>)
    requires Backed(v, procs)
    ensures
      var hit := Hit(v, a, procs);
      hit + Hit(Without(v, hit), a, procs) == hit
  {
    var hit := Hit(v, a, procs);
    assert DownClosed(v, hit, procs) by {
      forall b, c | b in hit && c in ChildrenOf(v, b) && c in procs ensures c in hit {
        ReachesSnoc(v, a, b, c);
      }
    }
    HitBeside(v, hit, a, procs);
  }
}
