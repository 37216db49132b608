/**
  The descriptor database (lib/vdpobject.py, lib/vdp.py): one row per object, replaced
  by a save unless the stored revision is newer, and the import of whole documents.
 */
module VdpStore {
  import opened Basics

  const MONTH := 3600 * 24 * 30

  type Id = string

  datatype Kind = Provider | Space | Gate

  // A descriptor: revision and ttl are optional, a gate lists its spaces.
  datatype Descriptor = Descriptor(
    kind: Kind,
    id: Id,
    providerid: Id,
    spaces: seq<Id>,
    revision: Option<int>,
    ttl: Option<int>,
    content: string)

  datatype Row = Row(data: Descriptor, my: bool, readonly: bool, expiry: int, revision: int, ttl: int)

  type Table = map<Id, Row>

  datatype SaveError = IdTakenByOtherKind

  // ---- one save -----------------------------------------------------------------------

  function Revision(d: Descriptor): int { if d.revision.Some? then d.revision.value else 0 }

  function Ttl(d: Descriptor): int { if d.ttl.Some? then d.ttl.value else MONTH }

  function Expiry(d: Descriptor, now: int): int
  {
    if Revision(d) != 0 && Ttl(d) != 0 then Revision(d) + Ttl(d) else now + MONTH
  }

  // Some row of the kind and id is newer; an object without a positive revision is not compared.
  predicate Outdated(t: Table, d: Descriptor)
  {
    Revision(d) > 0 && d.id in t && t[d.id].data.kind == d.kind && t[d.id].revision > Revision(d)
  }

  function NewRow(d: Descriptor, my: bool, readonly: set<Id>, now: int): Row
  {
    Row(d, my, d.providerid in readonly, Expiry(d, now), Revision(d), Ttl(d))
  }

  // The id alone is the primary key, so a row of another kind refuses the insertion.
  function Saved(t: Table, d: Descriptor, my: bool, readonly: set<Id>, now: int): Result<Table, SaveError>
  {
    if Outdated(t, d) then Ok(t)
    else if d.id in t && t[d.id].data.kind != d.kind then Err(IdTakenByOtherKind)
    else Ok(t[d.id := NewRow(d, my, readonly, now)])
  }

  // On the fields: the columns that follow from the stored descriptor alone.
  predicate ColumnsFollow(row: Row)
  {
    && row.revision == (match row.data.revision case Some(n) => n case None => 0)
    && row.ttl == (match row.data.ttl case Some(n) => n case None => 2592000)
  }

  // A descriptor lives for its ttl, 30 days by default, from its revision on, and for 30 days
  // from the save when one of the two is zero.
  predicate RowLeft(row: Row, d: Descriptor, my: bool, readonly: set<Id>, now: int)
  {
    && row.data == d && row.my == my && (row.readonly <==> d.providerid in readonly)
    && ColumnsFollow(row)
    && row.expiry == if row.revision != 0 && row.ttl != 0 then row.revision + row.ttl else now + 2592000
  }

  predicate NewerStored(t: Table, d: Descriptor)
  {
    && d.id in t && t[d.id].data.kind == d.kind
    && d.revision.Some? && 0 < d.revision.value < t[d.id].revision
  }

  // What a save leaves, on the fields: an id of another kind refuses it, a newer row stays,
  // any other is replaced, and no other id is touched.
  lemma {:induction false} SaveLeaves(t: Table, d: Descriptor, my: bool, readonly: set<Id>, now: int)
    ensures Saved(t, d, my, readonly, now).Err? <==> d.id in t && t[d.id].data.kind != d.kind
    ensures
      match Saved(t, d, my, readonly, now)
      case Err(_) => true
      case Ok(u) =>
        && u.Keys == t.Keys + {d.id}
        && (forall id :: id in t && id != d.id ==> u[id] == t[id])
        && (if NewerStored(t, d) then u[d.id] == t[d.id] else RowLeft(u[d.id], d, my, readonly, now))
  {
  }

  class Db {
    var rows: Table

    constructor ()
      ensures rows == map[]
    {
      rows := map[];
    }

    method Save(d: Descriptor, my: bool, readonly: set<Id>, now: int) returns (r: Result<(), SaveError>)
      modifies this
      ensures
        match Saved(old(rows), d, my, readonly, now)
        case Ok(t) => r == Ok(()) && rows == t
        case Err(e) => r == Err(e) && rows == old(rows)
      ensures r.Ok? && !NewerStored(old(rows), d) ==> d.id in rows && RowLeft(rows[d.id], d, my, readonly, now)
    {
      SaveLeaves(rows, d, my, readonly, now);
      var cnt := 0;
      if Revision(d) > 0 && d.id in rows && rows[d.id].data.kind == d.kind && rows[d.id].revision > Revision(d) {
        cnt := 1;
      }
      if cnt == 0 {
        var kept := if d.id in rows && rows[d.id].data.kind == d.kind then rows - {d.id} else rows;
        if d.id in kept {
          return Err(IdTakenByOtherKind);
        }
        rows := kept[d.id := NewRow(d, my, readonly, now)];
      }
      return Ok(());
    }
  }

  // ---- replicas -------------------------------------------------------------------------

  datatype Put = Put(d: Descriptor, my: bool, readonly: set<Id>, now: int)

  function PutInto(t: Table, p: Put): Table
  {
    match Saved(t, p.d, p.my, p.readonly, p.now)
    case Ok(u) => u
    case Err(_) => t
  }

  function PutAll(t: Table, ps: seq<Put>): Table
  {
    if |ps| == 0 then t else PutInto(PutAll(t, ps[..|ps| - 1]), ps[|ps| - 1])
  }

  ghost function Received(ps: seq<Put>): set<Descriptor>
  {
    set p | p in ps :: p.d
  }

  // Ids do not cross kinds, revisions are positive, and id and revision fix the content.
  ghost predicate Consistent(ds: set<Descriptor>)
  {
    && (forall d :: d in ds ==> d.revision.Some? && d.revision.value > 0)
    && (forall d, e :: d in ds && e in ds && d.id == e.id ==>
          d.kind == e.kind && (d.revision == e.revision ==> d == e))
  }

  ghost predicate IsNewest(ds: set<Descriptor>, d: Descriptor)
  {
    && d in ds && d.revision.Some?
    && forall e :: e in ds && e.id == d.id && e.revision.Some? ==> e.revision.value <= d.revision.value
  }

  // A row stands for the newest of the descriptors, and an absent row for none at all.
  ghost predicate HoldsNewest(t: Table, ds: set<Descriptor>, id: Id)
  {
    if id in t then
      t[id].data.id == id && IsNewest(ds, t[id].data) && ColumnsFollow(t[id])
    else forall d :: d in ds ==> d.id != id
  }

  lemma {:induction false} NewestStep(t: Table, ds: set<Descriptor>, p: Put, id: Id)
    requires Consistent(ds + {p.d}) && HoldsNewest(t, ds, id) && HoldsNewest(t, ds, p.d.id)
    ensures HoldsNewest(PutInto(t, p), ds + {p.d}, id)
  {
    if p.d.id in t {
      assert t[p.d.id].data in ds + {p.d};
    }
  }

  lemma {:induction false} StoresNewest(ps: seq<Put>, id: Id)
    requires Consistent(Received(ps))
    ensures HoldsNewest(PutAll(map[], ps), Received(ps), id)
  {
    if |ps| > 0 {
      var before, last := ps[..|ps| - 1], ps[|ps| - 1];
      assert ps == before + [last];
      assert Received(ps) == Received(before) + {last.d};
      StoresNewest(before, id);
      StoresNewest(before, last.d.id);
      NewestStep(PutAll(map[], before), Received(before), last, id);
    }
  }

  // Two replicas that received the same descriptors, in any order, with any repetition
  // and at any time, store the same data, revision and ttl.
  lemma {:induction false} ReplicasConverge(ps: seq<Put>, qs: seq<Put>, id: Id)
    requires Consistent(Received(ps)) && Received(ps) == Received(qs)
    ensures
      var t, u := PutAll(map[], ps), PutAll(map[], qs);
      && (id in t <==> id in u)
      && (id in t ==> t[id].data == u[id].data && t[id].revision == u[id].revision && t[id].ttl == u[id].ttl)
  {
    StoresNewest(ps, id);
    StoresNewest(qs, id);
    var t, u := PutAll(map[], ps), PutAll(map[], qs);
    if id in t && id in u {
      assert t[id].data.revision == u[id].data.revision;
    }
  }

  // A save lowers the stored revision exactly when it has no positive revision of its
  // own and the stored one is higher.
  lemma {:induction false} RevisionLoweredIff(t: Table, p: Put)
    requires p.d.id in t
    ensures
      var u := PutInto(t, p);
      && p.d.id in u
      && (u[p.d.id].revision < t[p.d.id].revision <==>
          && t[p.d.id].data.kind == p.d.kind
          && (match p.d.revision
              case Some(n) => n <= 0 && n < t[p.d.id].revision
              case None => 0 < t[p.d.id].revision))
  {
  }

  lemma {:induction false} RevisionNeverDecreases(t: Table, ps: seq<Put>, id: Id)
    requires id in t
    requires forall i :: 0 <= i < |ps| ==> ps[i].d.revision.Some? && ps[i].d.revision.value > 0
    ensures id in PutAll(t, ps) && PutAll(t, ps)[id].revision >= t[id].revision
  {
    if |ps| > 0 {
      RevisionNeverDecreases(t, ps[..|ps| - 1], id);
      assert ps[|ps| - 1].d.revision.Some?;
    }
  }
}
