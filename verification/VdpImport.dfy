/**
  Importing a descriptor document (lib/vdp.py): providers, then spaces, then gates, each
  saved as soon as its references are found, the first failure ending the import.
 */
module VdpImport {
  import opened Basics
  import opened VdpStore

  datatype Doc = Doc(isVpnFile: bool, providers: seq<Descriptor>, spaces: seq<Descriptor>, gates: seq<Descriptor>)

  datatype ImportError = BadFile | UnknownProvider(id: Id) | UnknownSpace(id: Id) | SaveFailed(e: SaveError)

  // The own provider id, the read-only providers and the clock.
  datatype Local = Local(own: Id, readonly: set<Id>, now: int)

  // ---- references -----------------------------------------------------------------------

  predicate Known(t: Table, kind: Kind, id: Id)
  {
    id in t && t[id].data.kind == kind
  }

  // The id queries leave expired objects out.
  predicate Listed(t: Table, kind: Kind, id: Id, now: int)
  {
    Known(t, kind, id) && t[id].expiry > now
  }

  // The first reference of a descriptor that the import does not find.
  function MissingReference(t: Table, d: Descriptor, now: int): Option<ImportError>
  {
    match d.kind
    case Provider => None
    case Space => if Listed(t, Provider, d.providerid, now) then None else Some(UnknownProvider(d.providerid))
    case Gate =>
      if !Listed(t, Provider, d.providerid, now) then Some(UnknownProvider(d.providerid))
      else MissingSpace(t, d.spaces, now)
  }

  function MissingSpace(t: Table, spaces: seq<Id>, now: int): (e: Option<ImportError>)
    ensures e.None? <==> forall i :: 0 <= i < |spaces| ==> Listed(t, Space, spaces[i], now)
  {
    if |spaces| == 0 then None
    else if !Listed(t, Space, spaces[0], now) then Some(UnknownSpace(spaces[0]))
    else
      var rest := MissingSpace(t, spaces[1..], now);
      assert forall i :: 1 <= i < |spaces| ==> spaces[i] == spaces[1..][i - 1];
      rest
  }

  predicate IsLocal(t: Table, d: Descriptor, l: Local)
  {
    d.kind != Provider && d.providerid in t && (t[d.providerid].my || d.providerid == l.own)
  }

  function Admitted(t: Table, d: Descriptor, l: Local): Result<Table, ImportError>
  {
    match MissingReference(t, d, l.now)
    case Some(e) => Err(e)
    case None =>
      match Saved(t, d, IsLocal(t, d, l), l.readonly, l.now)
      case Ok(u) => Ok(u)
      case Err(e) => Err(SaveFailed(e))
  }

  function As(kind: Kind, d: Descriptor): Descriptor
  {
    if kind == Provider then d.(kind := kind, providerid := d.id) else d.(kind := kind)
  }

  function AllAs(kind: Kind, ds: seq<Descriptor>): seq<Descriptor>
  {
    seq(|ds|, i requires 0 <= i < |ds| => As(kind, ds[i]))
  }

  function Items(doc: Doc): seq<Descriptor>
  {
    AllAs(Provider, doc.providers) + AllAs(Space, doc.spaces) + AllAs(Gate, doc.gates)
  }

  // On the fields: the row is there and has not run out.
  predicate Live(t: Table, kind: Kind, id: Id, now: int)
  {
    id in t && t[id].data.kind == kind && t[id].expiry > now
  }

  // What one item meets: the first reference that is not live, in the order provider, spaces,
  // or the save, which marks it as the own one when its provider is.
  lemma {:induction false} AdmittedWhen(t: Table, d: Descriptor, l: Local)
    ensures
      var provided := d.kind == Provider || Live(t, Provider, d.providerid, l.now);
      match Admitted(t, d, l)
      case Err(UnknownProvider(id)) => !provided && id == d.providerid
      case Err(UnknownSpace(id)) =>
        && provided && d.kind == Gate
        && exists i :: 0 <= i < |d.spaces| && d.spaces[i] == id && !Live(t, Space, id, l.now)
                       && forall j :: 0 <= j < i ==> Live(t, Space, d.spaces[j], l.now)
      case Err(SaveFailed(_)) => d.id in t && t[d.id].data.kind != d.kind
      case Err(BadFile) => false
      case Ok(u) =>
        && provided
        && (d.kind == Gate ==> forall i :: 0 <= i < |d.spaces| ==> Live(t, Space, d.spaces[i], l.now))
        && (if NewerStored(t, d) then u == t
            else
              var own := d.kind != Provider && d.providerid in t && (t[d.providerid].my || d.providerid == l.own);
              d.id in u && RowLeft(u[d.id], d, own, l.readonly, l.now))
  {
    if d.kind == Gate {
      FirstMissing(t, d.spaces, l.now);
    }
    SaveLeaves(t, d, IsLocal(t, d, l), l.readonly, l.now);
    hide RowLeft, NewRow, MissingSpace;
  }

  lemma {:induction false} FirstMissing(t: Table, spaces: seq<Id>, now: int)
    ensures
      match MissingSpace(t, spaces, now)
      case None => true
      case Some(e) =>
        exists i :: 0 <= i < |spaces| && e == UnknownSpace(spaces[i]) && !Live(t, Space, spaces[i], now)
                    && forall j :: 0 <= j < i ==> Live(t, Space, spaces[j], now)
  {
    if |spaces| > 0 && Listed(t, Space, spaces[0], now) && MissingSpace(t, spaces, now).Some? {
      FirstMissing(t, spaces[1..], now);
      var e := MissingSpace(t, spaces, now).value;
      var rest := spaces[1..];
      var i :| 0 <= i < |rest| && e == UnknownSpace(rest[i]) && !Live(t, Space, rest[i], now)
               && forall j :: 0 <= j < i ==> Live(t, Space, rest[j], now);
      assert spaces[i + 1] == rest[i];
      assert forall j :: 1 <= j < i + 1 ==> spaces[j] == rest[j - 1];
    }
  }

  // A descriptor with a positive revision and no ttl is listed for 30 days from its revision on.
  lemma {:induction false} ListedForMonth(t: Table, d: Descriptor, l: Local, later: int)
    requires d.revision.Some? && d.revision.value > 0 && d.ttl.None?
    requires Admitted(t, d, l).Ok? && !NewerStored(t, d)
    ensures Listed(Admitted(t, d, l).value, d.kind, d.id, later) <==> later < d.revision.value + 2592000
  {
    AdmittedWhen(t, d, l);
  }

  // The items of a document: its providers, each its own provider, then spaces, then gates.
  lemma {:induction false} ItemsOf(doc: Doc, i: nat)
    requires i < |doc.providers| + |doc.spaces| + |doc.gates|
    ensures |Items(doc)| == |doc.providers| + |doc.spaces| + |doc.gates|
    ensures
      var d, p, s := Items(doc)[i], |doc.providers|, |doc.providers| + |doc.spaces|;
      var from := if i < p then doc.providers[i] else if i < s then doc.spaces[i - p] else doc.gates[i - s];
      && d.kind == (if i < p then Provider else if i < s then Space else Gate)
      && d.providerid == (if i < p then from.id else from.providerid)
      && d.id == from.id && d.spaces == from.spaces && d.content == from.content
      && d.revision == from.revision && d.ttl == from.ttl
  {
  }

  datatype Progress = Progress(rows: Table, error: Option<ImportError>)

  function Imported(t: Table, items: seq<Descriptor>, l: Local): Progress
  {
    if |items| == 0 then Progress(t, None)
    else
      var p := Imported(t, items[..|items| - 1], l);
      if p.error.Some? then p
      else
        match Admitted(p.rows, items[|items| - 1], l)
        case Err(e) => Progress(p.rows, Some(e))
        case Ok(u) => Progress(u, None)
  }

  // ---- the import in place ----------------------------------------------------------------

  method ImportAll(db: Db, items: seq<Descriptor>, l: Local) returns (error: Option<ImportError>)
    modifies db
    ensures Progress(db.rows, error) == Imported(old(db.rows), items, l)
  {
    error := None;
    for i := 0 to |items|
      invariant error == None && Progress(db.rows, None) == Imported(old(db.rows), items[..i], l)
    {
      assert items[..i + 1][..i] == items[..i];
      var d := items[i];
      error := MissingReference(db.rows, d, l.now);
      if error == None {
        var r := db.Save(d, IsLocal(db.rows, d, l), l.readonly, l.now);
        if r.Err? {
          error := Some(SaveFailed(r.error));
        }
      }
      if error != None {
        StaysFailed(old(db.rows), items, i + 1, l);
        return;
      }
    }
    assert items[..|items|] == items;
  }

  lemma {:induction false} StaysFailed(t: Table, items: seq<Descriptor>, k: nat, l: Local)
    requires k <= |items| && Imported(t, items[..k], l).error.Some?
    ensures Imported(t, items, l) == Imported(t, items[..k], l)
    decreases |items|
  {
    if k == |items| {
      assert items[..k] == items;
    } else {
      assert items[..|items| - 1][..k] == items[..k];
      StaysFailed(t, items[..|items| - 1], k, l);
    }
  }

  method Import(db: Db, doc: Doc, l: Local) returns (error: Option<ImportError>)
    modifies db
    ensures Progress(db.rows, error) ==
            if doc.isVpnFile then Imported(old(db.rows), Items(doc), l) else Progress(old(db.rows), Some(BadFile))
  {
    if !doc.isVpnFile {
      return Some(BadFile);
    }
    ghost var first := AllAs(Provider, doc.providers);
    ghost var second := first + AllAs(Space, doc.spaces);
    assert Items(doc)[..|first|] == first && Items(doc)[..|second|] == second;
    ghost var start := db.rows;
    error := ImportAll(db, AllAs(Provider, doc.providers), l);
    if error.Some? {
      StaysFailed(start, Items(doc), |first|, l);
      return;
    }
    ghost var t1 := db.rows;
    error := ImportAll(db, AllAs(Space, doc.spaces), l);
    ImportConcat(start, first, AllAs(Space, doc.spaces), l);
    if error.Some? {
      StaysFailed(start, Items(doc), |second|, l);
      return;
    }
    error := ImportAll(db, AllAs(Gate, doc.gates), l);
    ImportConcat(start, second, AllAs(Gate, doc.gates), l);
  }

  lemma {:induction false} ImportConcat(t: Table, a: seq<Descriptor>, b: seq<Descriptor>, l: Local)
    requires Imported(t, a, l).error.None?
    ensures Imported(t, a + b, l) == Imported(Imported(t, a, l).rows, b, l)
  {
    if |b| == 0 {
      assert a + b == a;
    } else {
      assert (a + b)[..|a + b| - 1] == a + b[..|b| - 1];
      ImportConcat(t, a, b[..|b| - 1], l);
    }
  }

  // ---- referential closure ------------------------------------------------------------------

  ghost predicate Resolves(t: Table, d: Descriptor)
  {
    && (d.kind != Provider ==> Known(t, Provider, d.providerid))
    && (d.kind == Gate ==> forall i :: 0 <= i < |d.spaces| ==> Known(t, Space, d.spaces[i]))
  }

  // Every stored space has its provider, every stored gate its provider and its spaces.
  ghost predicate Closed(t: Table)
  {
    forall id :: id in t ==> Resolves(t, t[id].data)
  }

  lemma {:induction false} AdmittedStaysClosed(t: Table, d: Descriptor, l: Local)
    requires Closed(t) && Admitted(t, d, l).Ok?
    ensures Closed(Admitted(t, d, l).value)
  {
    var u := Admitted(t, d, l).value;
    if u != t {
      assert forall kind, id :: Known(t, kind, id) ==> Known(u, kind, id);
      forall id | id in u ensures Resolves(u, u[id].data) {
        if id == d.id {
          assert Resolves(t, d);
        } else {
          assert Resolves(t, t[id].data);
        }
      }
    }
  }

  // The import of any document keeps the closure at every point, the one where it
  // fails included.
  lemma {:induction false} ImportStaysClosed(t: Table, items: seq<Descriptor>, l: Local, k: nat)
    requires Closed(t) && k <= |items|
    ensures Closed(Imported(t, items[..k], l).rows)
  {
    if k > 0 {
      ImportStaysClosed(t, items, l, k - 1);
      assert items[..k][..k - 1] == items[..k - 1];
      var p := Imported(t, items[..k - 1], l);
      if p.error.None? && Admitted(p.rows, items[k - 1], l).Ok? {
        AdmittedStaysClosed(p.rows, items[k - 1], l);
      }
    }
  }

  ghost predicate RefusedAt(t: Table, items: seq<Descriptor>, l: Local, k: nat, e: ImportError)
    requires k < |items|
  {
    var p := Imported(t, items[..k], l);
    p.error.None? && Admitted(p.rows, items[k], l) == Err(e)
  }

  // An item refused by the table the items before it produced ends the import there.
  lemma {:induction false} RefusalEndsImport(t: Table, items: seq<Descriptor>, l: Local, k: nat, e: ImportError)
    requires k < |items| && RefusedAt(t, items, l, k, e)
    ensures Imported(t, items, l) == Progress(Imported(t, items[..k], l).rows, Some(e))
  {
    assert items[..k + 1][..k] == items[..k];
    StaysFailed(t, items, k + 1, l);
  }

  // A failed import was refused somewhere.
  lemma {:induction false} FailureHasRefusal(t: Table, items: seq<Descriptor>, l: Local) returns (k: nat)
    requires Imported(t, items, l).error.Some?
    ensures k < |items| && RefusedAt(t, items, l, k, Imported(t, items, l).error.value)
  {
    var n := |items| - 1;
    if Imported(t, items[..n], l).error.Some? {
      k := FailureHasRefusal(t, items[..n], l);
      assert items[..n][..k] == items[..k];
    } else {
      k := n;
    }
  }

  // ---- export and import ----------------------------------------------------------------------

  // The document `get_dict` builds, in whatever order the queries answer.
  ghost predicate Exports(t: Table, now: int, doc: Doc)
  {
    && doc.isVpnFile
    && ExportsKind(t, now, Provider, doc.providers)
    && ExportsKind(t, now, Space, doc.spaces)
    && ExportsKind(t, now, Gate, doc.gates)
  }

  ghost predicate ExportsKind(t: Table, now: int, kind: Kind, ds: seq<Descriptor>)
  {
    && (forall i :: 0 <= i < |ds| ==> Listed(t, kind, ds[i].id, now) && t[ds[i].id].data == ds[i])
    && (forall id :: Listed(t, kind, id, now) ==> exists i :: 0 <= i < |ds| && ds[i].id == id)
    && (forall i, j :: 0 <= i < j < |ds| ==> ds[i].id != ds[j].id)
  }

  // Rows as imports leave them.
  ghost predicate Sound(t: Table)
  {
    forall id :: id in t ==>
      var d := t[id].data;
      && d.id == id && ColumnsFollow(t[id])
      && (d.kind == Provider ==> d.providerid == id)
      && (t[id].revision != 0 && t[id].ttl != 0 ==> t[id].expiry == t[id].revision + t[id].ttl)
  }

  lemma {:induction false} ImportedIsSound(t: Table, items: seq<Descriptor>, l: Local)
    requires Sound(t)
    requires forall i :: 0 <= i < |items| && items[i].kind == Provider ==> items[i].providerid == items[i].id
    ensures Sound(Imported(t, items, l).rows)
  {
    if |items| > 0 {
      ImportedIsSound(t, items[..|items| - 1], l);
    }
  }

  // The live part of the database refers only to live objects.
  ghost predicate LiveClosed(t: Table, now: int)
  {
    forall id :: id in t && t[id].expiry > now ==> LiveReferences(t, t[id].data, now)
  }

  ghost predicate LiveReferences(t: Table, d: Descriptor, now: int)
  {
    && (d.kind != Provider ==> Listed(t, Provider, d.providerid, now))
    && (d.kind == Gate ==> forall i :: 0 <= i < |d.spaces| ==> Listed(t, Space, d.spaces[i], now))
  }

  lemma {:induction false} MissingReferenceIs(t: Table, d: Descriptor, now: int)
    ensures MissingReference(t, d, now).None? <==> LiveReferences(t, d, now)
  {
  }

  ghost predicate DistinctIds(items: seq<Descriptor>)
  {
    forall i, j :: 0 <= i < j < |items| ==> items[i].id != items[j].id
  }

  // `u` holds just the items, with the columns a save at `now` gives them.
  ghost predicate HoldsItems(u: Table, items: seq<Descriptor>, now: int)
  {
    && (forall id :: id in u ==> exists i :: 0 <= i < |items| && items[i].id == id)
    && (forall i :: 0 <= i < |items| ==>
          && items[i].id in u && u[items[i].id].data == items[i]
          && u[items[i].id].revision == Revision(items[i]) && u[items[i].id].ttl == Ttl(items[i])
          && u[items[i].id].expiry == Expiry(items[i], now))
  }

  lemma {:induction false} LandOne(
    u: Table, before: seq<Descriptor>, d: Descriptor, my: bool,
    readonly: set<Id>, now: int)
    requires HoldsItems(u, before, now) && d.id !in u
    ensures HoldsItems(u[d.id := NewRow(d, my, readonly, now)], before + [d], now)
  {
    var v, items := u[d.id := NewRow(d, my, readonly, now)], before + [d];
    forall id | id in v ensures exists i :: 0 <= i < |items| && items[i].id == id {
      if id in u {
        var i :| 0 <= i < |before| && before[i].id == id;
        assert items[i].id == id;
      } else {
        assert items[|before|].id == id;
      }
    }
    assert forall i :: 0 <= i < |before| ==> items[i] == before[i];
  }

  lemma {:induction false} NewIdAbsent(u: Table, items: seq<Descriptor>, k: nat, now: int)
    requires DistinctIds(items) && k < |items| && HoldsItems(u, items[..k], now)
    ensures items[k].id !in u
  {
    assert forall i :: 0 <= i < k ==> items[..k][i] == items[i];
  }

  lemma {:induction false} AdmittedNew(u: Table, d: Descriptor, l: Local)
    requires d.id !in u && Admitted(u, d, l).Ok?
    ensures Admitted(u, d, l).value == u[d.id := NewRow(d, IsLocal(u, d, l), l.readonly, l.now)]
  {
  }

  lemma {:induction false} NewItemsLand(items: seq<Descriptor>, l: Local)
    requires DistinctIds(items) && Imported(map[], items, l).error.None?
    ensures HoldsItems(Imported(map[], items, l).rows, items, l.now)
  {
    if |items| > 0 {
      var n := |items| - 1;
      var before, d := items[..n], items[n];
      assert DistinctIds(before);
      hide HoldsItems, DistinctIds, Admitted;
      NewItemsLand(before, l);
      var u := Imported(map[], before, l).rows;
      NewIdAbsent(u, items, n, l.now);
      AdmittedNew(u, d, l);
      LandOne(u, before, d, IsLocal(u, d, l), l.readonly, l.now);
      assert before + [d] == items;
    }
  }

  // The exported items, in import order, are the live rows.
  lemma {:induction false} ExportedItems(t: Table, now: int, doc: Doc)
    requires Sound(t) && Exports(t, now, doc)
    ensures Items(doc) == doc.providers + doc.spaces + doc.gates
    ensures DistinctIds(Items(doc))
    ensures forall i :: 0 <= i < |Items(doc)| ==>
              var d := Items(doc)[i];
              d.id in t && t[d.id].data == d && t[d.id].expiry > now && Expiry(d, now) > now
  {
    assert AllAs(Provider, doc.providers) == doc.providers;
    assert AllAs(Space, doc.spaces) == doc.spaces;
    assert AllAs(Gate, doc.gates) == doc.gates;
  }

  // Where an object stands in the document.
  lemma {:induction false} Position(t: Table, now: int, doc: Doc, kind: Kind, id: Id) returns (i: nat)
    requires Sound(t) && Exports(t, now, doc) && Listed(t, kind, id, now)
    requires Items(doc) == doc.providers + doc.spaces + doc.gates
    ensures i < |Items(doc)| && Items(doc)[i] == t[id].data
    ensures kind == Provider ==> i < |doc.providers|
    ensures kind == Space ==> i < |doc.providers| + |doc.spaces|
  {
    match kind {
      case Provider =>
        var j :| 0 <= j < |doc.providers| && doc.providers[j].id == id;
        i := j;
      case Space =>
        var j :| 0 <= j < |doc.spaces| && doc.spaces[j].id == id;
        i := |doc.providers| + j;
      case Gate =>
        var j :| 0 <= j < |doc.gates| && doc.gates[j].id == id;
        i := |doc.providers| + |doc.spaces| + j;
    }
  }

  // What is live in `t` and stands before item k is listed by the importing database.
  lemma {:induction false} ListedBefore(t: Table, doc: Doc, l: Local, k: nat, kind: Kind, id: Id)
    requires Sound(t) && Exports(t, l.now, doc) && k < |Items(doc)|
    requires Imported(map[], Items(doc)[..k], l).error.None?
    requires Listed(t, kind, id, l.now)
    requires (kind == Provider && k >= |doc.providers|) || (kind == Space && k >= |doc.providers| + |doc.spaces|)
    ensures Listed(Imported(map[], Items(doc)[..k], l).rows, kind, id, l.now)
  {
    ExportedItems(t, l.now, doc);
    var i := Position(t, l.now, doc, kind, id);
    var before := Items(doc)[..k];
    assert before[i] == Items(doc)[i];
    NewItemsLand(before, l);
  }

  lemma {:induction false} ItemKind(t: Table, now: int, doc: Doc, k: nat)
    requires Sound(t) && Exports(t, now, doc) && k < |Items(doc)|
    ensures Items(doc)[k].kind == Space ==> k >= |doc.providers|
    ensures Items(doc)[k].kind == Gate ==> k >= |doc.providers| + |doc.spaces|
  {
    ExportedItems(t, now, doc);
  }

  lemma {:induction false} ReferencesFound(t: Table, doc: Doc, l: Local, k: nat)
    requires Sound(t) && Exports(t, l.now, doc) && k < |Items(doc)|
    requires Imported(map[], Items(doc)[..k], l).error.None?
    requires LiveReferences(t, Items(doc)[k], l.now)
    ensures LiveReferences(Imported(map[], Items(doc)[..k], l).rows, Items(doc)[k], l.now)
  {
    ItemKind(t, l.now, doc, k);
    var d := Items(doc)[k];
    if d.kind != Provider {
      ListedBefore(t, doc, l, k, Provider, d.providerid);
    }
    if d.kind == Gate {
      forall i | 0 <= i < |d.spaces|
        ensures Listed(Imported(map[], Items(doc)[..k], l).rows, Space, d.spaces[i], l.now)
      {
        ListedBefore(t, doc, l, k, Space, d.spaces[i]);
      }
    }
  }

  // A database holding other items only takes a new one whose references it lists.
  lemma {:induction false} NewItemAdmitted(u: Table, items: seq<Descriptor>, k: nat, l: Local)
    requires DistinctIds(items) && k < |items| && HoldsItems(u, items[..k], l.now)
    requires LiveReferences(u, items[k], l.now)
    ensures Admitted(u, items[k], l).Ok?
  {
    MissingReferenceIs(u, items[k], l.now);
    NewIdAbsent(u, items, k, l.now);
  }

  lemma {:induction false} ExportImports(t: Table, doc: Doc, l: Local, k: nat)
    requires Sound(t) && Exports(t, l.now, doc) && LiveClosed(t, l.now) && k <= |Items(doc)|
    ensures Imported(map[], Items(doc)[..k], l).error.None?
  {
    if k > 0 {
      var items := Items(doc);
      ExportedItems(t, l.now, doc);
      assert LiveReferences(t, items[k - 1], l.now);
      assert items[..k][..k - 1] == items[..k - 1] && DistinctIds(items[..k - 1]);
      hide HoldsItems, DistinctIds, Admitted, LiveReferences, Sound, Exports, LiveClosed, Items;
      ExportImports(t, doc, l, k - 1);
      ReferencesFound(t, doc, l, k - 1);
      NewItemsLand(items[..k - 1], l);
      NewItemAdmitted(Imported(map[], items[..k - 1], l).rows, items, k - 1, l);
    }
  }

  // What the importing database lists was live in `t`.
  lemma {:induction false} ListedWasLive(t: Table, doc: Doc, l: Local, k: nat, kind: Kind, id: Id)
    requires Sound(t) && Exports(t, l.now, doc) && k <= |Items(doc)|
    requires Imported(map[], Items(doc)[..k], l).error.None?
    requires Listed(Imported(map[], Items(doc)[..k], l).rows, kind, id, l.now)
    ensures Listed(t, kind, id, l.now)
  {
    ExportedItems(t, l.now, doc);
    var before := Items(doc)[..k];
    NewItemsLand(before, l);
    var i :| 0 <= i < |before| && before[i].id == id;
    assert before[i] == Items(doc)[i];
  }

  lemma {:induction false} ItemWasClosed(t: Table, doc: Doc, l: Local, k: nat)
    requires Sound(t) && Exports(t, l.now, doc) && k < |Items(doc)|
    requires Imported(map[], Items(doc), l).error.None?
    ensures LiveReferences(t, Items(doc)[k], l.now)
  {
    hide Sound, Exports, Items;
    var items := Items(doc);
    var d := items[k];
    PrefixSucceeded(items, l, k);
    PrefixSucceeded(items, l, k + 1);
    assert items[..k + 1][..k] == items[..k];
    var p := Imported(map[], items[..k], l);
    MissingReferenceIs(p.rows, d, l.now);
    hide Imported, Listed;
    if d.kind != Provider {
      ListedWasLive(t, doc, l, k, Provider, d.providerid);
    }
    if d.kind == Gate {
      forall i | 0 <= i < |d.spaces| ensures Listed(t, Space, d.spaces[i], l.now) {
        ListedWasLive(t, doc, l, k, Space, d.spaces[i]);
      }
    }
  }

  lemma {:induction false} ImportedMeansClosed(t: Table, doc: Doc, l: Local)
    requires Sound(t) && Exports(t, l.now, doc)
    requires Imported(map[], Items(doc), l).error.None?
    ensures LiveClosed(t, l.now)
  {
    ExportedItems(t, l.now, doc);
    forall id | id in t && t[id].expiry > l.now ensures LiveReferences(t, t[id].data, l.now) {
      assert Listed(t, t[id].data.kind, id, l.now);
      hide LiveReferences, Imported;
      var k := Position(t, l.now, doc, t[id].data.kind, id);
      ItemWasClosed(t, doc, l, k);
    }
  }

  lemma {:induction false} PrefixSucceeded(items: seq<Descriptor>, l: Local, k: nat)
    requires k <= |items| && Imported(map[], items, l).error.None?
    ensures Imported(map[], items[..k], l).error.None?
  {
    if Imported(map[], items[..k], l).error.Some? {
      StaysFailed(map[], items, k, l);
    }
  }

  // Exporting a database and importing the document elsewhere succeeds exactly when the
  // live objects refer only to live objects, and then every live object arrives.
  lemma {:induction false} ExportImportRoundTrip(t: Table, doc: Doc, l: Local)
    requires Sound(t) && Exports(t, l.now, doc)
    ensures Imported(map[], Items(doc), l).error.None? <==> LiveClosed(t, l.now)
    ensures LiveClosed(t, l.now) ==>
              var u := Imported(map[], Items(doc), l).rows;
              forall id :: (id in u <==> id in t && t[id].expiry > l.now)
                && (id in u ==> u[id].data == t[id].data && u[id].revision == t[id].revision && u[id].ttl == t[id].ttl)
  {
    var items := Items(doc);
    assert items[..|items|] == items;
    if Imported(map[], items, l).error.None? {
      ImportedMeansClosed(t, doc, l);
    }
    if LiveClosed(t, l.now) {
      ExportImports(t, doc, l, |items|);
      ExportedItems(t, l.now, doc);
      NewItemsLand(items, l);
      var u := Imported(map[], items, l).rows;
      forall id
        ensures id in u <==> id in t && t[id].expiry > l.now
        ensures id in u ==> u[id].data == t[id].data && u[id].revision == t[id].revision && u[id].ttl == t[id].ttl
      {
        if id in t && t[id].expiry > l.now {
          assert Listed(t, t[id].data.kind, id, l.now);
          var i := Position(t, l.now, doc, t[id].data.kind, id);
        }
        if id in u {
          var i :| 0 <= i < |items| && items[i].id == id;
        }
      }
    }
  }
}
