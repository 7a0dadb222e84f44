// The graph's object storage: parquet files by path, and the manifests that mention them.

module GraphStorage {
  import opened CompactionTypes
  import opened Optionals
  import opened Tables

  datatype GraphKey = GraphKey(isEdge: bool, entityType: string, fileKind: string)

  function IndexOf(parts: Uri, segment: string): (i: nat)
    requires segment in parts
    ensures i < |parts| && parts[i] == segment
    ensures forall j | 0 <= j < i :: parts[j] != segment
  {
    if parts[0] == segment then 0 else 1 + IndexOf(parts[1..], segment)
  }

  // Which entity and file kind a path belongs to (_parse_graph_uri).
  function ParseGraphUri(parts: Uri): Option<GraphKey> {
    if "vertices" in parts && |parts| > IndexOf(parts, "vertices") + 2 then
      var i := IndexOf(parts, "vertices");
      Some(GraphKey(false, parts[i + 1], parts[i + 2]))
    else if "edges" in parts && |parts| > IndexOf(parts, "edges") + 2 then
      var i := IndexOf(parts, "edges");
      Some(GraphKey(true, parts[i + 1], parts[i + 2]))
    else None
  }

  function PartFile(id: string): string {
    "part-" + id + ".parquet"
  }

  lemma PartFileInjective(a: string, b: string)
    ensures PartFile(a) == PartFile(b) ==> a == b
  {
    assert PartFile(a)[5..|PartFile(a)| - 8] == a;
    assert PartFile(b)[5..|PartFile(b)| - 8] == b;
  }

  // Where a part of the given entity and kind is written; edges have one kind only.
  function PartUri(base: Uri, key: GraphKey, id: string): Uri {
    base + (if key.isEdge then ["edges", key.entityType, "adj_list"] else ["vertices", key.entityType, key.fileKind])
         + [PartFile(id)]
  }

  // The directory a key is stored in.
  function Shelf(key: GraphKey): GraphKey {
    if key.isEdge then key.(fileKind := "adj_list") else key
  }

  // Reading back the path of a written part gives its key, unless an edge type is called "vertices".
  lemma PartUriParses(base: Uri, key: GraphKey, id: string)
    requires "vertices" !in base && "edges" !in base
    ensures ParseGraphUri(PartUri(base, key, id)) == Some(Shelf(key))
      <==> !(key.isEdge && key.entityType == "vertices")
  {
    var u := PartUri(base, key, id);
    var n := |base|;
    assert u[n] == if key.isEdge then "edges" else "vertices";
    assert u[n + 1] == key.entityType && u[n + 3] == PartFile(id);
    assert forall j | 0 <= j < n :: u[j] == base[j];
    assert PartFile(id)[0] == 'p' && "vertices"[0] == 'v' && "edges"[0] == 'e';
    if key.isEdge {
      assert IndexOf(u, "edges") == n;
      if key.entityType == "vertices" {
        assert IndexOf(u, "vertices") == n + 1;
      } else {
        assert "vertices" !in u by {
          assert u[n + 2] == "adj_list";
        }
      }
    } else {
      assert IndexOf(u, "vertices") == n;
    }
  }

  class Storage {
    // Contents of the parquet files below the graph root.
    var files: map<Uri, Table>
    var manifests: seq<ManifestInfo>
    // The generator of part names, and how many it has handed out.
    const uuid: nat -> string
    var issued: nat
    // Size on disk of a written file.
    const sizeOf: Table -> nat
    // Every content the files have had so far; the last entry is the current one.
    ghost var states: seq<map<Uri, Table>>

    ghost predicate Valid()
      reads this
    {
      && states != [] && states[|states| - 1] == files
      && (forall m, n :: uuid(m) == uuid(n) ==> m == n)
      && (forall u | u in files :: Old(u, issued))
    }

    // Not a part name still to be handed out after the first n.
    ghost predicate Old(u: Uri, n: nat) {
      forall m | m >= n :: u == [] || u[|u| - 1] != PartFile(uuid(m))
    }

    constructor (files: map<Uri, Table>, manifests: seq<ManifestInfo>, uuid: nat -> string, sizeOf: Table -> nat)
      requires forall m, n :: uuid(m) == uuid(n) ==> m == n
      requires forall u, m: nat | u in files && u != [] :: u[|u| - 1] != PartFile(uuid(m))
      ensures Valid()
      ensures this.files == files && this.manifests == manifests && issued == 0 && states == [files]
    {
      this.files, this.manifests, this.uuid, this.sizeOf := files, manifests, uuid, sizeOf;
      issued := 0;
      states := [files];
    }

    method NewPart(base: Uri, key: GraphKey) returns (u: Uri)
      requires Valid()
      modifies this`issued
      ensures Valid() && issued == old(issued) + 1
      ensures u == PartUri(base, key, uuid(old(issued)))
      ensures u !in files && Old(u, issued) && !Old(u, old(issued))
    {
      u := PartUri(base, key, uuid(issued));
      assert u[|u| - 1] == PartFile(uuid(issued));
      forall m | m > issued
        ensures PartFile(uuid(m)) != PartFile(uuid(issued))
      {
        PartFileInjective(uuid(m), uuid(issued));
      }
      issued := issued + 1;
    }

    method Write(u: Uri, t: Table)
      requires Valid() && Old(u, issued)
      modifies this`files, this`states
      ensures Valid()
      ensures files == old(files)[u := t] && states == old(states) + [files]
    {
      files := files[u := t];
      states := states + [files];
    }

    // Removing a file that is not there raises an error.
    method Delete(u: Uri) returns (ok: bool)
      requires Valid()
      modifies this`files, this`states
      ensures Valid() && ok == (u in old(files))
      ensures files == old(files) - {u}
      ensures states == if ok then old(states) + [files] else old(states)
    {
      ok := u in files;
      files := files - {u};
      if ok {
        states := states + [files];
      }
    }

    // Bulk removal of a batch of paths.
    method DeleteAll(us: seq<Uri>)
      requires Valid()
      modifies this`files, this`states
      ensures Valid()
      ensures files == old(files) - (set u | u in us)
      ensures states == old(states) + [files]
    {
      files := files - (set u | u in us);
      states := states + [files];
    }
  }

  // ---------------------------------------------------------------- nothing is lost

  // All rows of u are still stored: in u itself, or as a block of a file of the same shelf.
  ghost predicate Kept(before: map<Uri, Table>, u: Uri, now: map<Uri, Table>)
    requires u in before
  {
    || (u in now && now[u] == before[u])
    || (exists v :: v in now && SameShelf(u, v) && Block(Content(before[u]), Content(now[v])))
  }

  ghost predicate SameShelf(u: Uri, v: Uri) {
    match (ParseGraphUri(u), ParseGraphUri(v))
    case (Some(k), Some(l)) => Shelf(k) == Shelf(l)
    case _ => false
  }

  ghost predicate Preserved(before: map<Uri, Table>, now: map<Uri, Table>) {
    forall u | u in before :: Kept(before, u, now)
  }

  lemma PreservedTrans(a: map<Uri, Table>, b: map<Uri, Table>, c: map<Uri, Table>)
    requires Preserved(a, b) && Preserved(b, c)
    ensures Preserved(a, c)
  {
    forall u | u in a
      ensures Kept(a, u, c)
    {
      assert Kept(a, u, b);
      if u in b && b[u] == a[u] {
        assert Kept(b, u, c);
      } else {
        var v :| v in b && SameShelf(u, v) && Block(Content(a[u]), Content(b[v]));
        assert Kept(b, v, c);
        if !(v in c && c[v] == b[v]) {
          var w :| w in c && SameShelf(v, w) && Block(Content(b[v]), Content(c[w]));
          BlockTrans(Content(a[u]), Content(b[v]), Content(c[w]));
        }
      }
    }
  }

  // A stretch of history that is safe: whatever was stored at its start is kept in every later state.
  ghost predicate Safely(start: seq<map<Uri, Table>>, end: seq<map<Uri, Table>>) {
    && start != [] && |start| <= |end| && end[..|start|] == start
    && forall i | |start| <= i < |end| :: Preserved(start[|start| - 1], end[i])
  }

  lemma SafelyTrans(a: seq<map<Uri, Table>>, b: seq<map<Uri, Table>>, c: seq<map<Uri, Table>>)
    requires Safely(a, b) && Safely(b, c)
    ensures Safely(a, c)
  {
    assert a == c[..|a|] by {
      assert c[..|b|][..|a|] == c[..|a|];
    }
    var m, m' := |a| - 1, |b| - 1;
    assert Preserved(a[m], a[m]);
    assert Preserved(a[m], b[m']) by {
      assert b[..|a|][m] == b[m];
    }
    forall i | |a| <= i < |c|
      ensures Preserved(a[m], c[i])
    {
      if i < |b| {
        assert c[i] == c[..|b|][i] == b[i];
      } else {
        PreservedTrans(a[m], b[m'], c[i]);
      }
    }
  }

  // ---------------------------------------------------------------- all rows of a shelf

  ghost predicate OnShelf(u: Uri, shelf: GraphKey) {
    match ParseGraphUri(u)
    case Some(k) => Shelf(k) == shelf
    case None => false
  }

  ghost function FileRows(u: Uri, t: Table, shelf: GraphKey): multiset<Row> {
    if OnShelf(u, shelf) then multiset(Content(t)) else multiset{}
  }

  // The multiset of rows stored for an entity and kind.
  ghost function ShelfRows(files: map<Uri, Table>, shelf: GraphKey): multiset<Row> {
    if |files| == 0 then multiset{}
    else
      var u :| u in files;
      ShelfRows(files - {u}, shelf) + FileRows(u, files[u], shelf)
  }

  lemma {:induction false} ShelfRowsWithout(files: map<Uri, Table>, u: Uri, shelf: GraphKey)
    requires u in files
    ensures ShelfRows(files, shelf) == ShelfRows(files - {u}, shelf) + FileRows(u, files[u], shelf)
    decreases |files|
  {
    var v :| v in files && ShelfRows(files, shelf) == ShelfRows(files - {v}, shelf) + FileRows(v, files[v], shelf);
    if v != u {
      var a, b := files - {v}, files - {u};
      assert a - {u} == b - {v};
      ShelfRowsWithout(a, u, shelf);
      ShelfRowsWithout(b, v, shelf);
      assert a[u] == files[u] && b[v] == files[v];
    }
  }
}
