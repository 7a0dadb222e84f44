// The files of the store-and-forward buffer (retikon_core/edge/buffer.py) and the file operations
// that its methods are made of. A process may stop between any two of them, or in the middle of
// writing a file, and another process may open the buffer over whatever is then on the disk.

module EdgeDisk {
  newtype Byte = x: int | 0 <= x < 256

  // A random identifier. Names sort as the identifiers do.
  type Id = nat

  // Bytes handed to the buffer, and when.
  datatype Given = Given(bytes: seq<Byte>, at: real)

  datatype MetaFile =
    | Meta(item: Id, at: real, size: nat)
    | Garbage    // does not parse, or lacks a field

  datatype Disk = Disk(
    payloadTmp: map<Id, seq<Byte>>,
    payloads: map<Id, seq<Byte>>,
    metaTmp: map<Id, MetaFile>,
    metas: map<Id, MetaFile>,
    given: map<Id, Given>)    // not a file: everything ever handed to the buffer

  datatype Step =
    | OpenPayload(id: Id, given: Given)    // create the temporary payload file, still empty
    | AppendByte(id: Id, byte: Byte)
    | CommitPayload(id: Id)                // rename it to its final name
    | OpenMeta(id: Id)
    | FillMeta(id: Id, meta: MetaFile)
    | CommitMeta(id: Id)
    | RemovePayload(id: Id)
    | RemoveMeta(id: Id)

  function EmptyDisk(): Disk {
    Disk(map[], map[], map[], map[], map[])
  }

  // The items with both their files.
  ghost function Live(d: Disk): set<Id> {
    set id | id in d.metas && d.metas[id].Meta? && id in d.payloads
  }

  // When the buffer's methods take each step.
  ghost predicate Enabled(d: Disk, s: Step) {
    match s
    case OpenPayload(id, _) => id !in d.given && id !in d.metas
    case AppendByte(id, _) => id in d.payloadTmp
    case CommitPayload(id) => id in d.payloadTmp && id in d.given && d.payloadTmp[id] == d.given[id].bytes
    case OpenMeta(id) => id in d.payloads && id !in d.metas
    case FillMeta(id, _) => id in d.metaTmp
    case CommitMeta(id) =>
      && id in d.metaTmp && id in d.payloads && id in d.given && id !in d.metas
      && d.metaTmp[id] == Meta(id, d.given[id].at, |d.payloads[id]|)
    case RemovePayload(id) => id in Live(d)
    case RemoveMeta(id) => id in d.metas && id !in Live(d)
  }

  function Apply(d: Disk, s: Step): Disk {
    match s
    case OpenPayload(id, given) => d.(payloadTmp := d.payloadTmp[id := []], given := d.given[id := given])
    case AppendByte(id, byte) =>
      if id in d.payloadTmp then d.(payloadTmp := d.payloadTmp[id := d.payloadTmp[id] + [byte]]) else d
    case CommitPayload(id) =>
      if id in d.payloadTmp then
        d.(payloadTmp := d.payloadTmp - {id}, payloads := d.payloads[id := d.payloadTmp[id]])
      else d
    case OpenMeta(id) => d.(metaTmp := d.metaTmp[id := Garbage])
    case FillMeta(id, meta) => d.(metaTmp := d.metaTmp[id := meta])
    case CommitMeta(id) =>
      if id in d.metaTmp then d.(metaTmp := d.metaTmp - {id}, metas := d.metas[id := d.metaTmp[id]]) else d
    case RemovePayload(id) => d.(payloads := d.payloads - {id})
    case RemoveMeta(id) => d.(metas := d.metas - {id})
  }

  // The disk after some steps, and whether each was taken as the methods take it.
  ghost function After(d: Disk, steps: seq<Step>): Disk {
    if steps == [] then d else Apply(After(d, steps[..|steps| - 1]), steps[|steps| - 1])
  }

  ghost predicate Run(d: Disk, steps: seq<Step>) {
    steps != [] ==>
      && Run(d, steps[..|steps| - 1])
      && Enabled(After(d, steps[..|steps| - 1]), steps[|steps| - 1])
  }

  // What every disk that the steps leave behind satisfies: a payload file holds all the bytes given
  // for it and a readable metadata file describes what was given.
  ghost predicate Sound(d: Disk) {
    && (forall id | id in d.payloads :: id in d.given && id !in d.payloadTmp && d.payloads[id] == d.given[id].bytes)
    && (forall id | id in d.payloadTmp :: id in d.given && id !in d.metas)
    && (forall id | id in d.metas && d.metas[id].Meta? ::
          id in d.given && d.metas[id] == Meta(id, d.given[id].at, |d.given[id].bytes|))
  }

  // One file operation adds or removes at most one item, and leaves the others as they were.
  lemma OneItemPerStep(d: Disk, s: Step)
    requires Sound(d) && Enabled(d, s)
    ensures Sound(Apply(d, s))
    ensures s.CommitMeta? ==> s.id !in Live(d) && Live(Apply(d, s)) == Live(d) + {s.id}
    ensures s.RemovePayload? ==> s.id in Live(d) && Live(Apply(d, s)) == Live(d) - {s.id}
    ensures !s.CommitMeta? && !s.RemovePayload? ==> Live(Apply(d, s)) == Live(d)
    ensures forall id | id in Live(d) && id in Live(Apply(d, s)) ::
      Apply(d, s).metas[id] == d.metas[id] && Apply(d, s).payloads[id] == d.payloads[id]
  {
  }

  // Whenever a process stops, each item with both files has every byte that was given for it and
  // metadata with its time and size.
  lemma {:induction false} SoundAfter(d: Disk, steps: seq<Step>)
    requires Sound(d) && Run(d, steps)
    ensures Sound(After(d, steps))
    ensures forall id | id in Live(After(d, steps)) ::
      var now := After(d, steps);
      id in now.given && now.payloads[id] == now.given[id].bytes
      && now.metas[id] == Meta(id, now.given[id].at, |now.payloads[id]|)
  {
    if steps != [] {
      SoundAfter(d, steps[..|steps| - 1]);
      OneItemPerStep(After(d, steps[..|steps| - 1]), steps[|steps| - 1]);
    }
  }

  // Neither its payload nor a payload being written is left, and none will come back.
  ghost predicate Gone(d: Disk, id: Id) {
    id in d.given && id !in d.payloads && id !in d.payloadTmp
  }

  // An item is there exactly from the renaming of its metadata to the removal of its payload, however
  // the steps of any number of interrupted processes follow each other.
  lemma {:induction false} Lifetime(steps: seq<Step>, id: Id)
    requires Run(EmptyDisk(), steps)
    ensures id in Live(After(EmptyDisk(), steps)) <==> CommitMeta(id) in steps && RemovePayload(id) !in steps
    ensures RemovePayload(id) in steps ==> Gone(After(EmptyDisk(), steps), id)
  {
    if steps != [] {
      var m := |steps| - 1;
      assert steps == steps[..m] + [steps[m]];
      Lifetime(steps[..m], id);
      SoundAfter(EmptyDisk(), steps[..m]);
      OneItemPerStep(After(EmptyDisk(), steps[..m]), steps[m]);
    }
  }

  // Metadata lies only under names that were given out.
  ghost predicate Tidy(d: Disk) {
    d.metas.Keys <= d.given.Keys
  }

  lemma {:induction false} TidyAfter(d: Disk, steps: seq<Step>)
    requires Tidy(d) && Run(d, steps)
    ensures Tidy(After(d, steps))
  {
    if steps != [] {
      TidyAfter(d, steps[..|steps| - 1]);
    }
  }

  lemma {:induction false} RunAppend(d: Disk, a: seq<Step>, b: seq<Step>)
    requires Run(d, a) && Run(After(d, a), b)
    ensures Run(d, a + b) && After(d, a + b) == After(After(d, a), b)
  {
    if b == [] {
      assert a + b == a;
    } else {
      assert (a + b)[..|a + b| - 1] == a + b[..|b| - 1];
      RunAppend(d, a, b[..|b| - 1]);
    }
  }

  // ---------------------------------------------------------------- payloads without metadata

  lemma PayloadStep(d: Disk, s: Step, id: Id)
    requires Sound(d) && Enabled(d, s)
    ensures id in Apply(d, s).payloads <==> s == CommitPayload(id) || (id in d.payloads && s != RemovePayload(id))
    ensures s == CommitPayload(id) ==> id in d.given && id in d.payloadTmp && id !in Apply(d, s).payloadTmp
    ensures s == RemovePayload(id) ==> id in Live(d)
    ensures id in d.given ==> id in Apply(d, s).given
    ensures id in d.given && id !in d.payloadTmp ==> id !in Apply(d, s).payloadTmp
  {
  }

  // A payload is there exactly from its renaming to its removal, which only a listed item meets with.
  lemma {:induction false} PayloadLifetime(steps: seq<Step>, id: Id)
    requires Run(EmptyDisk(), steps)
    ensures id in After(EmptyDisk(), steps).payloads <==> CommitPayload(id) in steps && RemovePayload(id) !in steps
    ensures RemovePayload(id) in steps ==> CommitPayload(id) in steps && CommitMeta(id) in steps
    ensures CommitPayload(id) in steps ==>
      id in After(EmptyDisk(), steps).given && id !in After(EmptyDisk(), steps).payloadTmp
  {
    if steps != [] {
      hide Enabled, Apply, Live;
      var m := |steps| - 1;
      assert steps == steps[..m] + [steps[m]];
      PayloadLifetime(steps[..m], id);
      Lifetime(steps[..m], id);
      SoundAfter(EmptyDisk(), steps[..m]);
      PayloadStep(After(EmptyDisk(), steps[..m]), steps[m], id);
      ListedIsStored(After(EmptyDisk(), steps[..m]), id);
    }
  }

  lemma ListedIsStored(d: Disk, id: Id)
    ensures id in Live(d) ==> id in d.payloads
  {
  }

  // The payloads that no listing sees are exactly those whose process stopped between the two files.
  lemma OrphansExactly(steps: seq<Step>, id: Id)
    requires Run(EmptyDisk(), steps)
    ensures id in After(EmptyDisk(), steps).payloads && id !in Live(After(EmptyDisk(), steps)) <==>
      CommitPayload(id) in steps && CommitMeta(id) !in steps
  {
    hide Run, After, Live;
    PayloadLifetime(steps, id);
    Lifetime(steps, id);
  }

  // A payload whose metadata was never written, because its process stopped in between, is neither
  // listed nor ever removed.
  lemma {:induction false} OrphanStays(d: Disk, steps: seq<Step>, id: Id)
    requires Run(d, steps)
    requires id in d.payloads && id !in d.metas && CommitMeta(id) !in steps
    ensures id in After(d, steps).payloads && id !in Live(After(d, steps))
    ensures id !in After(d, steps).metas
  {
    if steps != [] {
      var m := |steps| - 1;
      assert steps == steps[..m] + [steps[m]];
      OrphanStays(d, steps[..m], id);
    }
  }

  function Appends(id: Id, bytes: seq<Byte>): seq<Step> {
    if bytes == [] then [] else Appends(id, bytes[..|bytes| - 1]) + [AppendByte(id, bytes[|bytes| - 1])]
  }

  lemma AppendsLast(id: Id, bytes: seq<Byte>)
    requires bytes != []
    ensures var all := Appends(id, bytes);
      && all != [] && all[..|all| - 1] == Appends(id, bytes[..|bytes| - 1])
      && all[|all| - 1] == AppendByte(id, bytes[|bytes| - 1])
  {
  }

  lemma {:induction false} BytesAppended(d: Disk, id: Id, bytes: seq<Byte>)
    requires id in d.payloadTmp && d.payloadTmp[id] == []
    ensures Run(d, Appends(id, bytes))
    ensures After(d, Appends(id, bytes)) == d.(payloadTmp := d.payloadTmp[id := bytes])
  {
    if bytes == [] {
      assert d.payloadTmp[id := []] == d.payloadTmp;
    } else {
      var m := |bytes| - 1;
      BytesAppended(d, id, bytes[..m]);
      AppendsLast(id, bytes);
      hide Appends;
      assert bytes == bytes[..m] + [bytes[m]];
    }
  }

  // A process that stops there leaves any number of bytes on the disk and no item.
  lemma OrphanExample(bytes: seq<Byte>, at: real) returns (steps: seq<Step>)
    ensures Run(EmptyDisk(), steps) && Live(After(EmptyDisk(), steps)) == {}
    ensures After(EmptyDisk(), steps).payloads == map[0 := bytes]
  {
    var open, writes, commit := [OpenPayload(0, Given(bytes, at))], Appends(0, bytes), [CommitPayload(0)];
    assert open[..0] == [] && commit[..0] == [];
    var begun := After(EmptyDisk(), open);
    assert begun == Disk(map[0 := []], map[], map[], map[], map[0 := Given(bytes, at)]) by {
      assert After(EmptyDisk(), []) == EmptyDisk();
    }
    assert Run(EmptyDisk(), open) by {
      assert Run(EmptyDisk(), []);
    }
    BytesAppended(begun, 0, bytes);
    RunAppend(EmptyDisk(), open, writes);
    var written := After(begun, writes);
    assert written == begun.(payloadTmp := map[0 := bytes]);
    assert Run(written, commit) by {
      assert Run(written, []) && After(written, []) == written;
    }
    assert After(written, commit).payloads == map[0 := bytes];
    RunAppend(EmptyDisk(), open + writes, commit);
    steps := open + writes + commit;
  }

  // All bytes of some files.
  ghost function Bytes(files: map<Id, seq<Byte>>): nat
    decreases files.Keys
  {
    if files == map[] then 0
    else
      var id :| id in files.Keys;
      Bytes(files - {id}) + |files[id]|
  }

  lemma SomeFile(files: map<Id, seq<Byte>>) returns (id: Id)
    requires files != map[]
    ensures id in files && Bytes(files) == Bytes(files - {id}) + |files[id]|
  {
    id :| id in files.Keys && Bytes(files) == Bytes(files - {id}) + |files[id]|;
  }

  lemma {:induction false} BytesWithout(files: map<Id, seq<Byte>>, id: Id)
    requires id in files
    ensures Bytes(files) == Bytes(files - {id}) + |files[id]|
    decreases files.Keys
  {
    hide Bytes;
    var other := SomeFile(files);
    if other != id {
      var a, b := files - {other}, files - {id};
      assert a - {id} == b - {other};
      BytesWithout(a, id);
      BytesWithout(b, other);
    }
  }
}
