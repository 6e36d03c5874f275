/** Saving a record and loading it back. `save_component` writes every embedded body
    to a file of its own and leaves a back-reference in the record; `_load_value`
    follows the back-reference to exactly that file, so filling the saved record
    gives back the record, with every declared field that was absent now `{}`. */
module StoreRoundTrip {
  import opened Wrappers
  import opened Values
  import opened FileSystem
  import opened ComponentDataDesc
  import opened EnvironmentDataManager

  /** An embedded type's folder is a single non-empty name. */
  lemma EmbeddedDest(t: ComponentType)
    requires !Desc(t).standalone
    ensures |Desc(t).destinationPath| == 1 && Desc(t).destinationPath[0] != ""
  {
  }

  /** Appending the same suffix to two names keeps them apart. */
  lemma SuffixInjective(x: string, y: string, suffix: string)
    requires x + suffix == y + suffix
    ensures x == y
  {
    assert x == (x + suffix)[..|x|];
    assert y == (y + suffix)[..|y|];
  }

  /** The file a back-reference leads `_load_value` to, when it names an embedded
      type and a non-empty `Id`. */
  function RefFile(root: Path, compId: string, ref: Value, field: string): Option<Path>
  {
    if !ref.Dict? then None
    else
      var id := GetOr(ref, "Id", Null).value;
      var ct := GetOr(ref, "ComponentType", Null).value;
      if !id.Str? || id.s == "" || TableLookup(ct).Err? || Desc(TableLookup(ct).value).standalone then None
      else Some(ChildFile(root, compId, Desc(TableLookup(ct).value).destinationPath, id.s, field))
  }

  /** Following such a back-reference is reading that file. */
  lemma RefFileLoad(fs: FS, c: JsonCodec, root: Path, compId: string, ref: Value, field: string)
    requires RefFile(root, compId, ref, field).Some?
    ensures LoadValue(fs, c, root, Str(compId), ref, field) == LoadJson(fs, c, RefFile(root, compId, ref, field).value)
  {
    var ct := GetOr(ref, "ComponentType", Null).value;
    assert ct == Str(TypeKey(TableLookup(ct).value));
  }

  /** The shape of every file holding an embedded body of field `field`:
      `<root>/<compId>/subcomponents/<plural>/<childId>/<field>.json`. */
  predicate ChildShaped(root: Path, field: string, q: Path)
  {
    |q| == |root| + 5 && q[|q| - 1] == field + ".json"
  }

  /** Body files of different fields are different files. */
  lemma ChildShapedField(root: Path, x: string, y: string, q: Path)
    requires ChildShaped(root, x, q) && ChildShaped(root, y, q)
    ensures x == y
  {
    SuffixInjective(x, y, ".json");
  }

  /** A back-reference's file has that shape, with the child's `Id` in it. */
  lemma RefFileShaped(root: Path, compId: string, ref: Value, field: string)
    requires compId != "" && RefFile(root, compId, ref, field).Some?
    ensures ChildShaped(root, field, RefFile(root, compId, ref, field).value)
    ensures RefFile(root, compId, ref, field).value[|root| + 3] == GetOr(ref, "Id", Null).value.s
  {
    var id := GetOr(ref, "Id", Null).value;
    var t := TableLookup(GetOr(ref, "ComponentType", Null).value).value;
    EmbeddedDest(t);
    var names := [compId, "subcomponents"] + Desc(t).destinationPath + [id.s];
    JoinAllPlain(root, names);
    assert ChildDir(root, compId, Desc(t).destinationPath, id.s) == root + names;
  }

  /** `ref` stands in `fs` for the body `v`: it leads to a file holding `v`, and the
      fill treats it as a single body. */
  predicate RefRestores(fs: FS, c: JsonCodec, root: Path, compId: string, field: string, ref: Value, v: Value)
  {
    RefFile(root, compId, ref, field).Some? &&
    LoadJson(fs, c, RefFile(root, compId, ref, field).value) == Ok(v) &&
    Truthy(ref) && !ref.List?
  }

  /** `fs2` keeps every body file of `field` that `fs1` has. */
  predicate KeepsField(fs1: FS, fs2: FS, root: Path, field: string)
  {
    forall q :: q in fs1 && ChildShaped(root, field, q) ==> q in fs2 && fs2[q] == fs1[q]
  }

  /** A back-reference keeps standing for its body while its file is kept. */
  lemma RefRestoresFrame(fs1: FS, fs2: FS, c: JsonCodec, root: Path, compId: string, field: string, ref: Value, v: Value)
    requires compId != ""
    requires RefRestores(fs1, c, root, compId, field, ref, v) && KeepsField(fs1, fs2, root, field)
    ensures RefRestores(fs2, c, root, compId, field, ref, v)
  {
    RefFileShaped(root, compId, ref, field);
    var p := RefFile(root, compId, ref, field).value;
    assert p in fs1;
  }

  /** The record of the body `_load_value` would fill in for a saved field. */
  function Restore(orig: Option<Value>): Value
  {
    if orig.None? then Dict([]) else orig.value
  }

  /** What field `field` holds after saving, for its original value `orig`: absent and
      empty values stay as they are, a list becomes a list of back-references and a
      single body one back-reference, each standing in `fs` for its body. */
  predicate Restored(fs: FS, c: JsonCodec, root: Path, compId: string, field: string, orig: Option<Value>, saved: Option<Value>)
  {
    match orig
    case None => saved == None
    case Some(v) =>
      if !Truthy(v) then saved == Some(v)
      else if v.List? then
        saved.Some? && saved.value.List? && |saved.value.items| == |v.items| &&
        forall j :: 0 <= j < |v.items| ==> RefRestores(fs, c, root, compId, field, saved.value.items[j], v.items[j])
      else saved.Some? && RefRestores(fs, c, root, compId, field, saved.value, v)
  }

  lemma RestoredFrame(fs1: FS, fs2: FS, c: JsonCodec, root: Path, compId: string, field: string, orig: Option<Value>, saved: Option<Value>)
    requires compId != ""
    requires Restored(fs1, c, root, compId, field, orig, saved) && KeepsField(fs1, fs2, root, field)
    ensures Restored(fs2, c, root, compId, field, orig, saved)
  {
    if orig.Some? && Truthy(orig.value) {
      if orig.value.List? {
        forall j | 0 <= j < |orig.value.items|
          ensures RefRestores(fs2, c, root, compId, field, saved.value.items[j], orig.value.items[j])
        {
          RefRestoresFrame(fs1, fs2, c, root, compId, field, saved.value.items[j], orig.value.items[j]);
        }
      } else {
        RefRestoresFrame(fs1, fs2, c, root, compId, field, saved.value, orig.value);
      }
    }
  }

  /** The `Id` of a body, when it is a dict that has one. */
  function IdOf(v: Value): Option<Value>
  {
    if v.Dict? then Lookup(v.entries, "Id") else None
  }

  /** The bodies of a list field carry pairwise different `Id`s. */
  predicate DistinctIds(orig: Option<Value>)
  {
    orig.Some? && orig.value.List? ==>
      forall i, j :: 0 <= i < j < |orig.value.items| ==> IdOf(orig.value.items[i]) != IdOf(orig.value.items[j])
  }

  /** The bodies of a field carry no empty `Id`, which `_load_value` would refuse. */
  predicate NonEmptyIds(orig: Option<Value>)
  {
    orig.Some? ==>
      if orig.value.List? then forall i :: 0 <= i < |orig.value.items| ==> IdOf(orig.value.items[i]) != Some(Str(""))
      else IdOf(orig.value) != Some(Str(""))
  }

  /** A body whose string `Id` `pathlib` joins as one folder name of its own, so that
      different `Id`s name different folders. */
  predicate PlainId(v: Value)
  {
    IdOf(v).Some? && IdOf(v).value.Str? ==> PlainName(IdOf(v).value.s)
  }

  /** The bodies of a field have plain `Id`s. */
  predicate PlainIds(orig: Option<Value>)
  {
    orig.Some? ==>
      if orig.value.List? then forall i :: 0 <= i < |orig.value.items| ==> PlainId(orig.value.items[i])
      else PlainId(orig.value)
  }

  /** The bodies of a field can be stored and found again: different `Id`s, none empty,
      each one folder name. */
  predicate Storable(orig: Option<Value>)
  {
    DistinctIds(orig) && NonEmptyIds(orig) && PlainIds(orig)
  }

  // ---------------------------------------------------------------------------------
  // The save side

  /** The writing half of `_store_value` changes only the body's file. */
  lemma WriteBodyFrame(fs: FS, c: JsonCodec, dir: Path, field: string, item: Value, ref: Value)
    requires WriteBody(fs, c, dir, field, item, ref).1.Ok?
    ensures forall q :: q in fs && q != Join(dir, field + ".json") ==>
      q in WriteBody(fs, c, dir, field, item, ref).0 && WriteBody(fs, c, dir, field, item, ref).0[q] == fs[q]
  {
    if dir !in fs {
      MakeDirsSpec(fs, dir);
    }
    var fs1 := MakeDirsIfMissing(fs, dir).value;
    SaveJsonPass(fs1, c, Join(dir, field + ".json"), item);
  }

  /** The body a successful write stored is read back from its file. */
  lemma WriteBodyLoads(fs: FS, c: JsonCodec, dir: Path, field: string, item: Value, ref: Value)
    requires Faithful(c) && WriteBody(fs, c, dir, field, item, ref).1.Ok?
    ensures WriteBody(fs, c, dir, field, item, ref).1 == Ok(ref)
    ensures LoadJson(WriteBody(fs, c, dir, field, item, ref).0, c, Join(dir, field + ".json")) == Ok(item)
  {
    var fs1 := MakeDirsIfMissing(fs, dir).value;
    SaveJsonPass(fs1, c, Join(dir, field + ".json"), item);
  }

  /** The back-reference `_store_value` returns leads to the body's file. */
  lemma RefFileBackRef(root: Path, compId: string, id: Value, ct: Value, t: ComponentType, field: string)
    requires id.Str? && id.s != "" && TableLookup(ct) == Ok(t) && !Desc(t).standalone
    ensures RefFile(root, compId, BackRef(id, ct, t), field) == Some(ChildFile(root, compId, Desc(t).destinationPath, id.s, field))
    ensures GetOr(BackRef(id, ct, t), "Id", Null).value == id
  {
    var ref := BackRef(id, ct, t);
    assert GetOr(ref, "Id", Null).value == id;
    assert ref.entries[1..][0] == ("ComponentType", ct);
    assert Lookup(ref.entries[1..], "ComponentType") == Some(ct);
    assert GetOr(ref, "ComponentType", Null).value == ct;
  }

  /** A successful `_store_value` is the write of the body into its child folder. */
  lemma StoreValueUnfold(fs: FS, c: JsonCodec, root: Path, compId: string, item: Value, field: string)
    requires StoreValueAsWritten(fs, c, root, Str(compId), item, field).1.Ok?
    requires IdOf(item) != Some(Str(""))
    ensures item.Dict? && HasKey(item.entries, "Id") && HasKey(item.entries, "ComponentType")
    ensures var id := Lookup(item.entries, "Id").value;
      var ct := Lookup(item.entries, "ComponentType").value;
      id.Str? && id.s != "" && TableLookup(ct).Ok? && !Desc(TableLookup(ct).value).standalone &&
      StoreValueAsWritten(fs, c, root, Str(compId), item, field) ==
        WriteBody(fs, c, ChildDir(root, compId, Desc(TableLookup(ct).value).destinationPath, id.s), field, item,
                  BackRef(id, ct, TableLookup(ct).value))
  {
    StoreValueErrors(fs, c, root, Str(compId), item, field);
    StoreValueNoType(fs, c, root, Str(compId), item, field);
    var id := Lookup(item.entries, "Id").value;
    assert GetOr(item, "Id", Null).value == id;
    var ct := Lookup(item.entries, "ComponentType").value;
    assert GetOr(item, "ComponentType", Str("")).value == ct;
  }

  /** A stored body is found again through its back-reference, and storing it changed
      no other file. */
  lemma StoreValueRestores(fs: FS, c: JsonCodec, root: Path, compId: string, item: Value, field: string)
    requires Faithful(c) && compId != ""
    requires StoreValueAsWritten(fs, c, root, Str(compId), item, field).1.Ok?
    requires IdOf(item) != Some(Str(""))
    ensures var r := StoreValueAsWritten(fs, c, root, Str(compId), item, field);
      RefRestores(r.0, c, root, compId, field, r.1.value, item) &&
      IdOf(item) == Some(GetOr(r.1.value, "Id", Null).value)
    ensures var r := StoreValueAsWritten(fs, c, root, Str(compId), item, field);
      forall q :: q in fs && Some(q) != RefFile(root, compId, r.1.value, field) ==> q in r.0 && r.0[q] == fs[q]
  {
    StoreValueUnfold(fs, c, root, compId, item, field);
    var id := Lookup(item.entries, "Id").value;
    var ct := Lookup(item.entries, "ComponentType").value;
    var t := TableLookup(ct).value;
    var dir := ChildDir(root, compId, Desc(t).destinationPath, id.s);
    var ref := BackRef(id, ct, t);
    WriteBodyFrame(fs, c, dir, field, item, ref);
    WriteBodyLoads(fs, c, dir, field, item, ref);
    RefFileBackRef(root, compId, id, ct, t, field);
  }

  /** No reference of `refs` names the file `q`. */
  predicate Unnamed(root: Path, compId: string, field: string, refs: seq<Value>, q: Path)
    decreases |refs|
  {
    refs == [] || (RefFile(root, compId, refs[0], field) != Some(q) && Unnamed(root, compId, field, refs[1..], q))
  }

  /** A file that no single reference names is unnamed by all of them. */
  lemma {:induction false} UnnamedOf(root: Path, compId: string, field: string, refs: seq<Value>, q: Path)
    requires forall j :: 0 <= j < |refs| ==> RefFile(root, compId, refs[j], field) != Some(q)
    ensures Unnamed(root, compId, field, refs, q)
    decreases |refs|
  {
    if refs != [] {
      assert RefFile(root, compId, refs[0], field) != Some(q);
      forall j | 0 <= j < |refs[1..]| ensures RefFile(root, compId, refs[1..][j], field) != Some(q) {
        assert refs[1..][j] == refs[j + 1];
      }
      UnnamedOf(root, compId, field, refs[1..], q);
    }
  }

  /** One body stored in front of a stored list: the whole list restores, the first
      body because its `Id` differs from the later ones. */
  lemma ConsRestored(fs1: FS, fs2: FS, c: JsonCodec, root: Path, compId: string, field: string,
                     ref: Value, items: seq<Value>, refs: seq<Value>)
    requires compId != "" && items != [] && |refs| == |items| - 1
    requires forall i, j :: 0 <= i < j < |items| ==> IdOf(items[i]) != IdOf(items[j])
    requires RefRestores(fs1, c, root, compId, field, ref, items[0]) && IdOf(items[0]) == Some(GetOr(ref, "Id", Null).value)
    requires forall j :: 0 <= j < |refs| ==>
      RefRestores(fs2, c, root, compId, field, refs[j], items[1..][j]) && IdOf(items[1..][j]) == Some(GetOr(refs[j], "Id", Null).value)
    requires forall q :: q in fs1 && Unnamed(root, compId, field, refs, q) ==>
      q in fs2 && fs2[q] == fs1[q]
    ensures forall j :: 0 <= j < |items| ==>
      RefRestores(fs2, c, root, compId, field, ([ref] + refs)[j], items[j]) &&
      IdOf(items[j]) == Some(GetOr(([ref] + refs)[j], "Id", Null).value)
  {
    forall j | 0 <= j < |items[1..]| ensures IdOf(items[0]) != IdOf(items[1..][j]) {
      assert items[1..][j] == items[j + 1];
    }
    FirstSurvives(fs1, fs2, c, root, compId, field, items[0], ref, items[1..], refs);
    ConsList(fs2, c, root, compId, field, items[0], ref, items[1..], refs);
    assert [items[0]] + items[1..] == items;
  }

  /** The first body's file is named by none of the later references, so the later
      stores keep it. */
  lemma FirstSurvives(fs1: FS, fs2: FS, c: JsonCodec, root: Path, compId: string, field: string,
                      item: Value, ref: Value, items: seq<Value>, refs: seq<Value>)
    requires compId != "" && |refs| == |items|
    requires RefRestores(fs1, c, root, compId, field, ref, item) && IdOf(item) == Some(GetOr(ref, "Id", Null).value)
    requires forall j :: 0 <= j < |items| ==>
      RefFile(root, compId, refs[j], field).Some? && IdOf(items[j]) == Some(GetOr(refs[j], "Id", Null).value)
    requires forall q :: q in fs1 && Unnamed(root, compId, field, refs, q) ==>
      q in fs2 && fs2[q] == fs1[q]
    requires forall j :: 0 <= j < |items| ==> IdOf(item) != IdOf(items[j])
    ensures RefRestores(fs2, c, root, compId, field, ref, item)
  {
    var p0 := RefFile(root, compId, ref, field).value;
    RefFileShaped(root, compId, ref, field);
    forall j | 0 <= j < |items| ensures RefFile(root, compId, refs[j], field) != Some(p0) {
      RefFileShaped(root, compId, refs[j], field);
    }
    UnnamedOf(root, compId, field, refs, p0);
    assert p0 in fs1;
  }

  /** The pairs of the longer list restore when the first one and the rest do. */
  lemma ConsList(fs2: FS, c: JsonCodec, root: Path, compId: string, field: string,
                 item: Value, ref: Value, items: seq<Value>, refs: seq<Value>)
    requires |refs| == |items|
    requires RefRestores(fs2, c, root, compId, field, ref, item) && IdOf(item) == Some(GetOr(ref, "Id", Null).value)
    requires forall j :: 0 <= j < |items| ==>
      RefRestores(fs2, c, root, compId, field, refs[j], items[j]) && IdOf(items[j]) == Some(GetOr(refs[j], "Id", Null).value)
    ensures forall j :: 0 <= j < |items| + 1 ==>
      RefRestores(fs2, c, root, compId, field, ([ref] + refs)[j], ([item] + items)[j]) &&
      IdOf(([item] + items)[j]) == Some(GetOr(([ref] + refs)[j], "Id", Null).value)
  {
    var p := (r: Value, v: Value) =>
      RefRestores(fs2, c, root, compId, field, r, v) && IdOf(v) == Some(GetOr(r, "Id", Null).value);
    PairwiseCons(p, ref, item, refs, items);
  }

  /** A relation holding of a first pair and pairwise of two lists holds pairwise of
      the longer lists. */
  lemma PairwiseCons(p: (Value, Value) -> bool, r: Value, v: Value, rs: seq<Value>, vs: seq<Value>)
    requires |rs| == |vs| && p(r, v) && forall j :: 0 <= j < |rs| ==> p(rs[j], vs[j])
    ensures forall j :: 0 <= j < |rs| + 1 ==> p(([r] + rs)[j], ([v] + vs)[j])
  {
    forall j | 0 <= j < |rs| + 1 ensures p(([r] + rs)[j], ([v] + vs)[j]) {
      if j > 0 {
        assert ([r] + rs)[j] == rs[j - 1] && ([v] + vs)[j] == vs[j - 1];
      }
    }
  }

  /** The files neither the first reference nor the later ones name are kept through
      both stores. */
  lemma ConsFrame(fs: FS, fs1: FS, fs2: FS, root: Path, compId: string, field: string, ref: Value, refs: seq<Value>)
    requires forall q :: q in fs && Some(q) != RefFile(root, compId, ref, field) ==> q in fs1 && fs1[q] == fs[q]
    requires forall q :: q in fs1 && Unnamed(root, compId, field, refs, q) ==>
      q in fs2 && fs2[q] == fs1[q]
    ensures forall q :: q in fs && Unnamed(root, compId, field, [ref] + refs, q) ==>
      q in fs2 && fs2[q] == fs[q]
  {
    forall q | q in fs && Unnamed(root, compId, field, [ref] + refs, q)
      ensures q in fs2 && fs2[q] == fs[q]
    {
      assert ([ref] + refs)[0] == ref && ([ref] + refs)[1..] == refs;
    }
  }

  /** The list branch of `_save_subcomponents`: every body of the list is found again
      through its back-reference, provided the bodies have different `Id`s, each a plain
      folder name, and only their files changed. */
  lemma StoreItemsRestores(fs: FS, c: JsonCodec, root: Path, compId: string, items: seq<Value>, field: string)
    requires Faithful(c) && compId != ""
    requires forall i, j :: 0 <= i < j < |items| ==> IdOf(items[i]) != IdOf(items[j])
    requires forall i :: 0 <= i < |items| ==> IdOf(items[i]) != Some(Str(""))
    requires forall i :: 0 <= i < |items| ==> PlainId(items[i])
    requires StoreItems(fs, c, root, Str(compId), items, field).1.Ok?
    ensures var r := StoreItems(fs, c, root, Str(compId), items, field);
      forall j :: 0 <= j < |items| ==>
        RefRestores(r.0, c, root, compId, field, r.1.value[j], items[j]) &&
        IdOf(items[j]) == Some(GetOr(r.1.value[j], "Id", Null).value)
    ensures var r := StoreItems(fs, c, root, Str(compId), items, field);
      forall q :: q in fs && Unnamed(root, compId, field, r.1.value, q) ==>
        q in r.0 && r.0[q] == fs[q]
  {
    StoreItemsRestored(fs, c, root, compId, items, field);
    StoreItemsFrame(fs, c, root, compId, items, field);
  }

  /** Storing a list changes no file but the bodies' own. */
  lemma {:induction false} StoreItemsFrame(fs: FS, c: JsonCodec, root: Path, compId: string, items: seq<Value>, field: string)
    requires Faithful(c) && compId != ""
    requires forall i :: 0 <= i < |items| ==> IdOf(items[i]) != Some(Str(""))
    requires StoreItems(fs, c, root, Str(compId), items, field).1.Ok?
    ensures var r := StoreItems(fs, c, root, Str(compId), items, field);
      forall q :: q in fs && Unnamed(root, compId, field, r.1.value, q) ==>
        q in r.0 && r.0[q] == fs[q]
    decreases |items|
  {
    if items != [] {
      var s := StoreValueAsWritten(fs, c, root, Str(compId), items[0], field);
      StoreValueRestores(fs, c, root, compId, items[0], field);
      var t := StoreItems(s.0, c, root, Str(compId), items[1..], field);
      assert StoreItems(fs, c, root, Str(compId), items, field) == (t.0, Ok([s.1.value] + t.1.value));
      forall i | 0 <= i < |items[1..]| ensures IdOf(items[1..][i]) != Some(Str("")) {
        assert items[1..][i] == items[i + 1];
      }
      StoreItemsFrame(s.0, c, root, compId, items[1..], field);
      ConsFrame(fs, s.0, t.0, root, compId, field, s.1.value, t.1.value);
    }
  }

  /** Every body of a stored list is found again through its back-reference, the first
      one because the later bodies, whose `Id`s differ, leave its file alone. */
  lemma {:induction false} StoreItemsRestored(fs: FS, c: JsonCodec, root: Path, compId: string, items: seq<Value>, field: string)
    requires Faithful(c) && compId != ""
    requires forall i, j :: 0 <= i < j < |items| ==> IdOf(items[i]) != IdOf(items[j])
    requires forall i :: 0 <= i < |items| ==> IdOf(items[i]) != Some(Str(""))
    requires forall i :: 0 <= i < |items| ==> PlainId(items[i])
    requires StoreItems(fs, c, root, Str(compId), items, field).1.Ok?
    ensures var r := StoreItems(fs, c, root, Str(compId), items, field);
      forall j :: 0 <= j < |items| ==>
        RefRestores(r.0, c, root, compId, field, r.1.value[j], items[j]) &&
        IdOf(items[j]) == Some(GetOr(r.1.value[j], "Id", Null).value)
    decreases |items|
  {
    if items != [] {
      var s := StoreValueAsWritten(fs, c, root, Str(compId), items[0], field);
      StoreValueRestores(fs, c, root, compId, items[0], field);
      var t := StoreItems(s.0, c, root, Str(compId), items[1..], field);
      assert StoreItems(fs, c, root, Str(compId), items, field) == (t.0, Ok([s.1.value] + t.1.value));
      forall i, j | 0 <= i < j < |items[1..]| ensures IdOf(items[1..][i]) != IdOf(items[1..][j]) {
        assert items[1..][i] == items[i + 1] && items[1..][j] == items[j + 1];
      }
      forall i | 0 <= i < |items[1..]| ensures IdOf(items[1..][i]) != Some(Str("")) && PlainId(items[1..][i]) {
        assert items[1..][i] == items[i + 1];
      }
      StoreItemsRestored(s.0, c, root, compId, items[1..], field);
      StoreItemsFrame(s.0, c, root, compId, items[1..], field);
      ConsRestored(s.0, t.0, c, root, compId, field, s.1.value, items, t.1.value);
    }
  }

  /** One name of `_save_subcomponents`: the field is saved so that it can be restored,
      no other field changes, and no file outside the field's body files changes. */
  lemma SaveStepRestores(fs: FS, c: JsonCodec, root: Path, compId: string, e: Entries, name: Value)
    requires Faithful(c) && compId != "" && name.Str? && name.s != "Id"
    requires Lookup(e, "Id") == Some(Str(compId))
    requires Storable(Lookup(e, name.s))
    requires SaveStep(fs, c, root, e, name).1.Ok?
    ensures var r := SaveStep(fs, c, root, e, name);
      Restored(r.0, c, root, compId, name.s, Lookup(e, name.s), Lookup(r.1.value, name.s))
    ensures var r := SaveStep(fs, c, root, e, name);
      forall x :: x != name.s ==> Lookup(r.1.value, x) == Lookup(e, x)
    ensures var r := SaveStep(fs, c, root, e, name);
      forall q :: q in fs && !ChildShaped(root, name.s, q) ==> q in r.0 && r.0[q] == fs[q]
  {
    var x := name.s;
    if HasKey(e, x) && Truthy(Lookup(e, x).value) {
      var v := Lookup(e, x).value;
      assert GetItem(Dict(e), "Id") == Ok(Str(compId));
      if v.List? {
        var s := StoreItems(fs, c, root, Str(compId), v.items, x);
        StoreItemsRestores(fs, c, root, compId, v.items, x);
        LookupPutSame(e, x, List(s.1.value));
        forall x2 | x2 != x ensures Lookup(Put(e, x, List(s.1.value)), x2) == Lookup(e, x2) {
          LookupPutOther(e, x, List(s.1.value), x2);
        }
        forall q | q in fs && !ChildShaped(root, x, q) ensures q in s.0 && s.0[q] == fs[q] {
          forall j | 0 <= j < |v.items| ensures RefFile(root, compId, s.1.value[j], x) != Some(q) {
            RefFileShaped(root, compId, s.1.value[j], x);
          }
          UnnamedOf(root, compId, x, s.1.value, q);
        }
      } else {
        var s := StoreValueAsWritten(fs, c, root, Str(compId), v, x);
        StoreValueRestores(fs, c, root, compId, v, x);
        LookupPutSame(e, x, s.1.value);
        forall x2 | x2 != x ensures Lookup(Put(e, x, s.1.value), x2) == Lookup(e, x2) {
          LookupPutOther(e, x, s.1.value, x2);
        }
        RefFileShaped(root, compId, s.1.value, x);
      }
    }
  }

  /** The names of `Subcomponents` the round trip is about: distinct strings, none of
      them the record's `Id` or `Subcomponents` field. */
  predicate FieldNames(names: seq<Value>)
  {
    (forall k :: 0 <= k < |names| ==> names[k].Str? && names[k].s != "Id" && names[k].s != "Subcomponents") &&
    (forall i, j :: 0 <= i < j < |names| ==> names[i] != names[j])
  }

  /** The loop of `_save_subcomponents`: every named field is saved so that it can be
      restored from the final tree, the other fields are unchanged, and only body files
      of the named fields were written. */
  lemma SaveLoopRestores(fs: FS, c: JsonCodec, root: Path, compId: string, e: Entries, names: seq<Value>)
    requires Faithful(c) && compId != "" && Lookup(e, "Id") == Some(Str(compId))
    requires FieldNames(names)
    requires forall k :: 0 <= k < |names| ==> Storable(Lookup(e, names[k].s))
    requires SaveLoop(fs, c, root, e, names).1.Ok?
    ensures var r := SaveLoop(fs, c, root, e, names);
      forall k :: 0 <= k < |names| ==>
        Restored(r.0, c, root, compId, names[k].s, Lookup(e, names[k].s), Lookup(r.1.value, names[k].s))
    ensures var r := SaveLoop(fs, c, root, e, names);
      forall x :: Str(x) !in names ==> Lookup(r.1.value, x) == Lookup(e, x)
    ensures var r := SaveLoop(fs, c, root, e, names);
      forall q :: q in fs && OutsideFields(root, names, q) ==> q in r.0 && r.0[q] == fs[q]
  {
    SaveLoopRestored(fs, c, root, compId, e, names);
    SaveLoopOthers(fs, c, root, compId, e, names);
    SaveLoopFrame(fs, c, root, compId, e, names);
  }

  /** `q` is the body file of none of the named fields. */
  predicate OutsideFields(root: Path, names: seq<Value>, q: Path)
    decreases |names|
  {
    names == [] || (names[0].Str? && !ChildShaped(root, names[0].s, q) && OutsideFields(root, names[1..], q))
  }

  /** The facts about the rest of the names that one step of the loop leaves. */
  lemma SaveLoopTail(e: Entries, e1: Entries, names: seq<Value>)
    requires names != [] && FieldNames(names)
    requires forall x :: x != names[0].s ==> Lookup(e1, x) == Lookup(e, x)
    ensures FieldNames(names[1..]) && Str(names[0].s) !in names[1..]
    ensures forall k :: 0 <= k < |names[1..]| ==> names[1..][k].s != names[0].s && Lookup(e1, names[1..][k].s) == Lookup(e, names[1..][k].s)
  {
    var rest := names[1..];
    forall i, j | 0 <= i < j < |rest| ensures rest[i] != rest[j] {
      assert rest[i] == names[i + 1] && rest[j] == names[j + 1];
    }
    forall k | 0 <= k < |rest| ensures rest[k] != names[0] {
      assert rest[k] == names[k + 1];
    }
  }

  /** Only body files of the named fields change. */
  lemma {:induction false} SaveLoopFrame(fs: FS, c: JsonCodec, root: Path, compId: string, e: Entries, names: seq<Value>)
    requires Faithful(c) && compId != "" && Lookup(e, "Id") == Some(Str(compId))
    requires FieldNames(names)
    requires forall k :: 0 <= k < |names| ==> Storable(Lookup(e, names[k].s))
    requires SaveLoop(fs, c, root, e, names).1.Ok?
    ensures var r := SaveLoop(fs, c, root, e, names);
      forall q :: q in fs && OutsideFields(root, names, q) ==> q in r.0 && r.0[q] == fs[q]
    decreases |names|
  {
    if names != [] {
      var s := SaveStep(fs, c, root, e, names[0]);
      SaveStepRestores(fs, c, root, compId, e, names[0]);
      var e1 := s.1.value;
      var rest := names[1..];
      SaveLoopTail(e, e1, names);
      SaveLoopFrame(s.0, c, root, compId, e1, rest);
      assert SaveLoop(fs, c, root, e, names) == SaveLoop(s.0, c, root, e1, rest);
    }
  }

  /** The fields not named are left alone. */
  lemma {:induction false} SaveLoopOthers(fs: FS, c: JsonCodec, root: Path, compId: string, e: Entries, names: seq<Value>)
    requires Faithful(c) && compId != "" && Lookup(e, "Id") == Some(Str(compId))
    requires FieldNames(names)
    requires forall k :: 0 <= k < |names| ==> Storable(Lookup(e, names[k].s))
    requires SaveLoop(fs, c, root, e, names).1.Ok?
    ensures var r := SaveLoop(fs, c, root, e, names);
      forall x :: Str(x) !in names ==> Lookup(r.1.value, x) == Lookup(e, x)
    decreases |names|
  {
    if names != [] {
      var s := SaveStep(fs, c, root, e, names[0]);
      SaveStepRestores(fs, c, root, compId, e, names[0]);
      var e1 := s.1.value;
      var rest := names[1..];
      SaveLoopTail(e, e1, names);
      SaveLoopOthers(s.0, c, root, compId, e1, rest);
      var r := SaveLoop(s.0, c, root, e1, rest);
      assert SaveLoop(fs, c, root, e, names) == r;
      forall x2 | Str(x2) !in names ensures Lookup(r.1.value, x2) == Lookup(e, x2) {
        assert names[0] != Str(x2);
        assert Str(x2) !in rest;
      }
    }
  }

  /** Every named field is saved so that it can be restored from the final tree. */
  lemma {:induction false} SaveLoopRestored(fs: FS, c: JsonCodec, root: Path, compId: string, e: Entries, names: seq<Value>)
    requires Faithful(c) && compId != "" && Lookup(e, "Id") == Some(Str(compId))
    requires FieldNames(names)
    requires forall k :: 0 <= k < |names| ==> Storable(Lookup(e, names[k].s))
    requires SaveLoop(fs, c, root, e, names).1.Ok?
    ensures var r := SaveLoop(fs, c, root, e, names);
      forall k :: 0 <= k < |names| ==>
        Restored(r.0, c, root, compId, names[k].s, Lookup(e, names[k].s), Lookup(r.1.value, names[k].s))
    decreases |names|
  {
    if names != [] {
      var x := names[0].s;
      var s := SaveStep(fs, c, root, e, names[0]);
      SaveStepRestores(fs, c, root, compId, e, names[0]);
      var e1 := s.1.value;
      var rest := names[1..];
      SaveLoopTail(e, e1, names);
      SaveLoopRestored(s.0, c, root, compId, e1, rest);
      SaveLoopFrame(s.0, c, root, compId, e1, rest);
      SaveLoopOthers(s.0, c, root, compId, e1, rest);
      var r := SaveLoop(s.0, c, root, e1, rest);
      assert SaveLoop(fs, c, root, e, names) == r;
      assert KeepsField(s.0, r.0, root, x) by {
        forall q | q in s.0 && ChildShaped(root, x, q) ensures q in r.0 && r.0[q] == s.0[q] {
          forall k | 0 <= k < |rest| ensures !ChildShaped(root, rest[k].s, q) {
            if ChildShaped(root, rest[k].s, q) {
              ChildShapedField(root, x, rest[k].s, q);
            }
          }
          OutsideFieldsOf(root, rest, q);
        }
      }
      RestoredFrame(s.0, r.0, c, root, compId, x, Lookup(e, x), Lookup(e1, x));
      forall k | 0 <= k < |names|
        ensures Restored(r.0, c, root, compId, names[k].s, Lookup(e, names[k].s), Lookup(r.1.value, names[k].s))
      {
        if k > 0 {
          assert names[k] == rest[k - 1];
        }
      }
    }
  }

  /** A file that is the body file of no single named field is outside all of them. */
  lemma {:induction false} OutsideFieldsOf(root: Path, names: seq<Value>, q: Path)
    requires forall k :: 0 <= k < |names| ==> names[k].Str? && !ChildShaped(root, names[k].s, q)
    ensures OutsideFields(root, names, q)
    decreases |names|
  {
    if names != [] {
      assert names[0].Str? && !ChildShaped(root, names[0].s, q);
      forall k | 0 <= k < |names[1..]| ensures names[1..][k].Str? && !ChildShaped(root, names[1..][k].s, q) {
        assert names[1..][k] == names[k + 1];
      }
      OutsideFieldsOf(root, names[1..], q);
    }
  }

  // ---------------------------------------------------------------------------------
  // The load side

  /** The list branch of `_fill_subcomponents` reads every body back. */
  lemma {:induction false} LoadItemsRestores(fs: FS, c: JsonCodec, root: Path, compId: string, refs: seq<Value>, items: seq<Value>, field: string)
    requires |refs| == |items|
    requires forall j :: 0 <= j < |items| ==> RefRestores(fs, c, root, compId, field, refs[j], items[j])
    ensures LoadItems(fs, c, root, Str(compId), refs, field) == Ok(items)
    decreases |refs|
  {
    if refs != [] {
      RefFileLoad(fs, c, root, compId, refs[0], field);
      forall j | 0 <= j < |items[1..]| ensures RefRestores(fs, c, root, compId, field, refs[1..][j], items[1..][j]) {
        assert refs[1..][j] == refs[j + 1] && items[1..][j] == items[j + 1];
      }
      LoadItemsRestores(fs, c, root, compId, refs[1..], items[1..], field);
      assert [items[0]] + items[1..] == items;
    }
  }

  /** One name of `_fill_subcomponents` puts back what the field held before saving,
      or `{}` for an absent field, and changes no other field. */
  lemma FillStepRestores(fs: FS, c: JsonCodec, root: Path, compId: string, g: Entries, name: Value, orig: Option<Value>)
    requires name.Str? && name.s != "Id" && Lookup(g, "Id") == Some(Str(compId))
    requires Restored(fs, c, root, compId, name.s, orig, Lookup(g, name.s))
    ensures FillStep(fs, c, root, g, name).Ok?
    ensures Lookup(FillStep(fs, c, root, g, name).value, name.s) == Some(Restore(orig))
    ensures forall x :: x != name.s ==> Lookup(FillStep(fs, c, root, g, name).value, x) == Lookup(g, x)
  {
    var x := name.s;
    var r := FillStep(fs, c, root, g, name);
    assert GetItem(Dict(g), "Id") == Ok(Str(compId));
    if orig.None? {
      LookupPutSame(g, x, Dict([]));
      forall x2 | x2 != x ensures Lookup(r.value, x2) == Lookup(g, x2) {
        LookupPutOther(g, x, Dict([]), x2);
      }
    } else if Truthy(orig.value) {
      var v := orig.value;
      if v.List? {
        LoadItemsRestores(fs, c, root, compId, Lookup(g, x).value.items, v.items, x);
        assert r == Ok(Put(g, x, v));
      } else {
        RefFileLoad(fs, c, root, compId, Lookup(g, x).value, x);
        assert r == Ok(Put(g, x, v));
      }
      LookupPutSame(g, x, v);
      forall x2 | x2 != x ensures Lookup(r.value, x2) == Lookup(g, x2) {
        LookupPutOther(g, x, v, x2);
      }
    }
  }

  /** The loop of `_fill_subcomponents` restores every named field. */
  lemma {:induction false} FillLoopRestores(fs: FS, c: JsonCodec, root: Path, compId: string, g: Entries, names: seq<Value>, e: Entries)
    requires FieldNames(names) && Lookup(g, "Id") == Some(Str(compId))
    requires forall k :: 0 <= k < |names| ==>
      Restored(fs, c, root, compId, names[k].s, Lookup(e, names[k].s), Lookup(g, names[k].s))
    ensures FillLoop(fs, c, root, g, names).Ok?
    ensures forall x ::
      Lookup(FillLoop(fs, c, root, g, names).value, x) == (if Str(x) in names then Some(Restore(Lookup(e, x))) else Lookup(g, x))
    decreases |names|
  {
    if names != [] {
      var x := names[0].s;
      FillStepRestores(fs, c, root, compId, g, names[0], Lookup(e, x));
      var g1 := FillStep(fs, c, root, g, names[0]).value;
      var rest := names[1..];
      assert FieldNames(rest) by {
        forall i, j | 0 <= i < j < |rest| ensures rest[i] != rest[j] {
          assert rest[i] == names[i + 1] && rest[j] == names[j + 1];
        }
      }
      forall k | 0 <= k < |rest| ensures rest[k].s != x && Lookup(g1, rest[k].s) == Lookup(g, rest[k].s) {
        assert rest[k] == names[k + 1];
      }
      FillLoopRestores(fs, c, root, compId, g1, rest, e);
      assert Str(x) !in rest by {
        forall k | 0 <= k < |rest| ensures rest[k] != Str(x) {
          assert rest[k] == names[k + 1];
        }
      }
      assert names == [Str(x)] + rest;
    }
  }

  // ---------------------------------------------------------------------------------
  // The whole record

  /** A successful folder-mode `save_component`, step by step: the folders, then the
      subcomponents, then the document with its back-references. */
  lemma FolderSaveUnfold(fs: FS, c: JsonCodec, root: Path, fileName: string, comp: Value, id: string, names: seq<Value>)
    requires comp.Dict? && Lookup(comp.entries, "Id") == Some(Str(id))
    requires Iterate(GetOr(comp, "Subcomponents", List([])).value) == Ok(names)
    requires FolderSaveComponent(fs, c, root, fileName, comp).1 == Pass
    ensures MakeDirsIfMissing(fs, root).Ok?
    ensures MakeDirsIfMissing(MakeDirsIfMissing(fs, root).value, Join(root, id)).Ok?
    ensures var fs2 := MakeDirsIfMissing(MakeDirsIfMissing(fs, root).value, Join(root, id)).value;
      var sl := SaveLoop(fs2, c, root, comp.entries, names);
      sl.1.Ok? &&
      FolderSaveComponent(fs, c, root, fileName, comp) == SaveJson(sl.0, c, Join(Join(root, id), fileName), Dict(sl.1.value))
  {
    assert In("Id", comp) == Ok(true);
    assert GetItem(comp, "Id") == Ok(Str(id));
  }

  /** `save_component` followed by reading the record's file and `_fill_subcomponents`
      gives back the record as a dict: every stored body is found again through its
      back-reference, every other field is as it was, and every name of
      `Subcomponents` the record had no field for is now `{}`. Assumes the codec reads
      back what it wrote, a non-empty record `Id`, and distinct `Id`s within each list
      of bodies, each a plain folder name. */
  lemma SaveComponentRoundTrip(fs: FS, c: JsonCodec, root: Path, fileName: string, comp: Value, id: string, names: seq<Value>)
    requires Faithful(c)
    requires comp.Dict? && Lookup(comp.entries, "Id") == Some(Str(id)) && id != ""
    requires Iterate(GetOr(comp, "Subcomponents", List([])).value) == Ok(names)
    requires FieldNames(names)
    requires forall k :: 0 <= k < |names| ==> Storable(Lookup(comp.entries, names[k].s))
    requires FolderSaveComponent(fs, c, root, fileName, comp).1 == Pass
    ensures var fs' := FolderSaveComponent(fs, c, root, fileName, comp).0;
      var doc := LoadJson(fs', c, Join(Join(root, id), fileName));
      doc.Ok? && doc.value.Dict? && Fill(fs', c, root, doc.value).Ok? &&
      forall x :: Lookup(Fill(fs', c, root, doc.value).value.entries, x) ==
        (if Str(x) in names && !HasKey(comp.entries, x) then Some(Dict([])) else Lookup(comp.entries, x))
  {
    var e := comp.entries;
    FolderSaveUnfold(fs, c, root, fileName, comp, id, names);
    var fs2 := MakeDirsIfMissing(MakeDirsIfMissing(fs, root).value, Join(root, id)).value;
    SaveLoopRestores(fs2, c, root, id, e, names);
    var sl := SaveLoop(fs2, c, root, e, names);
    var e1 := sl.1.value;
    var main := Join(Join(root, id), fileName);
    SaveJsonPass(sl.0, c, main, Dict(e1));
    SaveLoadJson(sl.0, c, main, Dict(e1));
    var fs4 := FolderSaveComponent(fs, c, root, fileName, comp).0;
    assert fs4 == sl.0[main := File(c.dump(Dict(e1)))];
    assert !ChildShaped(root, "", main) && |main| <= |root| + 2;
    forall k | 0 <= k < |names|
      ensures Restored(fs4, c, root, id, names[k].s, Lookup(e, names[k].s), Lookup(e1, names[k].s))
    {
      RestoredFrame(sl.0, fs4, c, root, id, names[k].s, Lookup(e, names[k].s), Lookup(e1, names[k].s));
    }
    assert Str("Subcomponents") !in names && Str("Id") !in names;
    assert GetOr(Dict(e1), "Subcomponents", List([])) == GetOr(comp, "Subcomponents", List([]));
    FillLoopRestores(fs4, c, root, id, e1, names, e);
  }

  // ---------------------------------------------------------------------------------
  // One body, and the empty `Id`

  /** `_load_value` reads back what `_store_value` (with the empty `Id` rejected)
      stored, whatever the record and field. */
  lemma StoreThenLoadValue(fs: FS, c: JsonCodec, root: Path, compId: string, item: Value, field: string)
    requires Faithful(c)
    requires StoreValueCorrected(fs, c, root, Str(compId), item, field).1.Ok?
    ensures var r := StoreValueCorrected(fs, c, root, Str(compId), item, field);
      LoadValue(r.0, c, root, Str(compId), r.1.value, field) == Ok(item)
  {
    StoreValueErrors(fs, c, root, Str(compId), item, field);
    assert GetOr(item, "Id", Null).value == Lookup(item.entries, "Id").value;
    assert StoreValueCorrected(fs, c, root, Str(compId), item, field) == StoreValueAsWritten(fs, c, root, Str(compId), item, field);
    StoreValueUnfold(fs, c, root, compId, item, field);
    var id := Lookup(item.entries, "Id").value;
    var ct := Lookup(item.entries, "ComponentType").value;
    var t := TableLookup(ct).value;
    var dir := ChildDir(root, compId, Desc(t).destinationPath, id.s);
    WriteBodyLoads(fs, c, dir, field, item, BackRef(id, ct, t));
    RefFileBackRef(root, compId, id, ct, t, field);
    RefFileLoad(StoreValueAsWritten(fs, c, root, Str(compId), item, field).0, c, root, compId, BackRef(id, ct, t), field);
  }

  /** Writing a body into a fresh tree that has only folders, none of them as deep as
      the body's folder, succeeds. */
  lemma WriteBodyFresh(fs: FS, c: JsonCodec, dir: Path, field: string, item: Value, ref: Value)
    requires JsonValue(item)
    requires forall q :: q in fs ==> fs[q] == Dir && |q| < |dir|
    ensures WriteBody(fs, c, dir, field, item, ref).1 == Ok(ref)
  {
    MakeDirsSpec(fs, dir);
    var fs1 := MakeDirs(fs, dir).value;
    assert dir == dir[..|dir|];
    var f := Join(dir, field + ".json");
    assert f == dir + [field + ".json"];
    assert f !in Ancestors(dir);
    assert Parent(f) == dir;
  }

  /** The folder of a child with the empty `Id`: `Path / ""` adds nothing. */
  lemma EmptyIdDir(compId: string)
    requires compId != ""
    ensures ChildDir([], compId, ["estimators"], "") == [compId, "subcomponents", "estimators"]
  {
    var names := [compId, "subcomponents"] + ["estimators"] + [""];
    assert names[1..] == ["subcomponents", "estimators", ""];
    assert JoinAll([compId, "subcomponents", "estimators"], [""]) == [compId, "subcomponents", "estimators"];
    assert JoinAll([compId, "subcomponents"], ["estimators", ""]) == [compId, "subcomponents", "estimators"];
    assert JoinAll([compId], ["subcomponents", "estimators", ""]) == [compId, "subcomponents", "estimators"];
    assert JoinAll([], names) == JoinAll([compId], names[1..]);
  }

  /** The body with the empty `Id` that `_store_value` accepts. */
  const EmptyIdBody: Value := Dict([("Id", Str("")), ("ComponentType", Str("estimator"))])

  /** As written, `_store_value` on a body that passes its checks is the write of the body. */
  lemma AsWrittenIsWrite(fs: FS, c: JsonCodec, root: Path, compId: string, item: Value, field: string, id: string, ct: Value, t: ComponentType)
    requires item.Dict? && GetOr(item, "Id", Null) == Ok(Str(id))
    requires GetOr(item, "ComponentType", Str("")) == Ok(ct) && ct != Str("")
    requires TableLookup(ct) == Ok(t) && !Desc(t).standalone
    ensures StoreValueAsWritten(fs, c, root, Str(compId), item, field) ==
      WriteBody(fs, c, ChildDir(root, compId, Desc(t).destinationPath, id), field, item, BackRef(Str(id), ct, t))
  {
  }

  /** As written, `_store_value` accepts it into a tree of folders and returns a
      back-reference. */
  lemma EmptyIdStored(fs: FS, c: JsonCodec, compId: string)
    requires compId != ""
    requires forall q :: q in fs ==> fs[q] == Dir && |q| < 3
    ensures StoreValueAsWritten(fs, c, [], Str(compId), EmptyIdBody, "Estimator").1 ==
      Ok(BackRef(Str(""), Str("estimator"), Estimator))
  {
    var item := EmptyIdBody;
    assert GetOr(item, "Id", Null) == Ok(Str(""));
    assert item.entries[1..][0] == ("ComponentType", Str("estimator"));
    assert GetOr(item, "ComponentType", Str("")) == Ok(Str("estimator"));
    assert TableLookup(Str("estimator")) == Ok(Estimator);
    EmptyIdDir(compId);
    var dir := ChildDir([], compId, Desc(Estimator).destinationPath, "");
    assert |dir| == 3;
    assert JsonValue(item);
    var ref := BackRef(Str(""), Str("estimator"), Estimator);
    WriteBodyFresh(fs, c, dir, "Estimator", item, ref);
    AsWrittenIsWrite(fs, c, [], compId, item, "Estimator", "", Str("estimator"), Estimator);
  }

  /** As written, `_store_value` stores a body whose `Id` is empty, and `_load_value`
      then refuses the back-reference it returned. */
  lemma EmptyIdNotRestored(c: JsonCodec)
    ensures var r := StoreValueAsWritten(map[[] := Dir], c, [], Str("c1"), EmptyIdBody, "Estimator");
      r.1.Ok? && LoadValue(r.0, c, [], Str("c1"), r.1.value, "Estimator") == Err(Exception("Component should have 'ComponentType' field"))
  {
    EmptyIdStored(map[[] := Dir], c, "c1");
    var ref := BackRef(Str(""), Str("estimator"), Estimator);
    assert GetOr(ref, "Id", Null).value == Str("");
  }
}
