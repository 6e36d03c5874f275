/** The component store of an environment folder. A `ComponentDataManager` keeps the
    records of one component type, either as one folder per record holding its data
    file, or as a single file. Embedded subcomponents are written to files of their
    own and replaced in the parent's document by a back-reference; loading puts the
    bodies back. */
module EnvironmentDataManager {
  import opened Wrappers
  import opened Values
  import opened FileSystem
  import opened ComponentDataDesc
  import PyPaths

  /** `<root>/<parentId>/subcomponents/<dest>/<childId>`: the folder of an embedded body. */
  function ChildDir(root: Path, compId: string, dest: Path, childId: string): Path
  {
    JoinAll(root, [compId, "subcomponents"] + dest + [childId])
  }

  /** `<ChildDir>/<field>.json`: the file of an embedded body stored under field `field`. */
  function ChildFile(root: Path, compId: string, dest: Path, childId: string, field: string): (p: Path)
    ensures p == ChildDir(root, compId, dest, childId) + [field + ".json"]
  {
    Join(ChildDir(root, compId, dest, childId), field + ".json")
  }

  /** The back-reference `{Id, ComponentType, DestinationPath}` that stands for an
      embedded body in its parent's saved document. */
  function BackRef(id: Value, ct: Value, t: ComponentType): (r: Value)
    ensures r.Dict? && Truthy(r) && !r.List?
  {
    Dict([("Id", id), ("ComponentType", ct), ("DestinationPath", Str(DestinationText(t)))])
  }

  // ---------------------------------------------------------------------------------
  // Saving embedded subcomponents

  /** The checks of `_store_value` as written, giving the folder of the body and the
      back-reference that replaces it. Only a missing `Id` is rejected. */
  function StoreTargetAsWritten(root: Path, compId: Value, item: Value): (r: Result<(Path, Value)>)
  {
    if !item.Dict? then Err(AttributeError("get"))
    else
      var id := GetOr(item, "Id", Null).value;
      if id == Null then Err(ValueError("Subcomponent must have 'Id' field"))
      else
        var ct := GetOr(item, "ComponentType", Str("")).value;
        if ct == Str("") then Err(Exception("Component should have 'ComponentType' field"))
        else TypeTarget(root, compId, id, ct)
  }

  /** The checks of `_store_value` on the body's component type: it must be in the
      table and not standalone, and the ids must be strings to be joined into a path. */
  function TypeTarget(root: Path, compId: Value, id: Value, ct: Value): (r: Result<(Path, Value)>)
  {
    match TableLookup(ct)
    case Err(e) => Err(e)
    case Ok(t) =>
      if Desc(t).standalone then Err(ValueError("Cannot save subcomponent as it is standalone."))
      else if !compId.Str? || !id.Str? then Err(TypeError("unsupported operand type for /"))
      else Ok((ChildDir(root, compId.s, Desc(t).destinationPath, id.s), BackRef(id, ct, t)))
  }

  /** `_store_value` as written: writes one embedded body to its own file and returns
      the back-reference that replaces it, so a body with the empty `Id` is stored
      although `_load_value` refuses to read it back. */
  function StoreValueAsWritten(fs: FS, c: JsonCodec, root: Path, compId: Value, item: Value, field: string): (r: (FS, Result<Value>))
  {
    match StoreTargetAsWritten(root, compId, item)
    case Err(e) => (fs, Err(e))
    case Ok(t) => WriteBody(fs, c, t.0, field, item, t.1)
  }

  /** The writing half of `_store_value`: creates the body's folder when it is missing
      and dumps the body into `<field>.json` there. */
  function WriteBody(fs: FS, c: JsonCodec, dir: Path, field: string, item: Value, ref: Value): (r: (FS, Result<Value>))
  {
    match MakeDirsIfMissing(fs, dir)
    case Err(e) => (fs, Err(e))
    case Ok(fs1) =>
      var s := SaveJson(fs1, c, Join(dir, field + ".json"), item);
      if s.1.Fail? then (s.0, Err(s.1.error)) else (s.0, Ok(ref))
  }

  /** Writing a body keeps the tree well formed. */
  lemma WriteBodyWellFormed(fs: FS, c: JsonCodec, dir: Path, field: string, item: Value, ref: Value)
    requires WellFormed(fs)
    ensures WellFormed(WriteBody(fs, c, dir, field, item, ref).0)
  {
    MakeDirsWellFormed(fs, dir);
    if MakeDirsIfMissing(fs, dir).Ok? {
      SaveJsonWellFormed(MakeDirsIfMissing(fs, dir).value, c, Join(dir, field + ".json"), item);
    }
  }

  /** `_store_value` with the empty `Id` rejected as `_load_value` rejects it: the
      corrected store, about which `StoreRoundTrip.StoreThenLoadValue` is proved. */
  function StoreValueCorrected(fs: FS, c: JsonCodec, root: Path, compId: Value, item: Value, field: string): (r: (FS, Result<Value>))
  {
    if item.Dict? && GetOr(item, "Id", Null).value == Str("") then
      (fs, Err(ValueError("Subcomponent must have a non-empty 'Id' field")))
    else StoreValueAsWritten(fs, c, root, compId, item, field)
  }

  /** `_store_value` raises on a non-dict body and on one without an `Id`. */
  lemma StoreValueErrors(fs: FS, c: JsonCodec, root: Path, compId: Value, item: Value, field: string)
    ensures var r := StoreValueAsWritten(fs, c, root, compId, item, field);
      !item.Dict? ==> r == (fs, Err(AttributeError("get")))
    ensures var r := StoreValueAsWritten(fs, c, root, compId, item, field);
      item.Dict? && !HasKey(item.entries, "Id") ==> r == (fs, Err(ValueError("Subcomponent must have 'Id' field")))
  {
    if item.Dict? && !HasKey(item.entries, "Id") {
      assert GetOr(item, "Id", Null).value == Null;
    }
  }

  /** `_store_value`, as corrected, refuses an empty `Id`. */
  lemma StoreValueEmpty(fs: FS, c: JsonCodec, root: Path, compId: Value, item: Value, field: string)
    ensures var r := StoreValueCorrected(fs, c, root, compId, item, field);
      item.Dict? && Lookup(item.entries, "Id") == Some(Str("")) ==>
      r == (fs, Err(ValueError("Subcomponent must have a non-empty 'Id' field")))
  {
  }

  /** `_store_value` refuses a missing or empty component type. */
  lemma StoreValueNoType(fs: FS, c: JsonCodec, root: Path, compId: Value, item: Value, field: string)
    ensures var r := StoreValueAsWritten(fs, c, root, compId, item, field);
      (item.Dict? && HasKey(item.entries, "Id") && Lookup(item.entries, "Id") != Some(Null) &&
       (Lookup(item.entries, "ComponentType") == None || Lookup(item.entries, "ComponentType") == Some(Str("")))) ==>
      r == (fs, Err(Exception("Component should have 'ComponentType' field")))
  {
    if item.Dict? && HasKey(item.entries, "Id") && Lookup(item.entries, "Id") != Some(Null) &&
       (Lookup(item.entries, "ComponentType") == None || Lookup(item.entries, "ComponentType") == Some(Str(""))) {
      TargetNoType(root, compId, item);
    }
  }

  /** The checks stop at a missing or empty component type. */
  lemma TargetNoType(root: Path, compId: Value, item: Value)
    requires item.Dict? && Lookup(item.entries, "Id") !in {None, Some(Null)}
    requires Lookup(item.entries, "ComponentType") in {None, Some(Str(""))}
    ensures StoreTargetAsWritten(root, compId, item) == Err(Exception("Component should have 'ComponentType' field"))
  {
    assert GetOr(item, "Id", Null).value == Lookup(item.entries, "Id").value;
    assert GetOr(item, "ComponentType", Str("")).value == Str("");
  }

  /** `_store_value` refuses a standalone type. */
  lemma StoreValueStandalone(fs: FS, c: JsonCodec, root: Path, compId: Value, item: Value, field: string)
    ensures var r := StoreValueAsWritten(fs, c, root, compId, item, field);
      (item.Dict? && Lookup(item.entries, "Id") !in {None, Some(Null)} &&
       TableLookup(GetOr(item, "ComponentType", Str("")).value).Ok? &&
       Desc(TableLookup(GetOr(item, "ComponentType", Str("")).value).value).standalone) ==>
      r == (fs, Err(ValueError("Cannot save subcomponent as it is standalone.")))
  {
    if item.Dict? {
      var id := GetOr(item, "Id", Null).value;
      var ct := GetOr(item, "ComponentType", Str("")).value;
      assert id == if HasKey(item.entries, "Id") then Lookup(item.entries, "Id").value else Null;
      assert ct == if HasKey(item.entries, "ComponentType") then Lookup(item.entries, "ComponentType").value else Str("");
    }
  }

  /** What `_store_value` writes when it succeeds: the body, at `ChildFile`, with a
      back-reference returned in its place. */
  lemma StoreValueWrites(fs: FS, c: JsonCodec, root: Path, compId: Value, item: Value, field: string)
    ensures var r := StoreValueAsWritten(fs, c, root, compId, item, field);
      r.1.Ok? ==>
        item.Dict? && compId.Str? && JsonValue(item) &&
        var id := Lookup(item.entries, "Id");
        var ct := Lookup(item.entries, "ComponentType");
        id.Some? && id.value.Str? && ct.Some? && TableLookup(ct.value).Ok? &&
        var t := TableLookup(ct.value).value;
        !Desc(t).standalone && r.1.value == BackRef(id.value, ct.value, t) &&
        var f := ChildFile(root, compId.s, Desc(t).destinationPath, id.value.s, field);
        f in r.0 && r.0[f] == File(c.dump(item))
  {
  }

  /** The list branch of `_save_subcomponents`: stores every item in order and
      collects the back-references; the first failure stops it. */
  function StoreItems(fs: FS, c: JsonCodec, root: Path, compId: Value, items: seq<Value>, field: string): (r: (FS, Result<seq<Value>>))
    ensures r.1.Ok? ==> |r.1.value| == |items|
    decreases |items|
  {
    if items == [] then (fs, Ok([]))
    else
      var s := StoreValueAsWritten(fs, c, root, compId, items[0], field);
      if s.1.Err? then (s.0, Err(s.1.error))
      else
        var t := StoreItems(s.0, c, root, compId, items[1..], field);
        (t.0, PrefixResult([s.1.value], t.1))
  }

  /** Storing one body keeps the tree well formed. */
  lemma StoreValueWellFormed(fs: FS, c: JsonCodec, root: Path, compId: Value, item: Value, field: string)
    requires WellFormed(fs)
    ensures WellFormed(StoreValueAsWritten(fs, c, root, compId, item, field).0)
  {
    var t := StoreTargetAsWritten(root, compId, item);
    if t.Ok? {
      WriteBodyWellFormed(fs, c, t.value.0, field, item, t.value.1);
    }
  }

  /** Storing a list of bodies keeps the tree well formed. */
  lemma {:induction false} StoreItemsWellFormed(fs: FS, c: JsonCodec, root: Path, compId: Value, items: seq<Value>, field: string)
    requires WellFormed(fs)
    ensures WellFormed(StoreItems(fs, c, root, compId, items, field).0)
    decreases |items|
  {
    if items != [] {
      var s := StoreValueAsWritten(fs, c, root, compId, items[0], field);
      StoreValueWellFormed(fs, c, root, compId, items[0], field);
      if s.1.Ok? {
        StoreItemsWellFormed(s.0, c, root, compId, items[1..], field);
      }
    }
  }

  lemma StoreItemsStep(fs: FS, c: JsonCodec, root: Path, compId: Value, items: seq<Value>, field: string, j: nat)
    requires j < |items|
    ensures StoreItems(fs, c, root, compId, items[j..], field) ==
      var s := StoreValueAsWritten(fs, c, root, compId, items[j], field);
      if s.1.Err? then (s.0, Err(s.1.error))
      else
        var t := StoreItems(s.0, c, root, compId, items[j + 1..], field);
        (t.0, PrefixResult([s.1.value], t.1))
  {
    assert items[j..][0] == items[j] && items[j..][1..] == items[j + 1..];
  }

  /** The loop of `StoreEach` after item `j` was stored: on success the stored reference
      joins the prefix, on failure the whole scan fails with the state the item left. */
  lemma StoreItemsAdvance(fs0: FS, fsj: FS, c: JsonCodec, root: Path, compId: Value, items: seq<Value>, field: string,
                          j: nat, refs: seq<Value>, s: (FS, Result<Value>))
    requires j < |items|
    requires var t := StoreItems(fsj, c, root, compId, items[j..], field);
      StoreItems(fs0, c, root, compId, items, field) == (t.0, PrefixResult(refs, t.1))
    requires StoreValueAsWritten(fsj, c, root, compId, items[j], field) == s
    ensures s.1.Err? ==> StoreItems(fs0, c, root, compId, items, field) == (s.0, Err(s.1.error))
    ensures s.1.Ok? ==>
      var t := StoreItems(s.0, c, root, compId, items[j + 1..], field);
      StoreItems(fs0, c, root, compId, items, field) == (t.0, PrefixResult(refs + [s.1.value], t.1))
  {
    StoreItemsStep(fsj, c, root, compId, items, field, j);
    if s.1.Ok? {
      PrefixResultAssoc(refs, [s.1.value], StoreItems(s.0, c, root, compId, items[j + 1..], field).1);
    }
  }

  /** One name of `Subcomponents` in `_save_subcomponents`: an absent or empty field is
      left alone, a list field has every item stored, any other field is stored. */
  function SaveStep(fs: FS, c: JsonCodec, root: Path, e: Entries, name: Value): (r: (FS, Result<Entries>))
  {
    if name.List? || name.Dict? || name.NdArray? then (fs, Err(TypeError("unhashable type")))
    else if !name.Str? || !HasKey(e, name.s) then (fs, Ok(e))
    else
      var v := Lookup(e, name.s).value;
      if !Truthy(v) then (fs, Ok(e))
      else match GetItem(Dict(e), "Id")
        case Err(err) => (fs, Err(err))
        case Ok(compId) =>
          if v.List? then
            var s := StoreItems(fs, c, root, compId, v.items, name.s);
            if s.1.Err? then (s.0, Err(s.1.error)) else (s.0, Ok(Put(e, name.s, List(s.1.value))))
          else
            var s := StoreValueAsWritten(fs, c, root, compId, v, name.s);
            if s.1.Err? then (s.0, Err(s.1.error)) else (s.0, Ok(Put(e, name.s, s.1.value)))
  }

  /** The loop of `_save_subcomponents` over `names`. */
  function SaveLoop(fs: FS, c: JsonCodec, root: Path, e: Entries, names: seq<Value>): (r: (FS, Result<Entries>))
    decreases |names|
  {
    if names == [] then (fs, Ok(e))
    else
      var s := SaveStep(fs, c, root, e, names[0]);
      if s.1.Err? then (s.0, Err(s.1.error)) else SaveLoop(s.0, c, root, s.1.value, names[1..])
  }

  /** The loop of `_save_subcomponents` after name `i` was handled: on failure the
      whole loop fails with the state the name left, on success it goes on from there. */
  lemma SaveLoopAdvance(fs0: FS, fsi: FS, c: JsonCodec, root: Path, e0: Entries, e: Entries, names: seq<Value>,
                        i: nat, s: (FS, Result<Entries>))
    requires i < |names|
    requires SaveLoop(fs0, c, root, e0, names) == SaveLoop(fsi, c, root, e, names[i..])
    requires SaveStep(fsi, c, root, e, names[i]) == s
    ensures s.1.Err? ==> SaveLoop(fs0, c, root, e0, names) == (s.0, Err(s.1.error))
    ensures s.1.Ok? ==> SaveLoop(fs0, c, root, e0, names) == SaveLoop(s.0, c, root, s.1.value, names[i + 1..])
  {
    assert names[i..][0] == names[i] && names[i..][1..] == names[i + 1..];
  }

  /** Saving the embedded bodies keeps the tree well formed. */
  lemma {:induction false} SaveLoopWellFormed(fs: FS, c: JsonCodec, root: Path, e: Entries, names: seq<Value>)
    requires WellFormed(fs)
    ensures WellFormed(SaveLoop(fs, c, root, e, names).0)
    decreases |names|
  {
    if names != [] {
      var s := SaveStep(fs, c, root, e, names[0]);
      var name := names[0];
      if name.Str? && HasKey(e, name.s) && GetItem(Dict(e), "Id").Ok? {
        var v := Lookup(e, name.s).value;
        var compId := GetItem(Dict(e), "Id").value;
        if v.List? {
          StoreItemsWellFormed(fs, c, root, compId, v.items, name.s);
        } else {
          StoreValueWellFormed(fs, c, root, compId, v, name.s);
        }
      }
      assert WellFormed(s.0);
      if s.1.Ok? {
        SaveLoopWellFormed(s.0, c, root, s.1.value, names[1..]);
      }
    }
  }

  /** `_save_subcomponents`: works on a copy, so the caller's document is unchanged;
      a non-dict is returned as it is. */
  function SaveSubcomponentsEffect(fs: FS, c: JsonCodec, root: Path, comp: Value): (r: (FS, Result<Value>))
    ensures !comp.Dict? ==> r == (fs, Ok(comp))
    ensures r.1.Ok? ==> (r.1.value.Dict? <==> comp.Dict?)
  {
    if !comp.Dict? then (fs, Ok(comp))
    else match Iterate(GetOr(comp, "Subcomponents", List([])).value)
      case Err(err) => (fs, Err(err))
      case Ok(names) =>
        var s := SaveLoop(fs, c, root, comp.entries, names);
        if s.1.Err? then (s.0, Err(s.1.error)) else (s.0, Ok(Dict(s.1.value)))
  }

  // ---------------------------------------------------------------------------------
  // Loading embedded subcomponents

  /** `_load_value`: reads the body a back-reference stands for. */
  function LoadValue(fs: FS, c: JsonCodec, root: Path, compId: Value, item: Value, field: string): (r: Result<Value>)
  {
    if !item.Dict? then Err(AttributeError("get"))
    else
      var id := GetOr(item, "Id", Null).value;
      var ct := GetOr(item, "ComponentType", Null).value;
      if id == Null || id == Str("") || ct == Null || ct == Str("") then
        Err(Exception("Component should have 'ComponentType' field"))
      else match TableLookup(ct)
        case Err(e) => Err(e)
        case Ok(t) =>
          if !compId.Str? || !id.Str? then Err(TypeError("unsupported operand type for /"))
          else LoadJson(fs, c, ChildFile(root, compId.s, Desc(t).destinationPath, id.s, field))
  }

  /** What `_load_value` raises on a malformed back-reference. */
  lemma LoadValueErrors(fs: FS, c: JsonCodec, root: Path, compId: Value, item: Value, field: string)
    ensures !item.Dict? ==> LoadValue(fs, c, root, compId, item, field) == Err(AttributeError("get"))
    ensures (item.Dict? && (Lookup(item.entries, "Id") in {None, Some(Null), Some(Str(""))} ||
                            Lookup(item.entries, "ComponentType") in {None, Some(Null), Some(Str(""))})) ==>
      LoadValue(fs, c, root, compId, item, field) == Err(Exception("Component should have 'ComponentType' field"))
  {
  }

  /** The list branch of `_fill_subcomponents`. */
  function LoadItems(fs: FS, c: JsonCodec, root: Path, compId: Value, items: seq<Value>, field: string): (r: Result<seq<Value>>)
    ensures r.Ok? ==> |r.value| == |items|
    decreases |items|
  {
    if items == [] then Ok([])
    else match LoadValue(fs, c, root, compId, items[0], field)
      case Err(e) => Err(e)
      case Ok(v) => PrefixResult([v], LoadItems(fs, c, root, compId, items[1..], field))
  }

  lemma LoadItemsStep(fs: FS, c: JsonCodec, root: Path, compId: Value, items: seq<Value>, field: string, j: nat)
    requires j < |items|
    ensures LoadItems(fs, c, root, compId, items[j..], field) ==
      match LoadValue(fs, c, root, compId, items[j], field)
      case Err(e) => Err(e)
      case Ok(v) => PrefixResult([v], LoadItems(fs, c, root, compId, items[j + 1..], field))
  {
    assert items[j..][0] == items[j] && items[j..][1..] == items[j + 1..];
  }

  /** The loop of `LoadEach` after item `j` was read: on success the body joins the
      prefix, on failure the whole scan fails with the item's error. */
  lemma LoadItemsAdvance(fs: FS, c: JsonCodec, root: Path, compId: Value, items: seq<Value>, field: string,
                         j: nat, res: seq<Value>, body: Result<Value>)
    requires j < |items|
    requires LoadItems(fs, c, root, compId, items, field) == PrefixResult(res, LoadItems(fs, c, root, compId, items[j..], field))
    requires LoadValue(fs, c, root, compId, items[j], field) == body
    ensures body.Err? ==> LoadItems(fs, c, root, compId, items, field) == Err(body.error)
    ensures body.Ok? ==>
      LoadItems(fs, c, root, compId, items, field) == PrefixResult(res + [body.value], LoadItems(fs, c, root, compId, items[j + 1..], field))
  {
    LoadItemsStep(fs, c, root, compId, items, field, j);
    if body.Ok? {
      PrefixResultAssoc(res, [body.value], LoadItems(fs, c, root, compId, items[j + 1..], field));
    }
  }

  /** One name of `Subcomponents` in `_fill_subcomponents`: an absent field becomes
      `{}`, an empty one is left alone, and back-references are replaced by bodies. */
  function FillStep(fs: FS, c: JsonCodec, root: Path, e: Entries, name: Value): (r: Result<Entries>)
    ensures name.Str? && !HasKey(e, name.s) ==> r == Ok(Put(e, name.s, Dict([])))
    ensures name.Str? && HasKey(e, name.s) && !Truthy(Lookup(e, name.s).value) ==> r == Ok(e)
  {
    if !name.Str? then Err(TypeError("subcomponent name must be a str"))
    else if !HasKey(e, name.s) then Ok(Put(e, name.s, Dict([])))
    else
      var v := Lookup(e, name.s).value;
      if !Truthy(v) then Ok(e)
      else match GetItem(Dict(e), "Id")
        case Err(err) => Err(err)
        case Ok(compId) =>
          if v.List? then
            match LoadItems(fs, c, root, compId, v.items, name.s)
            case Err(err) => Err(err)
            case Ok(vs) => Ok(Put(e, name.s, List(vs)))
          else
            match LoadValue(fs, c, root, compId, v, name.s)
            case Err(err) => Err(err)
            case Ok(body) => Ok(Put(e, name.s, body))
  }

  /** The loop of `_fill_subcomponents` over `names`. */
  function FillLoop(fs: FS, c: JsonCodec, root: Path, e: Entries, names: seq<Value>): (r: Result<Entries>)
    decreases |names|
  {
    if names == [] then Ok(e)
    else match FillStep(fs, c, root, e, names[0])
      case Err(err) => Err(err)
      case Ok(e1) => FillLoop(fs, c, root, e1, names[1..])
  }

  /** `_fill_subcomponents`: a non-dict is returned as it is. */
  function Fill(fs: FS, c: JsonCodec, root: Path, comp: Value): (r: Result<Value>)
    ensures !comp.Dict? ==> r == Ok(comp)
    ensures r.Ok? ==> (r.value.Dict? <==> comp.Dict?)
  {
    if !comp.Dict? then Ok(comp)
    else match Iterate(GetOr(comp, "Subcomponents", List([])).value)
      case Err(err) => Err(err)
      case Ok(names) =>
        match FillLoop(fs, c, root, comp.entries, names)
        case Err(err) => Err(err)
        case Ok(e) => Ok(Dict(e))
  }

  // ---------------------------------------------------------------------------------
  // Whole documents

  /** The documents one folder entry contributes to `load_all`: nothing for a file or a
      folder without the data file, the items of a list document, or the document. */
  function ItemDocs(fs: FS, c: JsonCodec, root: Path, fileName: string, name: string): (r: Result<seq<Value>>)
    ensures !IsDir(fs, root + [name]) || Join(root + [name], fileName) !in fs ==> r == Ok([])
  {
    var item := root + [name];
    if !IsDir(fs, item) || Join(item, fileName) !in fs then Ok([])
    else match LoadJson(fs, c, Join(item, fileName))
      case Err(e) => Err(e)
      case Ok(d) =>
        match Fill(fs, c, root, d)
        case Err(e) => Err(e)
        case Ok(v) => if v.List? then Ok(v.items) else Ok([v])
  }

  lemma LoadFolderStep(fs: FS, c: JsonCodec, root: Path, fileName: string, names: seq<string>, i: nat)
    requires i < |names|
    ensures LoadFolder(fs, c, root, fileName, names[i..]) ==
      match ItemDocs(fs, c, root, fileName, names[i])
      case Err(e) => Err(e)
      case Ok(ds) => PrefixResult(ds, LoadFolder(fs, c, root, fileName, names[i + 1..]))
  {
    assert names[i..][0] == names[i] && names[i..][1..] == names[i + 1..];
  }

  /** The folder branch of `load_all` over a listing of the root. */
  function LoadFolder(fs: FS, c: JsonCodec, root: Path, fileName: string, names: seq<string>): (r: Result<seq<Value>>)
    decreases |names|
  {
    if names == [] then Ok([])
    else match ItemDocs(fs, c, root, fileName, names[0])
      case Err(e) => Err(e)
      case Ok(ds) => PrefixResult(ds, LoadFolder(fs, c, root, fileName, names[1..]))
  }

  /** `load_all`: `[]` for a missing root, the single filled document in file mode, and
      the documents of every record folder in folder mode. */
  function LoadAllResult(fs: FS, c: JsonCodec, root: Path, fileName: string, isFile: bool, names: seq<string>): (r: Result<Value>)
    ensures root !in fs ==> r == Ok(List([]))
    ensures root in fs && isFile ==>
      r == (match LoadJson(fs, c, root) case Err(e) => Err(e) case Ok(d) => Fill(fs, c, root, d))
    ensures root in fs && !isFile && !IsDir(fs, root) ==> r == Ok(List([]))
    ensures root in fs && !isFile && IsDir(fs, root) ==>
      r == (match LoadFolder(fs, c, root, fileName, names) case Err(e) => Err(e) case Ok(ds) => Ok(List(ds)))
  {
    if root !in fs then Ok(List([]))
    else if isFile then
      match LoadJson(fs, c, root)
      case Err(e) => Err(e)
      case Ok(d) => Fill(fs, c, root, d)
    else if IsDir(fs, root) then
      match LoadFolder(fs, c, root, fileName, names)
      case Err(e) => Err(e)
      case Ok(ds) => Ok(List(ds))
    else Ok(List([]))
  }

  /** `save_all` (and `save_component`) in file mode: the subcomponents are stored, but
      the file receives the document as given, bodies included. */
  function FileModeSave(fs: FS, c: JsonCodec, root: Path, data: Value): (r: (FS, Outcome))
  {
    var s := SaveSubcomponentsEffect(fs, c, root, data);
    if s.1.Err? then (s.0, Fail(s.1.error)) else SaveJson(s.0, c, root, data)
  }

  /** `save_component` in folder mode: the record goes to `<root>/<Id>/<fileName>`,
      with its subcomponents replaced by back-references. */
  function FolderSaveComponent(fs: FS, c: JsonCodec, root: Path, fileName: string, comp: Value): (r: (FS, Outcome))
    ensures MakeDirsIfMissing(fs, root).Ok? && In("Id", comp) == Ok(false) ==>
      r == (MakeDirsIfMissing(fs, root).value, Fail(ValueError("Component must have 'Id' field")))
  {
    match MakeDirsIfMissing(fs, root)
    case Err(e) => (fs, Fail(e))
    case Ok(fs1) =>
      match In("Id", comp)
      case Err(e) => (fs1, Fail(e))
      case Ok(has) =>
        if !has then (fs1, Fail(ValueError("Component must have 'Id' field")))
        else match GetItem(comp, "Id")
          case Err(e) => (fs1, Fail(e))
          case Ok(compId) =>
            if !compId.Str? then (fs1, Fail(TypeError("unsupported operand type for /")))
            else
              var compPath := Join(root, compId.s);
              match MakeDirsIfMissing(fs1, compPath)
              case Err(e) => (fs1, Fail(e))
              case Ok(fs2) =>
                var s := SaveSubcomponentsEffect(fs2, c, root, comp);
                if s.1.Err? then (s.0, Fail(s.1.error))
                else SaveJson(s.0, c, Join(compPath, fileName), s.1.value)
  }

  /** `save_component`. */
  function SaveComponentEffect(fs: FS, c: JsonCodec, root: Path, fileName: string, isFile: bool, comp: Value): (r: (FS, Outcome))
  {
    if isFile then FileModeSave(fs, c, root, comp) else FolderSaveComponent(fs, c, root, fileName, comp)
  }

  /** The clearing loop of `save_all`: every listed entry of the root is removed. */
  function ClearFolder(fs: FS, root: Path, names: seq<string>): (r: (FS, Outcome))
    decreases |names|
  {
    if names == [] then (fs, Pass)
    else
      var item := root + [names[0]];
      var step := if IsDir(fs, item) then RemoveTree(fs, item) else Unlink(fs, item);
      match step
      case Err(e) => (fs, Fail(e))
      case Ok(fs1) => ClearFolder(fs1, root, names[1..])
  }

  /** The saving loop of `save_all`. */
  function SaveEach(fs: FS, c: JsonCodec, root: Path, fileName: string, items: seq<Value>): (r: (FS, Outcome))
    decreases |items|
  {
    if items == [] then (fs, Pass)
    else
      var s := FolderSaveComponent(fs, c, root, fileName, items[0]);
      if s.1.Fail? then s else SaveEach(s.0, c, root, fileName, items[1..])
  }

  lemma SaveEachStep(fs: FS, c: JsonCodec, root: Path, fileName: string, items: seq<Value>, j: nat)
    requires j < |items|
    ensures SaveEach(fs, c, root, fileName, items[j..]) ==
      var s := FolderSaveComponent(fs, c, root, fileName, items[j]);
      if s.1.Fail? then s else SaveEach(s.0, c, root, fileName, items[j + 1..])
  {
    assert items[j..][0] == items[j] && items[j..][1..] == items[j + 1..];
  }

  /** `save_all`: in folder mode the root is emptied and every given record saved. */
  function SaveAllEffect(fs: FS, c: JsonCodec, root: Path, fileName: string, isFile: bool, data: Value, names: seq<string>): (r: (FS, Outcome))
  {
    if isFile then FileModeSave(fs, c, root, data)
    else match MakeDirsIfMissing(fs, root)
      case Err(e) => (fs, Fail(e))
      case Ok(fs1) =>
        if !IsDir(fs1, root) then (fs1, Fail(NotADirectoryError(root)))
        else
          var cl := ClearFolder(fs1, root, names);
          if cl.1.Fail? then cl
          else match Iterate(data)
            case Err(e) => (cl.0, Fail(e))
            case Ok(items) => SaveEach(cl.0, c, root, fileName, items)
  }

  /** Whether clearing the entry `p` removes `q`: a folder goes with everything in it,
      a file alone. */
  predicate Hit(fs: FS, p: Path, q: Path)
  {
    if IsDir(fs, p) then IsPrefix(p, q) else q == p
  }

  /** Whether clearing the listed entries of `root`, as they stood in `fs`, removes `q`. */
  predicate Cleared(fs: FS, root: Path, names: seq<string>, q: Path)
    decreases |names|
  {
    names != [] && (Hit(fs, root + [names[0]], q) || Cleared(fs, root, names[1..], q))
  }

  /** Two different entries of one folder are not inside each other. */
  lemma SiblingsApart(root: Path, a: string, b: string)
    requires a != b
    ensures !IsPrefix(root + [a], root + [b])
  {
    assert (root + [a])[|root|] == a;
  }

  /** A path inside one entry of a folder is not inside another. */
  lemma InsideOneEntry(root: Path, a: string, b: string, q: Path)
    requires a != b && IsPrefix(root + [b], q)
    ensures !IsPrefix(root + [a], q)
  {
    assert (root + [a])[|root|] == a && (root + [b])[|root|] == b;
  }

  /** The clearing loop removes exactly what lies in the listed entries, as they stood
      at the start (`fs0`), and nothing it keeps changes. */
  lemma {:induction false} ClearFolderFrom(fs0: FS, fs: FS, root: Path, names: seq<string>)
    requires forall i, j :: 0 <= i < j < |names| ==> names[i] != names[j]
    requires forall i :: 0 <= i < |names| ==> root + [names[i]] in fs && root + [names[i]] in fs0
    requires forall i :: 0 <= i < |names| ==> fs[root + [names[i]]] == fs0[root + [names[i]]]
    ensures ClearFolder(fs, root, names).1 == Pass
    ensures forall q :: q in ClearFolder(fs, root, names).0 <==> q in fs && !Cleared(fs0, root, names, q)
    ensures forall q :: q in ClearFolder(fs, root, names).0 ==> ClearFolder(fs, root, names).0[q] == fs[q]
    decreases |names|
  {
    if names != [] {
      var p := root + [names[0]];
      assert p in fs;
      var fs1 := if IsDir(fs, p) then RemoveTree(fs, p).value else Unlink(fs, p).value;
      assert forall q :: q in fs1 <==> q in fs && !Hit(fs0, p, q);
      assert forall q :: q in fs1 ==> fs1[q] == fs[q];
      assert ClearFolder(fs, root, names) == ClearFolder(fs1, root, names[1..]);
      var rest := names[1..];
      forall i | 0 <= i < |rest|
        ensures root + [rest[i]] in fs1 && root + [rest[i]] in fs0 && fs1[root + [rest[i]]] == fs0[root + [rest[i]]]
      {
        assert rest[i] == names[i + 1] && names[0] != names[i + 1];
        SiblingsApart(root, names[0], rest[i]);
      }
      ClearFolderFrom(fs0, fs1, root, rest);
    }
  }

  /** Every listed entry is among what the clearing removes. */
  lemma {:induction false} ClearedListed(fs: FS, root: Path, names: seq<string>, k: nat)
    requires k < |names|
    ensures Cleared(fs, root, names, root + [names[k]])
    decreases k
  {
    if k > 0 {
      assert names[1..][k - 1] == names[k];
      ClearedListed(fs, root, names[1..], k - 1);
    }
  }

  /** What the clearing removes lies strictly inside the root. */
  lemma {:induction false} ClearedInside(fs: FS, root: Path, names: seq<string>, q: Path)
    requires Cleared(fs, root, names, q)
    ensures IsPrefix(root, q) && q != root
    decreases |names|
  {
    if !Hit(fs, root + [names[0]], q) {
      ClearedInside(fs, root, names[1..], q);
    } else {
      assert q[..|root|] == (root + [names[0]])[..|root|];
    }
  }

  /** The clearing loop of `save_all`, given the root's listing, always succeeds, leaves
      the root with no entry and leaves everything outside it as it was. */
  lemma ClearFolderEmpties(fs: FS, root: Path, names: seq<string>)
    requires IsListing(fs, root, names)
    ensures ClearFolder(fs, root, names).1 == Pass
    ensures Children(ClearFolder(fs, root, names).0, root) == {}
    ensures forall q :: q in fs && !(IsPrefix(root, q) && q != root) ==>
      q in ClearFolder(fs, root, names).0 && ClearFolder(fs, root, names).0[q] == fs[q]
  {
    forall i | 0 <= i < |names| ensures root + [names[i]] in fs {
      assert names[i] in (set n | n in names);
      ChildIn(fs, root, names[i]);
    }
    ClearFolderFrom(fs, fs, root, names);
    var fs' := ClearFolder(fs, root, names).0;
    forall n | n in Children(fs', root) ensures false {
      ChildIn(fs', root, n);
      ChildIn(fs, root, n);
      assert n in (set m | m in names);
      var k :| 0 <= k < |names| && names[k] == n;
      ClearedListed(fs, root, names, k);
    }
    forall q | q in fs && !(IsPrefix(root, q) && q != root) ensures q in fs' && fs'[q] == fs[q] {
      if Cleared(fs, root, names, q) {
        ClearedInside(fs, root, names, q);
      }
    }
  }

  /** `self.path / component_id` as `pathlib` forms it: the id is split at `/`, empty
      pieces and `.` are dropped, and an absolute id starts again from the top. */
  function RecordPath(root: Path, id: string): Path
  {
    PyPaths.Resolve(root, id)
  }

  /** A plain id names one child of the root. */
  lemma RecordPathPlain(root: Path, id: string)
    requires PlainName(id)
    ensures RecordPath(root, id) == root + [id]
  {
    PyPaths.PartsPlain(id);
  }

  /** The id `.` names the root itself. */
  lemma RecordPathDot(root: Path)
    ensures RecordPath(root, ".") == root
  {
    assert "."[0] == '.' && "."[1..] == "";
    assert PyPaths.Split("") == [""];
    assert ['.'] + "" == ".";
    assert [""][1..] == [];
    assert PyPaths.Split(".") == ["."];
    assert PyPaths.Clean(["."]) == [];
  }

  /** In file mode `remove_component` deletes the file if there is one; in folder mode
      it deletes the folder `self.path / component_id` names, with everything in it and
      nothing else, and a record without a folder is no error. That folder is the
      record's own for a plain id and the root itself for `.`. */
  lemma RemoveComponentScope(fs: FS, root: Path, isFile: bool, id: Value)
    ensures isFile ==> (RemoveComponentEffect(fs, root, true, id).1 == Pass <==> !IsDir(fs, root))
    ensures isFile && RemoveComponentEffect(fs, root, true, id).1 == Pass ==> RemoveComponentEffect(fs, root, true, id).0 == fs - {root}
    ensures !isFile && id.Str? ==> RemoveComponentEffect(fs, root, false, id).1 == Pass
    ensures !isFile && id.Str? ==> var p := RecordPath(root, id.s); var r := RemoveComponentEffect(fs, root, false, id);
      forall q :: (q in r.0 <==> q in fs && !(IsDir(fs, p) && IsPrefix(p, q))) && (q in r.0 ==> r.0[q] == fs[q])
    ensures id.Str? && PlainName(id.s) ==> RecordPath(root, id.s) == root + [id.s]
    ensures id == Str(".") ==> RecordPath(root, id.s) == root
  {
    if id.Str? && PlainName(id.s) {
      RecordPathPlain(root, id.s);
    }
    if id == Str(".") {
      RecordPathDot(root);
    }
  }

  /** Removing a record with a plain id leaves every other record's folder as it was. */
  lemma RemoveKeepsSiblings(fs: FS, root: Path, id: string, other: string, q: Path)
    requires PlainName(id) && other != id && q in fs && IsPrefix(root + [other], q)
    ensures var r := RemoveComponentEffect(fs, root, false, Str(id));
      q in r.0 && r.0[q] == fs[q]
  {
    RemoveComponentScope(fs, root, false, Str(id));
    InsideOneEntry(root, id, other, q);
  }

  /** `remove_component('.')` in folder mode removes the root folder and every record
      in it, and nothing outside the root. */
  lemma RemoveDotClearsRoot(fs: FS, root: Path)
    requires IsDir(fs, root)
    ensures var r := RemoveComponentEffect(fs, root, false, Str("."));
      r.1 == Pass && (forall q :: IsPrefix(root, q) ==> q !in r.0) &&
      forall q :: q in fs && !IsPrefix(root, q) ==> q in r.0 && r.0[q] == fs[q]
  {
    RemoveComponentScope(fs, root, false, Str("."));
  }

  /** `remove_component`: the single file in file mode, else the record's folder. */
  function RemoveComponentEffect(fs: FS, root: Path, isFile: bool, id: Value): (r: (FS, Outcome))
    ensures isFile && root !in fs ==> r == (fs, Pass)
    ensures !isFile && !id.Str? ==> r.0 == fs && r.1.Fail?
    ensures !isFile && id.Str? && !IsDir(fs, RecordPath(root, id.s)) ==> r == (fs, Pass)
  {
    if isFile then
      if root !in fs then (fs, Pass)
      else match Unlink(fs, root)
        case Err(e) => (fs, Fail(e))
        case Ok(fs1) => (fs1, Pass)
    else if !id.Str? then (fs, Fail(TypeError("unsupported operand type for /")))
    else if !IsDir(fs, RecordPath(root, id.s)) then (fs, Pass)
    else match RemoveTree(fs, RecordPath(root, id.s))
      case Err(e) => (fs, Fail(e))
      case Ok(fs1) => (fs1, Pass)
  }

  /** The data-file name after the constructor's defaulting. */
  function DefaultFileName(isFile: bool, fileName: Option<string>): string
  {
    if fileName.Some? then fileName.value else if isFile then "" else "component.json"
  }

  /** The constructor's check: a root that is a file takes no data-file name. */
  function ModeCheck(fs: FS, dest: Path, fileName: Option<string>): (o: Outcome)
    ensures o.Fail? <==> IsFile(fs, dest) && fileName.Some? && fileName.value != ""
  {
    if IsFile(fs, dest) && fileName.Some? && fileName.value != "" then
      Fail(ValueError("If rel_path is a file, file_name must be None"))
    else Pass
  }

  class ComponentDataManager {
    const path: Path
    const fileName: string
    /** Decided once, when the manager is made, by whether `path` is then a file. */
    const isFile: bool
    const codec: JsonCodec
    const descClass: Option<DescClass>

    constructor (fs: FS, dest: Path, fileName: Option<string>, descClass: Option<DescClass>, codec: JsonCodec)
      requires ModeCheck(fs, dest, fileName) == Pass
      ensures path == dest && isFile == IsFile(fs, dest)
      ensures this.fileName == DefaultFileName(IsFile(fs, dest), fileName)
      ensures this.descClass == descClass && this.codec == codec
    {
      path := dest;
      isFile := IsFile(fs, dest);
      this.fileName := DefaultFileName(IsFile(fs, dest), fileName);
      this.descClass := descClass;
      this.codec := codec;
    }

    method StoreValue(disk: Disk, compId: Value, item: Value, field: string) returns (r: Result<Value>)
      modifies disk
      ensures (disk.fs, r) == StoreValueAsWritten(old(disk.fs), codec, path, compId, item, field)
      ensures old(disk.Valid()) ==> disk.Valid()
    {
      var t := StoreTargetAsWritten(path, compId, item);
      if t.Err? {
        return Err(t.error);
      }
      r := WriteBodyTo(disk, t.value.0, field, item, t.value.1);
    }

    /** The writing half of `_store_value`. */
    method WriteBodyTo(disk: Disk, dir: Path, field: string, item: Value, ref: Value) returns (r: Result<Value>)
      modifies disk
      ensures (disk.fs, r) == WriteBody(old(disk.fs), codec, dir, field, item, ref)
      ensures old(disk.Valid()) ==> disk.Valid()
    {
      var o := disk.MkdirIfMissing(dir);
      if o.Fail? {
        return Err(o.error);
      }
      o := disk.DumpJson(codec, Join(dir, field + ".json"), item);
      if o.Fail? {
        return Err(o.error);
      }
      r := Ok(ref);
    }

    /** `_save_subcomponents`. */
    method SaveSubcomponents(disk: Disk, comp: Value) returns (r: Result<Value>)
      modifies disk
      ensures (disk.fs, r) == SaveSubcomponentsEffect(old(disk.fs), codec, path, comp)
      ensures old(disk.Valid()) ==> disk.Valid()
    {
      if !comp.Dict? {
        return Ok(comp);
      }
      var it := Iterate(GetOr(comp, "Subcomponents", List([])).value);
      if it.Err? {
        return Err(it.error);
      }
      var names := it.value;
      var e := comp.entries;
      var i := 0;
      while i < |names|
        invariant 0 <= i <= |names|
        invariant SaveLoop(old(disk.fs), codec, path, comp.entries, names) == SaveLoop(disk.fs, codec, path, e, names[i..])
      {
        ghost var fsi := disk.fs;
        var s := SaveName(disk, e, names[i]);
        SaveLoopAdvance(old(disk.fs), fsi, codec, path, comp.entries, e, names, i, (disk.fs, s));
        if s.Err? {
          SaveKeepsValid(disk, old(disk.fs), comp.entries, names);
          return Err(s.error);
        }
        e := s.value;
        i := i + 1;
      }
      SaveKeepsValid(disk, old(disk.fs), comp.entries, names);
      r := Ok(Dict(e));
    }

    /** One name of `Subcomponents` in `_save_subcomponents`. */
    method SaveName(disk: Disk, e: Entries, name: Value) returns (r: Result<Entries>)
      modifies disk
      ensures (disk.fs, r) == SaveStep(old(disk.fs), codec, path, e, name)
    {
      if name.List? || name.Dict? || name.NdArray? {
        return Err(TypeError("unhashable type"));
      }
      if !name.Str? || !HasKey(e, name.s) {
        return Ok(e);
      }
      var v := Lookup(e, name.s).value;
      if !Truthy(v) {
        return Ok(e);
      }
      var idr := GetItem(Dict(e), "Id");
      if idr.Err? {
        return Err(idr.error);
      }
      if v.List? {
        var refs := StoreEach(disk, idr.value, v.items, name.s);
        if refs.Err? {
          return Err(refs.error);
        }
        r := Ok(Put(e, name.s, List(refs.value)));
      } else {
        var ref := StoreValue(disk, idr.value, v, name.s);
        if ref.Err? {
          return Err(ref.error);
        }
        r := Ok(Put(e, name.s, ref.value));
      }
    }

    /** The disk after the loop of `_save_subcomponents` is valid when it was before. */
    lemma SaveKeepsValid(disk: Disk, fs0: FS, e: Entries, names: seq<Value>)
      requires disk.fs == SaveLoop(fs0, codec, path, e, names).0
      ensures WellFormed(fs0) ==> disk.Valid()
    {
      if WellFormed(fs0) {
        SaveLoopWellFormed(fs0, codec, path, e, names);
      }
    }

    /** The list branch of `_save_subcomponents`. */
    method StoreEach(disk: Disk, compId: Value, items: seq<Value>, field: string) returns (r: Result<seq<Value>>)
      modifies disk
      ensures (disk.fs, r) == StoreItems(old(disk.fs), codec, path, compId, items, field)
      ensures old(disk.Valid()) ==> disk.Valid()
    {
      var refs: seq<Value> := [];
      var j := 0;
      while j < |items|
        invariant 0 <= j <= |items|
        invariant var t := StoreItems(disk.fs, codec, path, compId, items[j..], field);
          StoreItems(old(disk.fs), codec, path, compId, items, field) == (t.0, PrefixResult(refs, t.1))
      {
        var ref := StoreNext(disk, compId, items, field, j, refs, old(disk.fs));
        if ref.Err? {
          StoreItemsKeepsValid(disk, old(disk.fs), compId, items, field);
          return Err(ref.error);
        }
        refs := refs + [ref.value];
        j := j + 1;
      }
      assert items[j..] == [] && refs + [] == refs;
      StoreItemsKeepsValid(disk, old(disk.fs), compId, items, field);
      r := Ok(refs);
    }

    /** One item of `StoreEach`: stores `items[j]` and advances the loop's account of
        the whole list. */
    method StoreNext(disk: Disk, compId: Value, items: seq<Value>, field: string, j: nat, refs: seq<Value>, ghost fs0: FS)
      returns (ref: Result<Value>)
      requires j < |items|
      requires var t := StoreItems(disk.fs, codec, path, compId, items[j..], field);
        StoreItems(fs0, codec, path, compId, items, field) == (t.0, PrefixResult(refs, t.1))
      modifies disk
      ensures ref.Err? ==> StoreItems(fs0, codec, path, compId, items, field) == (disk.fs, Err(ref.error))
      ensures ref.Ok? ==>
        var t := StoreItems(disk.fs, codec, path, compId, items[j + 1..], field);
        StoreItems(fs0, codec, path, compId, items, field) == (t.0, PrefixResult(refs + [ref.value], t.1))
    {
      ghost var fsj := disk.fs;
      ref := StoreValue(disk, compId, items[j], field);
      StoreItemsAdvance(fs0, fsj, codec, path, compId, items, field, j, refs, (disk.fs, ref));
    }

    /** The disk after a list was stored is valid when it was before. */
    lemma StoreItemsKeepsValid(disk: Disk, fs0: FS, compId: Value, items: seq<Value>, field: string)
      requires disk.fs == StoreItems(fs0, codec, path, compId, items, field).0
      ensures WellFormed(fs0) ==> disk.Valid()
    {
      if WellFormed(fs0) {
        StoreItemsWellFormed(fs0, codec, path, compId, items, field);
      }
    }

    /** `_fill_subcomponents`; it only reads the disk. */
    method FillSubcomponents(disk: Disk, comp: Value) returns (r: Result<Value>)
      ensures r == Fill(disk.fs, codec, path, comp)
    {
      if !comp.Dict? {
        return Ok(comp);
      }
      var it := Iterate(GetOr(comp, "Subcomponents", List([])).value);
      if it.Err? {
        return Err(it.error);
      }
      var names := it.value;
      var e := comp.entries;
      var i := 0;
      while i < |names|
        invariant 0 <= i <= |names|
        invariant FillLoop(disk.fs, codec, path, comp.entries, names) == FillLoop(disk.fs, codec, path, e, names[i..])
      {
        assert names[i..][0] == names[i] && names[i..][1..] == names[i + 1..];
        var name := names[i];
        if !name.Str? {
          return Err(TypeError("subcomponent name must be a str"));
        }
        if !HasKey(e, name.s) {
          e := Put(e, name.s, Dict([]));
        } else {
          var v := Lookup(e, name.s).value;
          if Truthy(v) {
            var idr := GetItem(Dict(e), "Id");
            if idr.Err? {
              return Err(idr.error);
            }
            if v.List? {
              var res := LoadEach(disk, idr.value, v.items, name.s);
              if res.Err? {
                return Err(res.error);
              }
              e := Put(e, name.s, List(res.value));
            } else {
              var body := LoadValue(disk.fs, codec, path, idr.value, v, name.s);
              if body.Err? {
                return Err(body.error);
              }
              e := Put(e, name.s, body.value);
            }
          }
        }
        i := i + 1;
      }
      r := Ok(Dict(e));
    }

    /** The list branch of `_fill_subcomponents`. */
    method LoadEach(disk: Disk, compId: Value, items: seq<Value>, field: string) returns (r: Result<seq<Value>>)
      ensures r == LoadItems(disk.fs, codec, path, compId, items, field)
    {
      var res: seq<Value> := [];
      var j := 0;
      while j < |items|
        invariant 0 <= j <= |items|
        invariant LoadItems(disk.fs, codec, path, compId, items, field) ==
          PrefixResult(res, LoadItems(disk.fs, codec, path, compId, items[j..], field))
      {
        var body := LoadValue(disk.fs, codec, path, compId, items[j], field);
        LoadItemsAdvance(disk.fs, codec, path, compId, items, field, j, res, body);
        if body.Err? {
          return Err(body.error);
        }
        res := res + [body.value];
        j := j + 1;
      }
      assert items[j..] == [] && res + [] == res;
      r := Ok(res);
    }

    /** `load_all`; `listing` is the order in which the operating system lists the root. */
    method LoadAll(disk: Disk, listing: seq<string>) returns (r: Result<Value>)
      requires IsDir(disk.fs, path) ==> IsListing(disk.fs, path, listing)
      ensures r == LoadAllResult(disk.fs, codec, path, fileName, isFile, listing)
    {
      if path !in disk.fs {
        return Ok(List([]));
      }
      if isFile {
        var d := LoadJson(disk.fs, codec, path);
        if d.Err? {
          return Err(d.error);
        }
        r := FillSubcomponents(disk, d.value);
        return;
      }
      if !IsDir(disk.fs, path) {
        return Ok(List([]));
      }
      var all: seq<Value> := [];
      var i := 0;
      while i < |listing|
        invariant 0 <= i <= |listing|
        invariant LoadFolder(disk.fs, codec, path, fileName, listing) ==
          PrefixResult(all, LoadFolder(disk.fs, codec, path, fileName, listing[i..]))
      {
        LoadFolderStep(disk.fs, codec, path, fileName, listing, i);
        var item := path + [listing[i]];
        if IsDir(disk.fs, item) && Join(item, fileName) in disk.fs {
          var d := LoadJson(disk.fs, codec, Join(item, fileName));
          if d.Err? {
            return Err(d.error);
          }
          var data := FillSubcomponents(disk, d.value);
          if data.Err? {
            return Err(data.error);
          }
          var ds := if data.value.List? then data.value.items else [data.value];
          PrefixResultAssoc(all, ds, LoadFolder(disk.fs, codec, path, fileName, listing[i + 1..]));
          all := all + ds;
        }
        i := i + 1;
      }
      assert listing[i..] == [] && all + [] == all;
      r := Ok(List(all));
    }

    /** `save_component` in folder mode. */
    method SaveComponentInFolder(disk: Disk, comp: Value) returns (o: Outcome)
      modifies disk
      ensures (disk.fs, o) == FolderSaveComponent(old(disk.fs), codec, path, fileName, comp)
      ensures old(disk.Valid()) ==> disk.Valid()
    {
      o := disk.MkdirIfMissing(path);
      if o.Fail? {
        return;
      }
      var has := In("Id", comp);
      if has.Err? {
        return Fail(has.error);
      }
      if !has.value {
        return Fail(ValueError("Component must have 'Id' field"));
      }
      var compId := GetItem(comp, "Id");
      if compId.Err? {
        return Fail(compId.error);
      }
      if !compId.value.Str? {
        return Fail(TypeError("unsupported operand type for /"));
      }
      var compPath := Join(path, compId.value.s);
      o := disk.MkdirIfMissing(compPath);
      if o.Fail? {
        return;
      }
      var saved := SaveSubcomponents(disk, comp);
      if saved.Err? {
        return Fail(saved.error);
      }
      o := disk.DumpJson(codec, Join(compPath, fileName), saved.value);
    }

    /** `save_all`/`save_component` in file mode. */
    method SaveFile(disk: Disk, data: Value) returns (o: Outcome)
      modifies disk
      ensures (disk.fs, o) == FileModeSave(old(disk.fs), codec, path, data)
      ensures old(disk.Valid()) ==> disk.Valid()
    {
      var s := SaveSubcomponents(disk, data);
      if s.Err? {
        return Fail(s.error);
      }
      o := disk.DumpJson(codec, path, data);
    }

    /** `save_component`. */
    method SaveComponent(disk: Disk, comp: Value) returns (o: Outcome)
      modifies disk
      ensures (disk.fs, o) == SaveComponentEffect(old(disk.fs), codec, path, fileName, isFile, comp)
      ensures old(disk.Valid()) ==> disk.Valid()
    {
      if isFile {
        o := SaveFile(disk, comp);
      } else {
        o := SaveComponentInFolder(disk, comp);
      }
    }

    /** The clearing loop of `save_all`. */
    method ClearRoot(disk: Disk, listing: seq<string>) returns (o: Outcome)
      modifies disk
      ensures (disk.fs, o) == ClearFolder(old(disk.fs), path, listing)
      ensures old(disk.Valid()) ==> disk.Valid()
    {
      var i := 0;
      while i < |listing|
        invariant 0 <= i <= |listing|
        invariant ClearFolder(old(disk.fs), path, listing) == ClearFolder(disk.fs, path, listing[i..])
        invariant old(disk.Valid()) ==> disk.Valid()
      {
        assert listing[i..][0] == listing[i] && listing[i..][1..] == listing[i + 1..];
        var item := path + [listing[i]];
        if IsDir(disk.fs, item) {
          o := disk.Rmtree(item);
        } else {
          o := disk.Delete(item);
        }
        if o.Fail? {
          return;
        }
        i := i + 1;
      }
      assert listing[i..] == [];
      o := Pass;
    }

    /** The saving loop of `save_all`. */
    method SaveEachInFolder(disk: Disk, items: seq<Value>) returns (o: Outcome)
      modifies disk
      ensures (disk.fs, o) == SaveEach(old(disk.fs), codec, path, fileName, items)
      ensures old(disk.Valid()) ==> disk.Valid()
    {
      var j := 0;
      o := Pass;
      while j < |items|
        invariant 0 <= j <= |items|
        invariant SaveEach(old(disk.fs), codec, path, fileName, items) == SaveEach(disk.fs, codec, path, fileName, items[j..])
        invariant o == Pass
        invariant old(disk.Valid()) ==> disk.Valid()
      {
        SaveEachStep(disk.fs, codec, path, fileName, items, j);
        o := SaveComponentInFolder(disk, items[j]);
        if o.Fail? {
          return;
        }
        j := j + 1;
      }
      assert items[j..] == [];
    }

    /** `save_all`; `listing` is the order in which the operating system lists the root. */
    method SaveAll(disk: Disk, data: Value, listing: seq<string>) returns (o: Outcome)
      modifies disk
      ensures (disk.fs, o) == SaveAllEffect(old(disk.fs), codec, path, fileName, isFile, data, listing)
      ensures old(disk.Valid()) ==> disk.Valid()
    {
      if isFile {
        o := SaveFile(disk, data);
        return;
      }
      o := disk.MkdirIfMissing(path);
      if o.Fail? {
        return;
      }
      if !IsDir(disk.fs, path) {
        return Fail(NotADirectoryError(path));
      }
      o := ClearRoot(disk, listing);
      if o.Fail? {
        return;
      }
      var it := Iterate(data);
      if it.Err? {
        return Fail(it.error);
      }
      o := SaveEachInFolder(disk, it.value);
    }

    /** `remove_component`. */
    method RemoveComponent(disk: Disk, id: Value) returns (o: Outcome)
      modifies disk
      ensures (disk.fs, o) == RemoveComponentEffect(old(disk.fs), path, isFile, id)
    {
      if isFile {
        if path in disk.fs {
          o := disk.Delete(path);
        } else {
          o := Pass;
        }
        return;
      }
      if !id.Str? {
        return Fail(TypeError("unsupported operand type for /"));
      }
      var p := RecordPath(path, id.s);
      if IsDir(disk.fs, p) {
        o := disk.Rmtree(p);
      } else {
        o := Pass;
      }
    }
  }

  /** The constructor of `ComponentDataManager`, with its `ValueError`. */
  method NewComponentDataManager(disk: Disk, dest: Path, fileName: Option<string>, descClass: Option<DescClass>, codec: JsonCodec)
    returns (r: Result<ComponentDataManager>)
    ensures r.Err? <==> ModeCheck(disk.fs, dest, fileName).Fail?
    ensures r.Err? ==> r.error == ModeCheck(disk.fs, dest, fileName).error
    ensures r.Ok? ==>
      (fresh(r.value) && r.value.path == dest && r.value.isFile == IsFile(disk.fs, dest) &&
       r.value.fileName == DefaultFileName(IsFile(disk.fs, dest), fileName) &&
       r.value.descClass == descClass && r.value.codec == codec)
  {
    var check := ModeCheck(disk.fs, dest, fileName);
    if check.Fail? {
      return Err(check.error);
    }
    var m := new ComponentDataManager(disk.fs, dest, fileName, descClass, codec);
    r := Ok(m);
  }

  /** The last name of a path (`Path.name`); the empty string for the root. */
  function LastName(p: Path): string
  {
    if p == [] then "" else p[|p| - 1]
  }

  /** `is_valid_env_path`: an existing folder holding the marker `<name>.cse`, where
      `<name>` is the folder's own name. */
  predicate IsValidEnvPath(fs: FS, p: Path)
  {
    IsDir(fs, p) && Join(p, LastName(p) + ".cse") in fs
  }

  /** Which manager `get_or_create_component_data_manager` picks for a record. */
  datatype Resolution =
    | StandaloneRes(t: ComponentType)
    | EmbeddedRes(t: ComponentType, parentType: ComponentType, parentId: string)

  /** The checks of `get_or_create_component_data_manager`, before any manager is made:
      an unknown type, a parent type that is not standalone and a missing or empty
      parent Id each raise `ValueError`. */
  function ManagerKey(comp: Value): (r: Result<Resolution>)
    ensures comp.Dict? && Lookup(comp.entries, "ComponentType") == Some(Str("")) ==>
      r == Err(ValueError("Unknown component type"))
    ensures r.Ok? ==> comp.Dict? && GetOr(comp, "ComponentType", Null) == Ok(Str(TypeKey(r.value.t)))
    ensures r.Ok? ==> (r.value.StandaloneRes? <==> Desc(r.value.t).standalone)
    ensures r.Ok? && r.value.EmbeddedRes? ==>
      Desc(r.value.parentType).standalone && r.value.parentId != "" &&
      GetOr(comp, "ParentComponentId", Null) == Ok(Str(r.value.parentId)) &&
      GetOr(comp, "ParentComponentType", Null) == Ok(Str(TypeKey(r.value.parentType)))
  {
    match GetOr(comp, "ComponentType", Null)
    case Err(e) => Err(e)
    case Ok(ct) =>
      match TypeFromValue(ct)
      case Err(e) => Err(e)
      case Ok(None) => Err(ValueError("Unknown component type"))
      case Ok(Some(t)) =>
        if Desc(t).standalone then Ok(StandaloneRes(t))
        else match TypeFromValue(GetOr(comp, "ParentComponentType", Null).value)
          case Err(e) => Err(e)
          case Ok(pt) =>
            if pt.None? || !Desc(pt.value).standalone then Err(ValueError("Unknown parent component type"))
            else
              var pid := GetOr(comp, "ParentComponentId", Null).value;
              if pid == Null || pid == Str("") then Err(ValueError("Subcomponent must have 'ParentComponentId' field"))
              else if !pid.Str? then Err(TypeError("unsupported operand type for /"))
              else Ok(EmbeddedRes(t, pt.value, pid.s))
  }

  /** The root of the manager for a standalone type. */
  function StandaloneRoot(envPath: Path, t: ComponentType): Path
  {
    JoinAll(envPath, Desc(t).destinationPath)
  }

  /** `<parentRoot>/<parentId>/subcomponents/<dest>`: the root of an embedded manager. */
  function EmbeddedRoot(parentRoot: Path, parentId: string, t: ComponentType): Path
  {
    JoinAll(Join(Join(parentRoot, parentId), "subcomponents"), Desc(t).destinationPath)
  }

  class EnvironmentDataManager {
    const envPath: Path
    const codec: JsonCodec
    const standalone: map<ComponentType, ComponentDataManager>
    /** Embedded managers, cached by parent Id only. */
    var subManagers: map<string, ComponentDataManager>

    ghost predicate Valid()
      reads this
    {
      (forall t :: t in standalone <==> Desc(t).standalone) &&
      (forall t :: t in standalone ==>
        standalone[t].path == StandaloneRoot(envPath, t) && standalone[t].codec == codec &&
        standalone[t].descClass == Desc(t).dataDescClass)
    }

    constructor (envPath: Path, codec: JsonCodec, standalone: map<ComponentType, ComponentDataManager>)
      ensures this.envPath == envPath && this.codec == codec && this.standalone == standalone
      ensures subManagers == map[]
    {
      this.envPath := envPath;
      this.codec := codec;
      this.standalone := standalone;
      subManagers := map[];
    }

    /** `get_or_create_component_data_manager`. */
    method GetOrCreate(disk: Disk, comp: Value) returns (r: Result<ComponentDataManager>)
      requires Valid()
      modifies this
      ensures Valid()
      ensures ManagerKey(comp).Err? ==> r == Err(ManagerKey(comp).error) && subManagers == old(subManagers)
      ensures ManagerKey(comp).Ok? && ManagerKey(comp).value.StandaloneRes? ==>
        r == Ok(standalone[ManagerKey(comp).value.t]) && subManagers == old(subManagers)
      ensures ManagerKey(comp).Ok? && ManagerKey(comp).value.EmbeddedRes? ==>
        var k := ManagerKey(comp).value;
        if k.parentId in old(subManagers) then
          r == Ok(old(subManagers)[k.parentId]) && subManagers == old(subManagers)
        else
          var root := EmbeddedRoot(standalone[k.parentType].path, k.parentId, k.t);
          var check := ModeCheck(disk.fs, root, Some(Desc(k.t).dataFile));
          (check.Fail? ==> r == Err(check.error) && subManagers == old(subManagers)) &&
          (check.Pass? ==>
            r.Ok? && fresh(r.value) && subManagers == old(subManagers)[k.parentId := r.value] &&
            r.value.path == root && r.value.isFile == IsFile(disk.fs, root) &&
            r.value.fileName == Desc(k.t).dataFile && r.value.descClass == Desc(k.t).dataDescClass &&
            r.value.codec == codec)
    {
      var key := ManagerKey(comp);
      if key.Err? {
        return Err(key.error);
      }
      match key.value
      case StandaloneRes(t) =>
        r := Ok(standalone[t]);
      case EmbeddedRes(t, pt, pid) =>
        if pid in subManagers {
          r := Ok(subManagers[pid]);
        } else {
          var root := EmbeddedRoot(standalone[pt].path, pid, t);
          r := NewComponentDataManager(disk, root, Some(Desc(t).dataFile), Desc(t).dataDescClass, codec);
          if r.Ok? {
            subManagers := subManagers[pid := r.value];
          }
        }
    }

    /** `add_component`: the record is saved by the manager its type resolves to. */
    method AddComponent(disk: Disk, comp: Value) returns (o: Outcome)
      requires Valid()
      modifies this, disk
      ensures Valid()
      ensures ManagerKey(comp).Err? ==> o == Fail(ManagerKey(comp).error) && disk.fs == old(disk.fs)
      ensures ManagerKey(comp).Ok? && ManagerKey(comp).value.StandaloneRes? ==>
        var m := standalone[ManagerKey(comp).value.t];
        (disk.fs, o) == SaveComponentEffect(old(disk.fs), m.codec, m.path, m.fileName, m.isFile, comp)
      ensures ManagerKey(comp).Ok? && ManagerKey(comp).value.EmbeddedRes? ==>
        var pid := ManagerKey(comp).value.parentId;
        if pid in subManagers then
          var m := subManagers[pid];
          (disk.fs, o) == SaveComponentEffect(old(disk.fs), m.codec, m.path, m.fileName, m.isFile, comp)
        else o.Fail? && disk.fs == old(disk.fs)
    {
      var m := GetOrCreate(disk, comp);
      if m.Err? {
        return Fail(m.error);
      }
      o := m.value.SaveComponent(disk, comp);
    }

    /** `remove_component`: the manager its type resolves to removes the record by its
        `Id` (`None` when it has none). */
    method RemoveComponent(disk: Disk, comp: Value) returns (o: Outcome)
      requires Valid()
      modifies this, disk
      ensures Valid()
      ensures ManagerKey(comp).Err? ==> o == Fail(ManagerKey(comp).error) && disk.fs == old(disk.fs)
      ensures ManagerKey(comp).Ok? && ManagerKey(comp).value.StandaloneRes? ==>
        var m := standalone[ManagerKey(comp).value.t];
        (disk.fs, o) == RemoveComponentEffect(old(disk.fs), m.path, m.isFile, GetOr(comp, "Id", Null).value)
      ensures ManagerKey(comp).Ok? && ManagerKey(comp).value.EmbeddedRes? ==>
        var pid := ManagerKey(comp).value.parentId;
        if pid in subManagers then
          var m := subManagers[pid];
          (disk.fs, o) == RemoveComponentEffect(old(disk.fs), m.path, m.isFile, GetOr(comp, "Id", Null).value)
        else o.Fail? && disk.fs == old(disk.fs)
    {
      var m := GetOrCreate(disk, comp);
      if m.Err? {
        return Fail(m.error);
      }
      o := m.value.RemoveComponent(disk, GetOr(comp, "Id", Null).value);
    }

    /** `get_components`: only standalone types can be listed. */
    method GetComponents(disk: Disk, ct: Value, listing: seq<string>) returns (r: Result<Value>)
      requires Valid()
      requires (TypeFromValue(ct).Ok? && TypeFromValue(ct).value.Some? &&
        Desc(TypeFromValue(ct).value.value).standalone &&
        IsDir(disk.fs, StandaloneRoot(envPath, TypeFromValue(ct).value.value))) ==>
        IsListing(disk.fs, StandaloneRoot(envPath, TypeFromValue(ct).value.value), listing)
      ensures TypeFromValue(ct).Err? ==> r == Err(TypeFromValue(ct).error)
      ensures TypeFromValue(ct).Ok? && (TypeFromValue(ct).value.None? || !Desc(TypeFromValue(ct).value.value).standalone) ==>
        r == Err(ValueError("Unknown component type"))
      ensures TypeFromValue(ct).Ok? && TypeFromValue(ct).value.Some? && Desc(TypeFromValue(ct).value.value).standalone ==>
        var m := standalone[TypeFromValue(ct).value.value];
        r == LoadAllResult(disk.fs, codec, StandaloneRoot(envPath, TypeFromValue(ct).value.value), m.fileName, m.isFile, listing)
    {
      var t := TypeFromValue(ct);
      if t.Err? {
        return Err(t.error);
      }
      if t.value.None? || !Desc(t.value.value).standalone {
        return Err(ValueError("Unknown component type"));
      }
      r := standalone[t.value.value].LoadAll(disk, listing);
    }
  }

  /** The constructor of `EnvironmentDataManager`: an invalid environment path raises
      `ValueError`; otherwise a manager is made for every standalone type, in table
      order, and the first that fails its mode check stops construction. */
  method NewEnvironmentDataManager(disk: Disk, envPath: Path, codec: JsonCodec) returns (r: Result<EnvironmentDataManager>)
    ensures !IsValidEnvPath(disk.fs, envPath) ==> r == Err(ValueError("Invalid environment path"))
    ensures r.Ok? ==>
      IsValidEnvPath(disk.fs, envPath) && r.value.Valid() && r.value.subManagers == map[] &&
      r.value.envPath == envPath &&
      forall t :: t in r.value.standalone ==>
        r.value.standalone[t].isFile == IsFile(disk.fs, StandaloneRoot(envPath, t)) &&
        r.value.standalone[t].fileName == DefaultFileName(IsFile(disk.fs, StandaloneRoot(envPath, t)), Some(Desc(t).dataFile))
    ensures r.Err? && IsValidEnvPath(disk.fs, envPath) ==>
      exists t :: Desc(t).standalone && ModeCheck(disk.fs, StandaloneRoot(envPath, t), Some(Desc(t).dataFile)).Fail?
  {
    if !IsValidEnvPath(disk.fs, envPath) {
      return Err(ValueError("Invalid environment path"));
    }
    var ms: map<ComponentType, ComponentDataManager> := map[];
    var i := 0;
    while i < |AllTypes|
      invariant 0 <= i <= |AllTypes|
      invariant forall t :: t in ms <==> t in AllTypes[..i] && Desc(t).standalone
      invariant forall t :: t in ms ==> StandaloneManager(ms[t], disk.fs, envPath, codec, t)
    {
      var t := AllTypes[i];
      if Desc(t).standalone {
        var m := NewComponentDataManager(disk, StandaloneRoot(envPath, t), Some(Desc(t).dataFile), Desc(t).dataDescClass, codec);
        if m.Err? {
          assert Desc(t).standalone && ModeCheck(disk.fs, StandaloneRoot(envPath, t), Some(Desc(t).dataFile)).Fail?;
          return Err(m.error);
        }
        assert StandaloneManager(m.value, disk.fs, envPath, codec, t);
        ms := ms[t := m.value];
      }
      assert AllTypes[..i + 1] == AllTypes[..i] + [t];
      i := i + 1;
    }
    StandaloneTypes();
    assert AllTypes[..i] == AllTypes;
    var mgr := new EnvironmentDataManager(envPath, codec, ms);
    assert forall t :: t in mgr.standalone ==> StandaloneManager(mgr.standalone[t], disk.fs, envPath, codec, t);
    r := Ok(mgr);
  }

  /** The manager the constructor makes for the standalone type `t`. */
  ghost predicate StandaloneManager(m: ComponentDataManager, fs: FS, envPath: Path, codec: JsonCodec, t: ComponentType)
    reads m
  {
    m.path == StandaloneRoot(envPath, t) && m.codec == codec &&
    m.descClass == Desc(t).dataDescClass &&
    m.isFile == IsFile(fs, StandaloneRoot(envPath, t)) &&
    m.fileName == DefaultFileName(IsFile(fs, StandaloneRoot(envPath, t)), Some(Desc(t).dataFile))
  }
}
