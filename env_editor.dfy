/** The data effects of the environment editor window: unique naming of new and
    duplicated components, adding, duplicating and removing subcomponents, and the
    per-widget unsaved-change flags. The editor's tree view and dialogs are not modelled;
    the calls it makes into the component store are returned as a list of requests. */
module EnvEditor {
  import opened Wrappers
  import opened Strings
  import opened Values
  import opened Dataclasses
  import EnvModel

  // ---------------------------------------------------------------------------------
  // Unique names

  /** `f"{name} ({i})"`. */
  function Candidate(name: string, i: nat): string
  {
    name + " (" + NatToString(i) + ")"
  }

  lemma CandidateInjective(name: string, i: nat, j: nat)
    requires Candidate(name, i) == Candidate(name, j)
    ensures i == j
  {
    var a, b := Candidate(name, i), Candidate(name, j);
    assert |NatToString(i)| == |NatToString(j)|;
    assert a[|name| + 2..|a| - 1] == NatToString(i);
    assert b[|name| + 2..|b| - 1] == NatToString(j);
    NatToStringInjective(i, j);
  }

  /** The first `i` numbered candidates, as values. */
  function Candidates(name: string, i: nat): set<Value>
  {
    set j | 1 <= j <= i :: Str(Candidate(name, j))
  }

  lemma {:induction false} CandidatesCard(name: string, i: nat)
    ensures |Candidates(name, i)| == i
  {
    if i == 0 {
      assert Candidates(name, 0) == {};
    } else {
      CandidatesCard(name, i - 1);
      assert Candidates(name, i) == Candidates(name, i - 1) + {Str(Candidate(name, i))};
      if Str(Candidate(name, i)) in Candidates(name, i - 1) {
        var j :| 1 <= j <= i - 1 && Str(Candidate(name, j)) == Str(Candidate(name, i));
        CandidateInjective(name, i, j);
      }
    }
  }

  lemma {:induction false} ElementsCard(s: seq<Value>)
    ensures |set x | x in s| <= |s|
  {
    if s != [] {
      ElementsCard(s[1..]);
      assert (set x | x in s) == (set x | x in s[1..]) + {s[0]};
    } else {
      assert (set x | x in s) == {};
    }
  }

  /** Only finitely many numbered candidates can be taken: if the first `i` all are,
      there are at least `i` names. */
  lemma Pigeon(name: string, existing: seq<Value>, i: nat)
    requires forall j :: 1 <= j <= i ==> Str(Candidate(name, j)) in existing
    ensures i <= |existing|
  {
    CandidatesCard(name, i);
    ElementsCard(existing);
    assert Candidates(name, i) <= set x | x in existing;
    SubsetCard(Candidates(name, i), set x | x in existing);
  }

  lemma {:induction false} SubsetCard(a: set<Value>, b: set<Value>)
    requires a <= b
    ensures |a| <= |b|
    decreases |a|
  {
    if a != {} {
      var x :| x in a;
      SubsetCard(a - {x}, b - {x});
    }
  }

  /** Every numbered candidate from `lo` up to, not including, `hi` is in use. */
  predicate Taken(name: string, existing: seq<Value>, lo: nat, hi: nat)
  {
    forall j :: lo <= j < hi ==> Str(Candidate(name, j)) in existing
  }

  /** The least free numbered candidate from `i` on. */
  function FirstFree(name: string, existing: seq<Value>, i: nat): (r: string)
    requires i >= 1 && Taken(name, existing, 1, i)
    ensures Str(r) !in existing
    ensures exists k: nat :: i <= k && r == Candidate(name, k) && Taken(name, existing, i, k)
    decreases |existing| + 1 - i
  {
    if Str(Candidate(name, i)) !in existing then Candidate(name, i)
    else
      Pigeon(name, existing, i);
      var r := FirstFree(name, existing, i + 1);
      var k: nat :| i + 1 <= k && r == Candidate(name, k) && Taken(name, existing, i + 1, k);
      assert Taken(name, existing, i, k);
      r
  }

  /** What `make_name_unique` returns given the names already in use: the name itself
      when it is free, else `"name (i)"` for the least `i >= 1` that is free. */
  function UniqueName(name: string, existing: seq<Value>): (r: string)
    ensures Str(r) !in existing
    ensures Str(name) !in existing ==> r == name
    ensures Str(name) in existing ==>
      exists k: nat :: 1 <= k && r == Candidate(name, k) && Taken(name, existing, 1, k)
  {
    if Str(name) !in existing then name else FirstFree(name, existing, 1)
  }

  /** `[o['Name'] for o in objects]`, raising at the first object without a name. */
  function ExistingNames(objects: seq<Value>): (r: Result<seq<Value>>)
    ensures r.Ok? ==> |r.value| == |objects|
    ensures r.Ok? ==> forall i :: 0 <= i < |objects| ==> GetItem(objects[i], "Name") == Ok(r.value[i])
    ensures r.Err? ==> exists i :: 0 <= i < |objects| && GetItem(objects[i], "Name") == Err(r.error)
  {
    if objects == [] then Ok([])
    else match GetItem(objects[0], "Name")
      case Err(e) => Err(e)
      case Ok(n) =>
        match ExistingNames(objects[1..])
        case Err(e) => Err(e)
        case Ok(ns) => Ok([n] + ns)
  }

  /** The objects `make_name_unique` looks at, as written: a container that is not a
      list counts as one object, even the empty placeholder `{}`. */
  function ObjectsAsWritten(objects: Value): seq<Value>
  {
    if objects.List? then objects.items else [objects]
  }

  /** The corrected reading: a field that is not a list holds no object while it is
      empty. */
  function Objects(objects: Value): (r: seq<Value>)
    ensures objects.List? ==> r == objects.items
    ensures !objects.List? && Truthy(objects) ==> r == [objects]
    ensures !objects.List? && !Truthy(objects) ==> r == []
  {
    if objects.List? then objects.items else if Truthy(objects) then [objects] else []
  }

  function MakeNameUniqueAsWritten(name: string, objects: Value): Result<string>
  {
    match ExistingNames(ObjectsAsWritten(objects))
    case Err(e) => Err(e)
    case Ok(ns) => Ok(UniqueName(name, ns))
  }

  /** The corrected `make_name_unique`, reading an empty non-list field as no object. */
  function MakeNameUniqueFixed(name: string, objects: Value): Result<string>
  {
    match ExistingNames(Objects(objects))
    case Err(e) => Err(e)
    case Ok(ns) => Ok(UniqueName(name, ns))
  }

  /** The naming used by the editor's data operations: as written, or corrected. */
  function Naming(name: string, objects: Value, fixed: bool): Result<string>
  {
    if fixed then MakeNameUniqueFixed(name, objects) else MakeNameUniqueAsWritten(name, objects)
  }

  /** The objects whose names the naming avoids. */
  function NamedObjects(objects: Value, fixed: bool): seq<Value>
  {
    if fixed then Objects(objects) else ObjectsAsWritten(objects)
  }

  /** As written, naming a new item for an empty placeholder field raises `KeyError`. */
  lemma PlaceholderNamingFails(name: string)
    ensures MakeNameUniqueAsWritten(name, Dict([])) == Err(KeyError("Name"))
  {
    assert ObjectsAsWritten(Dict([])) == [Dict([])];
    assert GetItem(Dict([]), "Name") == Err(KeyError("Name"));
  }

  /** Corrected, an empty placeholder field leaves the proposed name as it is. */
  lemma PlaceholderNaming(name: string)
    ensures MakeNameUniqueFixed(name, Dict([])) == Ok(name)
  {
    assert Objects(Dict([])) == [];
  }

  /** `make_name_unique`, with its counting loop. */
  method MakeNameUnique(name: string, objects: Value) returns (r: Result<string>)
    ensures r == MakeNameUniqueAsWritten(name, objects)
  {
    var names := ExistingNames(ObjectsAsWritten(objects));
    if names.Err? {
      return Err(names.error);
    }
    var existing := names.value;
    if Str(name) !in existing {
      return Ok(name);
    }
    var i: nat := 1;
    var newName := Candidate(name, i);
    while Str(newName) in existing
      invariant 1 <= i <= |existing| + 1 && newName == Candidate(name, i)
      invariant Taken(name, existing, 1, i)
      decreases |existing| + 1 - i
    {
      NextCandidate(name, existing, i);
      i := i + 1;
      newName := Candidate(name, i);
    }
    FreeCandidate(name, existing, i);
    r := Ok(newName);
  }

  /** The counting loop of `make_name_unique` moves past a candidate in use. */
  lemma NextCandidate(name: string, existing: seq<Value>, i: nat)
    requires 1 <= i && Taken(name, existing, 1, i) && Str(Candidate(name, i)) in existing
    ensures i + 1 <= |existing| + 1 && Taken(name, existing, 1, i + 1)
  {
    Pigeon(name, existing, i);
  }

  /** The counting loop of `make_name_unique` stops at the first free candidate. */
  lemma FreeCandidate(name: string, existing: seq<Value>, i: nat)
    requires 1 <= i && Taken(name, existing, 1, i) && Str(Candidate(name, i)) !in existing && Str(name) in existing
    ensures Candidate(name, i) == UniqueName(name, existing)
  {
    FirstFreeAt(name, existing, 1, i);
  }

  /** Searching from any `lo` up to the first free candidate finds that one. */
  lemma {:induction false} FirstFreeAt(name: string, existing: seq<Value>, lo: nat, i: nat)
    requires 1 <= lo <= i && Taken(name, existing, 1, i) && Str(Candidate(name, i)) !in existing
    ensures FirstFree(name, existing, lo) == Candidate(name, i)
    decreases i - lo
  {
    if lo < i {
      assert Str(Candidate(name, lo)) in existing;
      FirstFreeAt(name, existing, lo + 1, i);
    }
  }

  // ---------------------------------------------------------------------------------
  // Adding a subcomponent

  /** `add_subcomponent(dcls, parent_widget, field_name)` on the parent's data, where
      `blank` is `dcls.as_dict()`: the new item's name, parent id and parent type are
      filled in, then it is appended to a list field or replaces any other field.
      The result is the new parent and the new item. */
  function AddSubcomponentSpec(parent: Value, blank: Value, typeName: string, field: string, fixed: bool): Result<(Value, Value)>
  {
    var container :- GetItem(parent, field);
    var name :- Naming("New " + typeName, container, fixed);
    var d1 :- SetItem(blank, "Name", Str(name));
    var pid :- GetItem(parent, "Id");
    var d2 :- SetItem(d1, "ParentComponentId", pid);
    var ptype :- GetItem(parent, "ComponentType");
    var d :- SetItem(d2, "ParentComponentType", ptype);
    if !HasKey(parent.entries, field) then Err(Exception("Field name " + field + " does not exist"))
    else
      var slot := if container.List? then List(container.items + [d]) else d;
      Ok((Dict(Put(parent.entries, field, slot)), d))
  }

  /** The field is read before its presence is checked, so a missing field raises
      `KeyError` and the explicit check never fires. */
  lemma AddMissingField(parent: Value, blank: Value, typeName: string, field: string, fixed: bool)
    requires parent.Dict? && !HasKey(parent.entries, field)
    ensures AddSubcomponentSpec(parent, blank, typeName, field, fixed) == Err(KeyError(field))
  {
  }

  /** Every entry the new item gets from its parent, and where it goes. */
  lemma AddEffect(parent: Value, blank: Value, typeName: string, field: string, fixed: bool)
    requires AddSubcomponentSpec(parent, blank, typeName, field, fixed).Ok?
    ensures var (p2, d) := AddSubcomponentSpec(parent, blank, typeName, field, fixed).value;
      parent.Dict? && p2.Dict? && d.Dict? &&
      Lookup(d.entries, "ParentComponentId") == Lookup(parent.entries, "Id") &&
      Lookup(d.entries, "ParentComponentType") == Lookup(parent.entries, "ComponentType")
    ensures var (p2, d) := AddSubcomponentSpec(parent, blank, typeName, field, fixed).value;
      var container := Lookup(parent.entries, field).value;
      Lookup(p2.entries, field) == Some(if container.List? then List(container.items + [d]) else d)
    ensures var (p2, d) := AddSubcomponentSpec(parent, blank, typeName, field, fixed).value;
      forall k :: k != field ==> Lookup(p2.entries, k) == Lookup(parent.entries, k)
    ensures var (p2, d) := AddSubcomponentSpec(parent, blank, typeName, field, fixed).value;
      var container := Lookup(parent.entries, field).value;
      exists n :: Lookup(d.entries, "Name") == Some(Str(n)) && Naming("New " + typeName, container, fixed) == Ok(n)
  {
    var container := GetItem(parent, field).value;
    var name := Naming("New " + typeName, container, fixed).value;
    var d1 := SetItem(blank, "Name", Str(name)).value;
    var pid := GetItem(parent, "Id").value;
    var d2 := SetItem(d1, "ParentComponentId", pid).value;
    var ptype := GetItem(parent, "ComponentType").value;
    var slot := if container.List? then List(container.items + [SetItem(d2, "ParentComponentType", ptype).value]) else SetItem(d2, "ParentComponentType", ptype).value;
    LookupPutOther(d1.entries, "ParentComponentId", pid, "Name");
    LookupPutOther(d2.entries, "ParentComponentType", ptype, "Name");
    LookupPutOther(d2.entries, "ParentComponentType", ptype, "ParentComponentId");
    LookupPutSame(parent.entries, field, slot);
    forall k | k != field
      ensures Lookup(Put(parent.entries, field, slot), k) == Lookup(parent.entries, k)
    {
      LookupPutOther(parent.entries, field, slot, k);
    }
  }

  /** The new item's name is not the name of any item already in the field. */
  lemma AddNameUnique(parent: Value, blank: Value, typeName: string, field: string, fixed: bool, j: nat)
    requires AddSubcomponentSpec(parent, blank, typeName, field, fixed).Ok?
    requires j < |NamedObjects(Lookup(parent.entries, field).value, fixed)|
    ensures var d := AddSubcomponentSpec(parent, blank, typeName, field, fixed).value.1;
      GetItem(NamedObjects(Lookup(parent.entries, field).value, fixed)[j], "Name") != GetItem(d, "Name")
  {
    AddEffect(parent, blank, typeName, field, fixed);
    var objects := NamedObjects(Lookup(parent.entries, field).value, fixed);
    var ns := ExistingNames(objects).value;
    assert Str(UniqueName("New " + typeName, ns)) != ns[j];
  }

  /** As written, adding to an empty placeholder field (a blank system's or
      scenario's `Disturbance`) raises `KeyError('Name')` and adds nothing. */
  lemma AddToPlaceholderFails(parent: Value, blank: Value, typeName: string, field: string)
    requires parent.Dict? && Lookup(parent.entries, field) == Some(Dict([]))
    ensures AddSubcomponentSpec(parent, blank, typeName, field, false) == Err(KeyError("Name"))
  {
    PlaceholderNamingFails("New " + typeName);
  }

  /** Corrected naming: a blank scenario's empty `Disturbance` placeholder takes a new
      disturbance, named `"New Disturbance"`, in place of the placeholder. */
  lemma AddToPlaceholder(parent: Value, blank: Value, typeName: string, field: string)
    requires parent.Dict? && blank.Dict? && Lookup(parent.entries, field) == Some(Dict([]))
    requires HasKey(parent.entries, "Id") && HasKey(parent.entries, "ComponentType")
    ensures AddSubcomponentSpec(parent, blank, typeName, field, true).Ok?
    ensures var (p2, d) := AddSubcomponentSpec(parent, blank, typeName, field, true).value;
      Lookup(d.entries, "Name") == Some(Str("New " + typeName)) && Lookup(p2.entries, field) == Some(d)
  {
    PlaceholderNaming("New " + typeName);
    AddEffect(parent, blank, typeName, field, true);
  }

  // ---------------------------------------------------------------------------------
  // Duplicating a component with its subcomponents

  /** A call the editor makes into the component store. */
  datatype StoreCall =
    | CopyParams(from: Value, to: Value)
    | CopyFiles(from: Value, to: Value)
    | RemoveFromStore(obj: Value)

  /** Every side-file copy in `calls` is taken from `src`. */
  predicate FilesFrom(calls: seq<StoreCall>, src: Value)
  {
    forall j :: 0 <= j < |calls| && calls[j].CopyFiles? ==> calls[j].from == src
  }

  /** `modified[i]` on the copy's field; a string item fails at the assignment that
      follows, with the same exception class. */
  function ItemAt(v: Value, i: nat): (r: Result<Value>)
    ensures r.Ok? <==> v.List? && i < |v.items|
    ensures r.Ok? ==> r.value == v.items[i]
  {
    match v
    case List(items) => if i < |items| then Ok(items[i]) else Err(IndexError("list index out of range"))
    case Dict(_) => Err(KeyError(NatToString(i)))
    case _ => Err(TypeError("object is not subscriptable"))
  }

  /** The store copies made for a duplicated object: its parameter file when the store
      has one for `guard`, then its side files when the store has those for `guard`. */
  function CopyCalls(paramsFrom: Value, filesFrom: Value, guard: Value, to: Value,
                     hasParams: Value -> bool, hasFiles: Value -> bool): seq<StoreCall>
  {
    (if hasParams(guard) then [CopyParams(paramsFrom, to)] else []) +
    (if hasFiles(guard) then [CopyFiles(filesFrom, to)] else [])
  }

  /** `duplicate_item(original, new)`: `item` is `new`, the copy of `original` inside the
      duplicated component `md`; `id` is the fresh `uuid4()` it gets. */
  function DuplicateItem(originalData: Value, md: Value, original: Value, item: Value, id: string,
                         hasParams: Value -> bool, hasFiles: Value -> bool): (seq<StoreCall>, Result<Value>)
  {
    match SetItem(item, "Id", Str(id))
    case Err(e) => ([], Err(e))
    case Ok(n1) =>
      match GetItem(md, "Id")
      case Err(e) => ([], Err(e))
      case Ok(pid) =>
        var n2 := Dict(Put(n1.entries, "ParentComponentId", pid));
        (CopyCalls(original, originalData, original, n2, hasParams, hasFiles), Ok(n2))
  }

  /** A copied subcomponent: its own id `id`, and `pid` as its parent id. */
  predicate Rewired(v: Value, id: string, pid: Value)
  {
    v.Dict? && Lookup(v.entries, "Id") == Some(Str(id)) && Lookup(v.entries, "ParentComponentId") == Some(pid)
  }

  /** The part of `DuplicateItemEffect` the loop over the items needs. */
  lemma DuplicateItemRewired(originalData: Value, md: Value, original: Value, item: Value, id: string,
                             hasParams: Value -> bool, hasFiles: Value -> bool)
    ensures var r := DuplicateItem(originalData, md, original, item, id, hasParams, hasFiles);
      r.1.Ok? <==> item.Dict? && md.Dict? && HasKey(md.entries, "Id")
    ensures var r := DuplicateItem(originalData, md, original, item, id, hasParams, hasFiles);
      r.1.Ok? ==> Rewired(r.1.value, id, Lookup(md.entries, "Id").value)
  {
    DuplicateItemEffect(originalData, md, original, item, id, hasParams, hasFiles);
  }

  lemma DuplicateItemEffect(originalData: Value, md: Value, original: Value, item: Value, id: string,
                            hasParams: Value -> bool, hasFiles: Value -> bool)
    ensures var r := DuplicateItem(originalData, md, original, item, id, hasParams, hasFiles);
      r.1.Ok? <==> item.Dict? && md.Dict? && HasKey(md.entries, "Id")
    ensures var r := DuplicateItem(originalData, md, original, item, id, hasParams, hasFiles);
      r.1.Ok? ==>
        Rewired(r.1.value, id, Lookup(md.entries, "Id").value) &&
        r.0 == CopyCalls(original, originalData, original, r.1.value, hasParams, hasFiles)
    ensures var r := DuplicateItem(originalData, md, original, item, id, hasParams, hasFiles);
      r.1.Ok? ==> forall k :: k != "Id" && k != "ParentComponentId" ==> Lookup(r.1.value.entries, k) == Lookup(item.entries, k)
    ensures var r := DuplicateItem(originalData, md, original, item, id, hasParams, hasFiles);
      r.1.Err? ==> r.0 == []
  {
    var r := DuplicateItem(originalData, md, original, item, id, hasParams, hasFiles);
    if r.1.Ok? {
      var n1 := SetItem(item, "Id", Str(id)).value;
      var pid := GetItem(md, "Id").value;
      LookupPutOther(n1.entries, "ParentComponentId", pid, "Id");
      LookupPutSame(n1.entries, "ParentComponentId", pid);
      forall k | k != "Id" && k != "ParentComponentId"
        ensures Lookup(r.1.value.entries, k) == Lookup(item.entries, k)
      {
        LookupPutOther(n1.entries, "ParentComponentId", pid, k);
        LookupPutOther(item.entries, "Id", Str(id), k);
      }
    }
  }

  /** The list case of `duplicate_subcomponent`: items `i..` of the original field `subc`
      are duplicated into `mods`, the copy's list; item `i` draws the fresh id
      `ids(base + i)`. The count returned is the number of ids drawn so far, plus `base`. */
  function ItemsLoop(originalData: Value, md: Value, subc: seq<Value>, i: nat, mods: Value, base: nat,
                     calls: seq<StoreCall>, ids: nat -> string,
                     hasParams: Value -> bool, hasFiles: Value -> bool): (seq<StoreCall>, nat, Result<Value>)
    requires i <= |subc|
    decreases |subc| - i
  {
    if i == |subc| then (calls, base + i, Ok(mods))
    else match ItemAt(mods, i)
      case Err(e) => (calls, base + i, Err(e))
      case Ok(item) =>
        var (c, r) := DuplicateItem(originalData, md, subc[i], item, ids(base + i), hasParams, hasFiles);
        if r.Err? then (calls + c, base + i + 1, Err(r.error))
        else ItemsLoop(originalData, md, subc, i + 1, List(mods.items[i := r.value]), base, calls + c, ids, hasParams, hasFiles)
  }

  lemma FilesFromAppend(a: seq<StoreCall>, b: seq<StoreCall>, src: Value)
    requires FilesFrom(a, src) && FilesFrom(b, src)
    ensures FilesFrom(a + b, src)
  {
    forall j | 0 <= j < |a + b| && (a + b)[j].CopyFiles?
      ensures (a + b)[j].from == src
    {
      if j >= |a| {
        assert (a + b)[j] == b[j - |a|];
      }
    }
  }

  /** On success the copy's list keeps its length, and items before `i` and past the
      original's length are kept. */
  lemma {:induction false} ItemsLoopShape(originalData: Value, md: Value, subc: seq<Value>, i: nat, mods: Value, base: nat,
                                          calls: seq<StoreCall>, ids: nat -> string,
                                          hasParams: Value -> bool, hasFiles: Value -> bool)
    requires i <= |subc|
    ensures var r := ItemsLoop(originalData, md, subc, i, mods, base, calls, ids, hasParams, hasFiles);
      r.2.Ok? && i < |subc| ==>
        mods.List? && r.2.value.List? && |r.2.value.items| == |mods.items| &&
        |subc| <= |mods.items| && md.Dict? && HasKey(md.entries, "Id") && r.1 == base + |subc|
    ensures var r := ItemsLoop(originalData, md, subc, i, mods, base, calls, ids, hasParams, hasFiles);
      r.2.Ok? && i < |subc| ==> forall j :: 0 <= j < |mods.items| && (j < i || |subc| <= j) ==> r.2.value.items[j] == mods.items[j]
    decreases |subc| - i
  {
    if i < |subc| && ItemAt(mods, i).Ok? {
      var item := ItemAt(mods, i).value;
      var (c, r) := DuplicateItem(originalData, md, subc[i], item, ids(base + i), hasParams, hasFiles);
      DuplicateItemRewired(originalData, md, subc[i], item, ids(base + i), hasParams, hasFiles);
      if r.Ok? {
        ItemsLoopShape(originalData, md, subc, i + 1, List(mods.items[i := r.value]), base, calls + c, ids, hasParams, hasFiles);
      }
    }
  }

  /** Every item from position `i` on gets its fresh id `ids(base + j)` and the copy's
      id as its parent. */
  lemma {:induction false} ItemsLoopIds(originalData: Value, md: Value, subc: seq<Value>, i: nat, mods: Value, base: nat,
                                        calls: seq<StoreCall>, ids: nat -> string,
                                        hasParams: Value -> bool, hasFiles: Value -> bool)
    requires i <= |subc|
    ensures var r := ItemsLoop(originalData, md, subc, i, mods, base, calls, ids, hasParams, hasFiles);
      r.2.Ok? && i < |subc| ==>
        md.Dict? && HasKey(md.entries, "Id") && r.2.value.List? && |subc| <= |r.2.value.items| &&
        forall j :: i <= j < |subc| ==> Rewired(r.2.value.items[j], ids(base + j), Lookup(md.entries, "Id").value)
    decreases |subc| - i
  {
    if i < |subc| && ItemAt(mods, i).Ok? {
      var item := ItemAt(mods, i).value;
      var (c, r) := DuplicateItem(originalData, md, subc[i], item, ids(base + i), hasParams, hasFiles);
      DuplicateItemRewired(originalData, md, subc[i], item, ids(base + i), hasParams, hasFiles);
      if r.Ok? {
        var mods' := List(mods.items[i := r.value]);
        ItemsLoopIds(originalData, md, subc, i + 1, mods', base, calls + c, ids, hasParams, hasFiles);
        if i + 1 < |subc| {
          ItemsLoopShape(originalData, md, subc, i + 1, mods', base, calls + c, ids, hasParams, hasFiles);
        }
        ItemsLoopNext(originalData, md, subc, i, mods, base, calls, ids, hasParams, hasFiles, c, r.value);
        ItemsLoopIdsStep(originalData, md, subc, i, mods', base, calls + c, ids, hasParams, hasFiles, r.value);
      }
    }
  }

  /** The loop after a successful copy of item `i` goes on with that copy in place. */
  /** The loop ends after the last item. */
  lemma ItemsLoopEnd(originalData: Value, md: Value, subc: seq<Value>, mods: Value, base: nat,
                     calls: seq<StoreCall>, ids: nat -> string, hasParams: Value -> bool, hasFiles: Value -> bool)
    ensures ItemsLoop(originalData, md, subc, |subc|, mods, base, calls, ids, hasParams, hasFiles) == (calls, base + |subc|, Ok(mods))
  {
  }

  lemma ItemsLoopNext(originalData: Value, md: Value, subc: seq<Value>, i: nat, mods: Value, base: nat,
                      calls: seq<StoreCall>, ids: nat -> string,
                      hasParams: Value -> bool, hasFiles: Value -> bool, c: seq<StoreCall>, item': Value)
    requires i < |subc| && ItemAt(mods, i).Ok?
    requires DuplicateItem(originalData, md, subc[i], ItemAt(mods, i).value, ids(base + i), hasParams, hasFiles) == (c, Ok(item'))
    ensures mods.List? && i < |mods.items|
    ensures ItemsLoop(originalData, md, subc, i, mods, base, calls, ids, hasParams, hasFiles) ==
      ItemsLoop(originalData, md, subc, i + 1, List(mods.items[i := item']), base, calls + c, ids, hasParams, hasFiles)
  {
  }

  /** `ItemsLoopIds` at `i` from what holds at `i + 1`. */
  lemma ItemsLoopIdsStep(originalData: Value, md: Value, subc: seq<Value>, i: nat, mods': Value, base: nat,
                         calls: seq<StoreCall>, ids: nat -> string,
                         hasParams: Value -> bool, hasFiles: Value -> bool, item': Value)
    requires i < |subc| && md.Dict? && HasKey(md.entries, "Id")
    requires mods'.List? && i < |mods'.items| && mods'.items[i] == item'
    requires Rewired(item', ids(base + i), Lookup(md.entries, "Id").value)
    requires var r := ItemsLoop(originalData, md, subc, i + 1, mods', base, calls, ids, hasParams, hasFiles);
      r.2.Ok? && i + 1 < |subc| ==>
        r.2.value.List? && |subc| <= |r.2.value.items| &&
        forall j :: i + 1 <= j < |subc| ==> Rewired(r.2.value.items[j], ids(base + j), Lookup(md.entries, "Id").value)
    requires var r := ItemsLoop(originalData, md, subc, i + 1, mods', base, calls, ids, hasParams, hasFiles);
      r.2.Ok? && i + 1 < |subc| ==> r.2.value.items[i] == mods'.items[i]
    ensures var r := ItemsLoop(originalData, md, subc, i + 1, mods', base, calls, ids, hasParams, hasFiles);
      r.2.Ok? ==>
        r.2.value.List? && |subc| <= |r.2.value.items| &&
        forall j :: i <= j < |subc| ==> Rewired(r.2.value.items[j], ids(base + j), Lookup(md.entries, "Id").value)
  {
    var rest := ItemsLoop(originalData, md, subc, i + 1, mods', base, calls, ids, hasParams, hasFiles);
    if rest.2.Ok? {
      RewiredFrom(rest.2.value, mods', item', subc, i, base, ids, Lookup(md.entries, "Id").value);
    }
  }

  /** One step of `ItemsLoopIds`: the item at `i` is the rewired copy, and the later
      ones are rewired already. */
  lemma RewiredFrom(out: Value, mods: Value, item: Value, subc: seq<Value>, i: nat, base: nat, ids: nat -> string, pid: Value)
    requires out.List? && mods.List? && i < |subc| <= |out.items| && i < |mods.items| && mods.items[i] == item
    requires Rewired(item, ids(base + i), pid)
    requires i + 1 == |subc| ==> out == mods
    requires i + 1 < |subc| ==>
      out.items[i] == mods.items[i] && forall j :: i + 1 <= j < |subc| ==> Rewired(out.items[j], ids(base + j), pid)
    ensures forall j :: i <= j < |subc| ==> Rewired(out.items[j], ids(base + j), pid)
  {
  }

  /** Side files are always copied from the original component. */
  lemma {:induction false} ItemsLoopFiles(originalData: Value, md: Value, subc: seq<Value>, i: nat, mods: Value, base: nat,
                                          calls: seq<StoreCall>, ids: nat -> string,
                                          hasParams: Value -> bool, hasFiles: Value -> bool)
    requires i <= |subc| && FilesFrom(calls, originalData)
    ensures FilesFrom(ItemsLoop(originalData, md, subc, i, mods, base, calls, ids, hasParams, hasFiles).0, originalData)
    decreases |subc| - i
  {
    if i < |subc| && ItemAt(mods, i).Ok? {
      var item := ItemAt(mods, i).value;
      var (c, r) := DuplicateItem(originalData, md, subc[i], item, ids(base + i), hasParams, hasFiles);
      DuplicateItemEffect(originalData, md, subc[i], item, ids(base + i), hasParams, hasFiles);
      FilesFromAppend(calls, c, originalData);
      if r.Ok? {
        ItemsLoopFiles(originalData, md, subc, i + 1, List(mods.items[i := r.value]), base, calls + c, ids, hasParams, hasFiles);
      }
    }
  }

  /** `duplicate_subcomponent(original_data, _, field_name, modified_data)` with the
      copy `md` given, as every caller does: an empty field is left alone, a list field
      has each item duplicated, any other field is duplicated as one item. */
  function DuplicateSubSpec(originalData: Value, field: string, md: Value, ids: nat -> string, k: nat,
                            hasParams: Value -> bool, hasFiles: Value -> bool): (seq<StoreCall>, nat, Result<Value>)
  {
    match GetItem(originalData, field)
    case Err(e) => ([], k, Err(e))
    case Ok(subc) =>
      if !Truthy(subc) then ([], k, Ok(md))
      else match GetItem(md, field)
        case Err(e) => ([], k, Err(e))
        case Ok(modified) =>
          if subc.List? then
            var (calls, k', r) := ItemsLoop(originalData, md, subc.items, 0, modified, k, [], ids, hasParams, hasFiles);
            (calls, k', if r.Err? then Err(r.error) else Ok(Dict(Put(md.entries, field, r.value))))
          else
            var (calls, r) := DuplicateItem(originalData, md, subc, modified, ids(k), hasParams, hasFiles);
            (calls, k + 1, if r.Err? then Err(r.error) else Ok(Dict(Put(md.entries, field, r.value))))
  }

  /** An item of a copied subcomponent field: some id of its own, and `pid` as parent. */
  predicate Linked(v: Value, pid: Value)
  {
    v.Dict? && Lookup(v.entries, "ParentComponentId") == Some(pid) &&
    Lookup(v.entries, "Id").Some? && Lookup(v.entries, "Id").value.Str?
  }

  /** Field `f` of the copy `d` is duplicated: where the original holds a non-empty list,
      each of its positions holds a linked item; where it holds another non-empty value,
      the field is a linked item. */
  predicate FieldDone(originalData: Value, d: Value, f: string, pid: Value)
  {
    match GetItem(originalData, f)
    case Err(_) => false
    case Ok(subc) =>
      Truthy(subc) ==>
        d.Dict? && HasKey(d.entries, f) &&
        var v := Lookup(d.entries, f).value;
        if subc.List? then v.List? && |subc.items| <= |v.items| && forall j :: 0 <= j < |subc.items| ==> Linked(v.items[j], pid)
        else Linked(v, pid)
  }

  /** An empty field is left as it is. */
  lemma DuplicateSubEmpty(originalData: Value, field: string, md: Value, ids: nat -> string, k: nat,
                          hasParams: Value -> bool, hasFiles: Value -> bool, subc: Value)
    requires GetItem(originalData, field) == Ok(subc) && !Truthy(subc)
    ensures DuplicateSubSpec(originalData, field, md, ids, k, hasParams, hasFiles) == ([], k, Ok(md))
  {
  }

  /** A list field: item `j` of the copy gets id `ids(k + j)` and the copy's id as parent;
      nothing else in the copy changes, and side files are copied from the original
      component. */
  lemma DuplicateSubList(originalData: Value, field: string, md: Value, ids: nat -> string, k: nat,
                         hasParams: Value -> bool, hasFiles: Value -> bool, subc: Value)
    requires GetItem(originalData, field) == Ok(subc) && Truthy(subc) && subc.List?
    ensures var r := DuplicateSubSpec(originalData, field, md, ids, k, hasParams, hasFiles);
      r.2.Ok? ==>
        md.Dict? && HasKey(md.entries, "Id") && r.2.value.Dict? && r.1 == k + |subc.items| &&
        exists v :: Lookup(r.2.value.entries, field) == Some(v) && v.List? && |subc.items| <= |v.items| &&
          forall j :: 0 <= j < |subc.items| ==> Rewired(v.items[j], ids(k + j), Lookup(md.entries, "Id").value)
    ensures var r := DuplicateSubSpec(originalData, field, md, ids, k, hasParams, hasFiles);
      r.2.Ok? ==> forall key :: key != field ==> Lookup(r.2.value.entries, key) == Lookup(md.entries, key)
    ensures FilesFrom(DuplicateSubSpec(originalData, field, md, ids, k, hasParams, hasFiles).0, originalData)
  {
    var r := DuplicateSubSpec(originalData, field, md, ids, k, hasParams, hasFiles);
    if GetItem(md, field).Ok? {
      var modified := GetItem(md, field).value;
      ItemsLoopIds(originalData, md, subc.items, 0, modified, k, [], ids, hasParams, hasFiles);
      ItemsLoopShape(originalData, md, subc.items, 0, modified, k, [], ids, hasParams, hasFiles);
      ItemsLoopFiles(originalData, md, subc.items, 0, modified, k, [], ids, hasParams, hasFiles);
      if r.2.Ok? {
        var slot := ItemsLoop(originalData, md, subc.items, 0, modified, k, [], ids, hasParams, hasFiles).2.value;
        LookupPutSame(md.entries, field, slot);
        forall key | key != field
          ensures Lookup(r.2.value.entries, key) == Lookup(md.entries, key)
        {
          LookupPutOther(md.entries, field, slot, key);
        }
      }
    }
  }

  /** Any other non-empty field is one item, getting id `ids(k)`. */
  lemma DuplicateSubScalar(originalData: Value, field: string, md: Value, ids: nat -> string, k: nat,
                           hasParams: Value -> bool, hasFiles: Value -> bool, subc: Value)
    requires GetItem(originalData, field) == Ok(subc) && Truthy(subc) && !subc.List?
    ensures var r := DuplicateSubSpec(originalData, field, md, ids, k, hasParams, hasFiles);
      r.2.Ok? ==>
        md.Dict? && HasKey(md.entries, "Id") && r.2.value.Dict? && r.1 == k + 1 &&
        exists v :: Lookup(r.2.value.entries, field) == Some(v) && Rewired(v, ids(k), Lookup(md.entries, "Id").value)
    ensures var r := DuplicateSubSpec(originalData, field, md, ids, k, hasParams, hasFiles);
      r.2.Ok? ==> forall key :: key != field ==> Lookup(r.2.value.entries, key) == Lookup(md.entries, key)
    ensures FilesFrom(DuplicateSubSpec(originalData, field, md, ids, k, hasParams, hasFiles).0, originalData)
  {
    var r := DuplicateSubSpec(originalData, field, md, ids, k, hasParams, hasFiles);
    if GetItem(md, field).Ok? {
      var modified := GetItem(md, field).value;
      DuplicateItemEffect(originalData, md, subc, modified, ids(k), hasParams, hasFiles);
      if r.2.Ok? {
        var slot := DuplicateItem(originalData, md, subc, modified, ids(k), hasParams, hasFiles).1.value;
        LookupPutSame(md.entries, field, slot);
        forall key | key != field
          ensures Lookup(r.2.value.entries, key) == Lookup(md.entries, key)
        {
          LookupPutOther(md.entries, field, slot, key);
        }
      }
    }
  }

  /** The subcomponent field names `duplicate_component` loops over are plain: strings,
      none of them `Id` or `Name`, none repeated. */
  predicate PlainNames(names: seq<Value>)
  {
    (forall i :: 0 <= i < |names| ==> names[i].Str? && names[i].s != "Id" && names[i].s != "Name") &&
    (forall i, j :: 0 <= i < j < |names| ==> names[i] != names[j])
  }

  /** `key` is none of the names from position `i` on. */
  predicate NotNamed(key: string, names: seq<Value>, i: nat)
  {
    forall j :: i <= j < |names| ==> names[j] != Str(key)
  }

  /** `original_data[n]` with a name that is not a string: an unhashable one raises
      `TypeError`, any other is a missing key. */
  function BadName(n: Value): Error
  {
    if n.List? || n.Dict? || n.NdArray? then TypeError("unhashable type")
    else KeyError(match PyStr(n) case Some(t) => t case None => "")
  }

  /** `for n in d["Subcomponents"]: d = self.duplicate_subcomponent(original_data, widget, n, d)`,
      from position `i` on. */
  function SubsLoop(originalData: Value, names: seq<Value>, i: nat, d: Value, k: nat, calls: seq<StoreCall>,
                    ids: nat -> string, hasParams: Value -> bool, hasFiles: Value -> bool): (seq<StoreCall>, nat, Result<Value>)
    requires i <= |names|
    decreases |names| - i
  {
    if i == |names| then (calls, k, Ok(d))
    else if !names[i].Str? then (calls, k, Err(BadName(names[i])))
    else
      var (c, k', r) := DuplicateSubSpec(originalData, names[i].s, d, ids, k, hasParams, hasFiles);
      if r.Err? then (calls + c, k', Err(r.error))
      else SubsLoop(originalData, names, i + 1, r.value, k', calls + c, ids, hasParams, hasFiles)
  }

  /** `FieldDone` only looks at field `f` of the copy. */
  lemma FieldDoneFrame(originalData: Value, d: Value, d': Value, f: string, pid: Value)
    requires FieldDone(originalData, d, f, pid) && d.Dict? && d'.Dict? && Lookup(d'.entries, f) == Lookup(d.entries, f)
    ensures FieldDone(originalData, d', f, pid)
  {
  }

  lemma RewiredLinked(v: Value, id: string, pid: Value)
    requires Rewired(v, id, pid)
    ensures Linked(v, pid)
  {
  }

  /** Duplicating one field: the field is done, and no other key of the copy changes. */
  lemma DuplicateSubDone(originalData: Value, field: string, md: Value, ids: nat -> string, k: nat,
                         hasParams: Value -> bool, hasFiles: Value -> bool)
    requires md.Dict?
    ensures var r := DuplicateSubSpec(originalData, field, md, ids, k, hasParams, hasFiles);
      r.2.Ok? ==>
        HasKey(md.entries, "Id") ==> r.2.value.Dict? && FieldDone(originalData, r.2.value, field, Lookup(md.entries, "Id").value)
    ensures var r := DuplicateSubSpec(originalData, field, md, ids, k, hasParams, hasFiles);
      r.2.Ok? ==> r.2.value.Dict? && forall key :: key != field ==> Lookup(r.2.value.entries, key) == Lookup(md.entries, key)
    ensures FilesFrom(DuplicateSubSpec(originalData, field, md, ids, k, hasParams, hasFiles).0, originalData)
  {
    var r := DuplicateSubSpec(originalData, field, md, ids, k, hasParams, hasFiles);
    if GetItem(originalData, field).Ok? {
      var subc := GetItem(originalData, field).value;
      if !Truthy(subc) {
        DuplicateSubEmpty(originalData, field, md, ids, k, hasParams, hasFiles, subc);
      } else if subc.List? {
        DuplicateSubList(originalData, field, md, ids, k, hasParams, hasFiles, subc);
        if r.2.Ok? {
          var v :| Lookup(r.2.value.entries, field) == Some(v) && v.List? && |subc.items| <= |v.items| &&
            forall j :: 0 <= j < |subc.items| ==> Rewired(v.items[j], ids(k + j), Lookup(md.entries, "Id").value);
          forall j | 0 <= j < |subc.items|
            ensures Linked(v.items[j], Lookup(md.entries, "Id").value)
          {
            RewiredLinked(v.items[j], ids(k + j), Lookup(md.entries, "Id").value);
          }
        }
      } else {
        DuplicateSubScalar(originalData, field, md, ids, k, hasParams, hasFiles, subc);
      }
    }
  }

  /** The loop over the subcomponent names: the copy keeps its id and every key not
      named, and each named field is done, linked to the copy's id. */
  lemma {:induction false} SubsLoopEffect(originalData: Value, names: seq<Value>, i: nat, d: Value, k: nat, calls: seq<StoreCall>,
                                          ids: nat -> string, hasParams: Value -> bool, hasFiles: Value -> bool)
    requires i <= |names| && PlainNames(names) && d.Dict? && HasKey(d.entries, "Id")
    ensures var r := SubsLoop(originalData, names, i, d, k, calls, ids, hasParams, hasFiles);
      r.2.Ok? ==> r.2.value.Dict? && forall key :: NotNamed(key, names, i) ==> Lookup(r.2.value.entries, key) == Lookup(d.entries, key)
    ensures var r := SubsLoop(originalData, names, i, d, k, calls, ids, hasParams, hasFiles);
      r.2.Ok? ==> forall j :: i <= j < |names| ==> FieldDone(originalData, r.2.value, names[j].s, Lookup(d.entries, "Id").value)
    decreases |names| - i
  {
    if i < |names| {
      var f := names[i].s;
      var (c, k', r1) := DuplicateSubSpec(originalData, f, d, ids, k, hasParams, hasFiles);
      DuplicateSubDone(originalData, f, d, ids, k, hasParams, hasFiles);
      if r1.Ok? {
        var d1 := r1.value;
        var pid := Lookup(d.entries, "Id").value;
        assert Lookup(d1.entries, "Id") == Lookup(d.entries, "Id");
        SubsLoopEffect(originalData, names, i + 1, d1, k', calls + c, ids, hasParams, hasFiles);
        var r := SubsLoop(originalData, names, i + 1, d1, k', calls + c, ids, hasParams, hasFiles);
        assert SubsLoop(originalData, names, i, d, k, calls, ids, hasParams, hasFiles) == r;
        if r.2.Ok? {
          assert NotNamed(f, names, i + 1);
          FieldDoneFrame(originalData, d1, r.2.value, f, pid);
          forall key | NotNamed(key, names, i)
            ensures Lookup(r.2.value.entries, key) == Lookup(d.entries, key)
          {
            assert key != f;
          }
          forall j | i <= j < |names|
            ensures FieldDone(originalData, r.2.value, names[j].s, pid)
          {
          }
        }
      }
    }
  }

  lemma {:induction false} SubsLoopFiles(originalData: Value, names: seq<Value>, i: nat, d: Value, k: nat, calls: seq<StoreCall>,
                      ids: nat -> string, hasParams: Value -> bool, hasFiles: Value -> bool)
    requires i <= |names| && FilesFrom(calls, originalData)
    ensures FilesFrom(SubsLoop(originalData, names, i, d, k, calls, ids, hasParams, hasFiles).0, originalData)
    decreases |names| - i
  {
    if i < |names| && names[i].Str? {
      var (c, k', r1) := DuplicateSubSpec(originalData, names[i].s, d, ids, k, hasParams, hasFiles);
      DuplicateSubFiles(originalData, names[i].s, d, ids, k, hasParams, hasFiles);
      FilesFromAppend(calls, c, originalData);
      if r1.Ok? {
        SubsLoopFiles(originalData, names, i + 1, r1.value, k', calls + c, ids, hasParams, hasFiles);
      }
    }
  }

  lemma DuplicateSubFiles(originalData: Value, field: string, md: Value, ids: nat -> string, k: nat,
                          hasParams: Value -> bool, hasFiles: Value -> bool)
    ensures FilesFrom(DuplicateSubSpec(originalData, field, md, ids, k, hasParams, hasFiles).0, originalData)
  {
    if GetItem(originalData, field).Ok? {
      var subc := GetItem(originalData, field).value;
      if Truthy(subc) && subc.List? {
        DuplicateSubList(originalData, field, md, ids, k, hasParams, hasFiles, subc);
      } else if Truthy(subc) {
        DuplicateSubScalar(originalData, field, md, ids, k, hasParams, hasFiles, subc);
      }
    }
  }

  /** The first lines of `duplicate_component`: the deep copy of `container[index]` gets
      the fresh id `id` and a name `"<Name> (copy)"` made unique in the container. */
  function DuplicateHead(container: seq<Value>, index: nat, id: string, render: Value -> string): Result<Value>
    requires index < |container|
  {
    var d1 :- SetItem(container[index], "Id", Str(id));
    var name :- GetItem(d1, "Name");
    var unique :- MakeNameUniqueAsWritten(StrOf(name, render) + " (copy)", List(container));
    SetItem(d1, "Name", Str(unique))
  }

  /** The names of the subcomponent fields, read with a default of none. */
  function SubcomponentNames(d: Value): Result<seq<Value>>
  {
    var sv :- GetOr(d, "Subcomponents", List([]));
    Iterate(sv)
  }

  /** The names read as written, with `d["Subcomponents"]`. */
  function SubcomponentNamesAsWritten(d: Value): Result<seq<Value>>
  {
    var sv :- GetItem(d, "Subcomponents");
    Iterate(sv)
  }

  /** The names as written, or read with the corrected default. */
  function SubNames(d: Value, fixed: bool): Result<seq<Value>>
  {
    if fixed then SubcomponentNames(d) else SubcomponentNamesAsWritten(d)
  }

  /** The rest of `duplicate_component`, given the copy `d` and the names of its
      subcomponent fields: the fields are duplicated, the copy is appended, and the
      component's own parameter file and side files are copied. The result is the new
      container and the copy. */
  function DuplicateRest(container: seq<Value>, index: nat, d: Value, names: Result<seq<Value>>, ids: nat -> string, k: nat,
                         hasParams: Value -> bool, hasFiles: Value -> bool): (seq<StoreCall>, nat, Result<(seq<Value>, Value)>)
    requires index < |container|
  {
    var original := container[index];
    match names
    case Err(e) => ([], k, Err(e))
    case Ok(ns) =>
      var (calls, k', r) := SubsLoop(original, ns, 0, d, k, [], ids, hasParams, hasFiles);
      if r.Err? then (calls, k', Err(r.error))
      else (calls + CopyCalls(original, original, original, r.value, hasParams, hasFiles), k', Ok((container + [r.value], r.value)))
  }

  /** `duplicate_component`; `ids(k)` is the copy's fresh id. As written (`fixed` false)
      the subcomponent names are read with `d["Subcomponents"]`; corrected, with a
      default of none. */
  function DuplicateComponentSpec(container: seq<Value>, index: nat, ids: nat -> string, k: nat,
                                  hasParams: Value -> bool, hasFiles: Value -> bool, render: Value -> string, fixed: bool): (seq<StoreCall>, nat, Result<(seq<Value>, Value)>)
    requires index < |container|
  {
    match DuplicateHead(container, index, ids(k), render)
    case Err(e) => ([], k + 1, Err(e))
    case Ok(d) => DuplicateRest(container, index, d, SubNames(d, fixed), ids, k + 1, hasParams, hasFiles)
  }

  /** No item of the container is named `n`. */
  predicate UnusedName(container: seq<Value>, n: string)
  {
    forall j :: 0 <= j < |container| ==> GetItem(container[j], "Name") != Ok(Str(n))
  }

  /** The copy's head: it fails exactly when the original is not a dict with a name or
      some item of the container has no name; otherwise the copy has the fresh id, a
      name no item of the container has, and every other entry of the original. */
  lemma DuplicateHeadEffect(container: seq<Value>, index: nat, id: string, render: Value -> string)
    requires index < |container|
    ensures var r := DuplicateHead(container, index, id, render);
      r.Ok? <==> container[index].Dict? && HasKey(container[index].entries, "Name") && ExistingNames(container).Ok?
    ensures var r := DuplicateHead(container, index, id, render);
      r.Ok? ==> r.value.Dict? && Lookup(r.value.entries, "Id") == Some(Str(id))
    ensures var r := DuplicateHead(container, index, id, render);
      r.Ok? ==> forall key :: key != "Id" && key != "Name" ==> Lookup(r.value.entries, key) == Lookup(container[index].entries, key)
    ensures var r := DuplicateHead(container, index, id, render);
      r.Ok? ==> exists n :: Lookup(r.value.entries, "Name") == Some(Str(n)) && UnusedName(container, n)
  {
    var r := DuplicateHead(container, index, id, render);
    assert ObjectsAsWritten(List(container)) == container;
    if container[index].Dict? {
      var orig := container[index];
      var d1 := SetItem(orig, "Id", Str(id)).value;
      LookupPutOther(orig.entries, "Id", Str(id), "Name");
      if r.Ok? {
        var n := MakeNameUniqueAsWritten(StrOf(GetItem(d1, "Name").value, render) + " (copy)", List(container)).value;
        LookupPutSame(d1.entries, "Name", Str(n));
        LookupPutOther(d1.entries, "Name", Str(n), "Id");
        forall key | key != "Id" && key != "Name"
          ensures Lookup(r.value.entries, key) == Lookup(orig.entries, key)
        {
          LookupPutOther(d1.entries, "Name", Str(n), key);
          LookupPutOther(orig.entries, "Id", Str(id), key);
        }
        var ns := ExistingNames(container).value;
        forall j | 0 <= j < |container|
          ensures GetItem(container[j], "Name") != Ok(Str(n))
        {
          assert Str(n) != ns[j];
        }
      }
    }
  }

  /** The names a copy loops over are those of the original: the copy differs only in
      its id and name. */
  lemma SubcomponentNamesOfCopy(orig: Value, d: Value)
    requires orig.Dict? && d.Dict?
    requires forall key :: key != "Id" && key != "Name" ==> Lookup(d.entries, key) == Lookup(orig.entries, key)
    ensures SubcomponentNames(d) == SubcomponentNames(orig)
    ensures SubcomponentNamesAsWritten(d) == SubcomponentNamesAsWritten(orig)
    ensures forall fixed :: SubNames(d, fixed) == SubNames(orig, fixed)
  {
    assert Lookup(d.entries, "Subcomponents") == Lookup(orig.entries, "Subcomponents");
  }

  /** Duplicating a component appends the copy and leaves every other item, the
      original included, as it was; the copy has the fresh id `ids(k)`. */
  lemma DuplicateAppends(container: seq<Value>, index: nat, ids: nat -> string, k: nat,
                         hasParams: Value -> bool, hasFiles: Value -> bool, render: Value -> string, fixed: bool)
    requires index < |container|
    ensures var r := DuplicateComponentSpec(container, index, ids, k, hasParams, hasFiles, render, fixed);
      r.2.Ok? ==> r.2.value.0 == container + [r.2.value.1]
    ensures var r := DuplicateComponentSpec(container, index, ids, k, hasParams, hasFiles, render, fixed);
      r.2.Ok? && SubNames(container[index], fixed).Ok? && PlainNames(SubNames(container[index], fixed).value) ==>
        r.2.value.1.Dict? && Lookup(r.2.value.1.entries, "Id") == Some(Str(ids(k))) &&
        exists n :: Lookup(r.2.value.1.entries, "Name") == Some(Str(n)) && UnusedName(container, n)
  {
    var orig := container[index];
    DuplicateHeadEffect(container, index, ids(k), render);
    var h := DuplicateHead(container, index, ids(k), render);
    if h.Ok? {
      var d := h.value;
      SubcomponentNamesOfCopy(orig, d);
      var names := SubNames(d, fixed);
      if names.Ok? && PlainNames(names.value) {
        SubsLoopEffect(orig, names.value, 0, d, k + 1, [], ids, hasParams, hasFiles);
        assert NotNamed("Name", names.value, 0);
        assert NotNamed("Id", names.value, 0);
      }
    }
  }

  /** When the subcomponent names are plain, every named field of the copy is
      duplicated and linked to the copy's id. */
  lemma DuplicateLinks(container: seq<Value>, index: nat, ids: nat -> string, k: nat,
                       hasParams: Value -> bool, hasFiles: Value -> bool, render: Value -> string, fixed: bool)
    requires index < |container|
    requires SubNames(container[index], fixed).Ok? && PlainNames(SubNames(container[index], fixed).value)
    ensures var r := DuplicateComponentSpec(container, index, ids, k, hasParams, hasFiles, render, fixed);
      var names := SubNames(container[index], fixed).value;
      r.2.Ok? ==> forall j :: 0 <= j < |names| ==> FieldDone(container[index], r.2.value.1, names[j].s, Str(ids(k)))
  {
    var orig := container[index];
    DuplicateHeadEffect(container, index, ids(k), render);
    var h := DuplicateHead(container, index, ids(k), render);
    if h.Ok? {
      var d := h.value;
      SubcomponentNamesOfCopy(orig, d);
      SubsLoopEffect(orig, SubNames(d, fixed).value, 0, d, k + 1, [], ids, hasParams, hasFiles);
    }
  }

  /** Side files are only ever copied from the original component. */
  lemma DuplicateFilesFromOriginal(container: seq<Value>, index: nat, ids: nat -> string, k: nat,
                                   hasParams: Value -> bool, hasFiles: Value -> bool, render: Value -> string, fixed: bool)
    requires index < |container|
    ensures FilesFrom(DuplicateComponentSpec(container, index, ids, k, hasParams, hasFiles, render, fixed).0, container[index])
  {
    var orig := container[index];
    var h := DuplicateHead(container, index, ids(k), render);
    if h.Ok? {
      var d := h.value;
      var names := SubNames(d, fixed);
      if names.Ok? {
        SubsLoopFiles(orig, names.value, 0, d, k + 1, [], ids, hasParams, hasFiles);
        var loop := SubsLoop(orig, names.value, 0, d, k + 1, [], ids, hasParams, hasFiles);
        if loop.2.Ok? {
          FilesFromAppend(loop.0, CopyCalls(orig, orig, orig, loop.2.value, hasParams, hasFiles), orig);
        }
      }
    }
  }

  /** As written, a component without a `Subcomponents` field cannot be duplicated:
      `KeyError` is raised before anything is appended or copied. */
  lemma DuplicateWithoutSubcomponentsFails(container: seq<Value>, index: nat, ids: nat -> string, k: nat,
                                           hasParams: Value -> bool, hasFiles: Value -> bool, render: Value -> string)
    requires index < |container| && container[index].Dict?
    requires HasKey(container[index].entries, "Name") && !HasKey(container[index].entries, "Subcomponents")
    requires ExistingNames(container).Ok?
    ensures DuplicateComponentSpec(container, index, ids, k, hasParams, hasFiles, render, false) == ([], k + 1, Err(KeyError("Subcomponents")))
  {
    DuplicateHeadEffect(container, index, ids(k), render);
    var d := DuplicateHead(container, index, ids(k), render).value;
    SubcomponentNamesOfCopy(container[index], d);
  }

  /** Corrected, such a component is duplicated with no subcomponent to copy: the copy
      is appended and only the component's own files are copied. */
  lemma DuplicateWithoutSubcomponents(container: seq<Value>, index: nat, ids: nat -> string, k: nat,
                                      hasParams: Value -> bool, hasFiles: Value -> bool, render: Value -> string)
    requires index < |container| && container[index].Dict?
    requires HasKey(container[index].entries, "Name") && !HasKey(container[index].entries, "Subcomponents")
    requires ExistingNames(container).Ok?
    ensures var r := DuplicateComponentSpec(container, index, ids, k, hasParams, hasFiles, render, true);
      r.1 == k + 1 && r.2.Ok? && r.2.value.0 == container + [r.2.value.1] &&
      r.0 == CopyCalls(container[index], container[index], container[index], r.2.value.1, hasParams, hasFiles)
  {
    DuplicateHeadEffect(container, index, ids(k), render);
    var d := DuplicateHead(container, index, ids(k), render).value;
    SubcomponentNamesOfCopy(container[index], d);
    assert SubcomponentNames(d) == Ok([]);
  }

  /** A freshly added metric has a `Name` and no `Subcomponents` field. */
  lemma FreshMetricNamed(uuid: string)
    ensures var m := AsDict(EnvModel.MetricCls, uuid);
      m.Dict? && HasKey(m.entries, "Name") && !HasKey(m.entries, "Subcomponents") && ExistingNames([m]).Ok?
  {
    EnvModel.MetricDefaults(uuid);
    EnvModel.MetricHasNoSubcomponents(uuid);
    MetricEntriesNamed(uuid);
    SingleNamed(AsDict(EnvModel.MetricCls, uuid));
  }

  /** The default metric record reads its `Name`. */
  lemma MetricEntriesNamed(uuid: string)
    ensures GetItem(Dict([("Id", Str(uuid)), ("Name", Str("")), ("Description", Str("")), ("ComponentType", Str("metric"))]), "Name") ==
      Ok(Str(""))
  {
    var e: Entries := [("Id", Str(uuid)), ("Name", Str("")), ("Description", Str("")), ("ComponentType", Str("metric"))];
    assert e[1..][0].0 == "Name";
    assert Lookup(e, "Name") == Lookup(e[1..], "Name") == Some(Str(""));
  }

  /** A single object with a `Name` has its list of names. */
  lemma SingleNamed(m: Value)
    requires GetItem(m, "Name").Ok?
    ensures ExistingNames([m]).Ok?
  {
    assert [m][1..] == [];
  }

  /** A freshly added metric, whose defaults have no `Subcomponents` field, is one such
      component. */
  lemma DuplicateMetricFails(uuid: string, ids: nat -> string, k: nat,
                             hasParams: Value -> bool, hasFiles: Value -> bool, render: Value -> string)
    ensures DuplicateComponentSpec([AsDict(EnvModel.MetricCls, uuid)], 0, ids, k, hasParams, hasFiles, render, false) ==
            ([], k + 1, Err(KeyError("Subcomponents")))
  {
    var m := AsDict(EnvModel.MetricCls, uuid);
    FreshMetricNamed(uuid);
    DuplicateWithoutSubcomponentsFails([m], 0, ids, k, hasParams, hasFiles, render);
  }

  /** Corrected, a freshly added metric is duplicated. */
  lemma DuplicateMetric(uuid: string, ids: nat -> string, k: nat,
                        hasParams: Value -> bool, hasFiles: Value -> bool, render: Value -> string)
    ensures var m := AsDict(EnvModel.MetricCls, uuid);
      var r := DuplicateComponentSpec([m], 0, ids, k, hasParams, hasFiles, render, true);
      r.2.Ok? && r.2.value.0 == [m, r.2.value.1]
  {
    var m := AsDict(EnvModel.MetricCls, uuid);
    FreshMetricNamed(uuid);
    DuplicateWithoutSubcomponents([m], 0, ids, k, hasParams, hasFiles, render);
  }

  // ---------------------------------------------------------------------------------
  // Removing a subcomponent

  /** The end of `remove_subcomponent`, once the field has been changed to `p2`: the
      removed object's `Name` is read, then the store removes it. */
  function RemoveFinish(p2: Value, obj: Value): (Value, seq<StoreCall>, Result<Option<Value>>)
  {
    match GetItem(obj, "Name")
    case Err(e) => (p2, [], Err(e))
    case Ok(_) => (p2, [RemoveFromStore(obj)], Ok(Some(obj)))
  }

  /** `remove_subcomponent(component, parent_widget, field_name, idx, ask_confirmation)`
      on the parent's data; `confirmed` is the user's answer to the dialog. The result
      is the new parent, the store calls, and the removed object (`None` when the user
      declines). */
  function RemoveSubSpec(component: Value, parent: Value, field: string, idx: int, ask: bool, confirmed: bool)
    : (Value, seq<StoreCall>, Result<Option<Value>>)
  {
    match GetItem(component, "Name")
    case Err(e) => (parent, [], Err(e))
    case Ok(_) =>
      var asked := if ask then (match GetItem(parent, field) case Err(e) => Err(e) case Ok(v) => GetItem(v, "Name")) else Ok(Null);
      if asked.Err? then (parent, [], Err(asked.error))
      else if ask && !confirmed then (parent, [], Ok(None))
      else match GetItem(parent, field)
        case Err(e) => (parent, [], Err(e))
        case Ok(obj) =>
          if obj.List? then
            if idx < 0 then (parent, [], Err(Exception("Index should be positive integer")))
            else if idx >= |obj.items| then (parent, [], Err(IndexError("list index out of range")))
            else RemoveFinish(Dict(Put(parent.entries, field, List(obj.items[..idx] + obj.items[idx + 1..]))), obj.items[idx])
          else RemoveFinish(Dict(Put(parent.entries, field, Dict([]))), obj)
  }

  /** A list field loses exactly element `idx`, which is returned and removed from the
      store; no other key of the parent changes. */
  lemma RemoveFromList(component: Value, parent: Value, field: string, idx: int, items: seq<Value>)
    requires GetItem(component, "Name").Ok? && parent.Dict? && Lookup(parent.entries, field) == Some(List(items))
    requires 0 <= idx < |items| && GetItem(items[idx], "Name").Ok?
    ensures var (p2, calls, r) := RemoveSubSpec(component, parent, field, idx, false, false);
      r == Ok(Some(items[idx])) && calls == [RemoveFromStore(items[idx])] && p2.Dict? &&
      Lookup(p2.entries, field) == Some(List(items[..idx] + items[idx + 1..])) &&
      forall k :: k != field ==> Lookup(p2.entries, k) == Lookup(parent.entries, k)
  {
    var slot := List(items[..idx] + items[idx + 1..]);
    LookupPutSame(parent.entries, field, slot);
    forall k | k != field
      ensures Lookup(Put(parent.entries, field, slot), k) == Lookup(parent.entries, k)
    {
      LookupPutOther(parent.entries, field, slot, k);
    }
  }

  /** A negative index on a list field raises before anything changes. */
  lemma RemoveNegativeIndex(component: Value, parent: Value, field: string, idx: int, items: seq<Value>)
    requires GetItem(component, "Name").Ok? && parent.Dict? && Lookup(parent.entries, field) == Some(List(items))
    requires idx < 0
    ensures RemoveSubSpec(component, parent, field, idx, false, false) == (parent, [], Err(Exception("Index should be positive integer")))
  {
  }

  /** Any other field is reset to `{}`, even when reading the removed object's name then
      raises; only a named object is removed from the store. */
  lemma RemoveScalar(component: Value, parent: Value, field: string, idx: int, obj: Value)
    requires GetItem(component, "Name").Ok? && parent.Dict? && Lookup(parent.entries, field) == Some(obj) && !obj.List?
    ensures var (p2, calls, r) := RemoveSubSpec(component, parent, field, idx, false, false);
      p2.Dict? && Lookup(p2.entries, field) == Some(Dict([])) &&
      (forall k :: k != field ==> Lookup(p2.entries, k) == Lookup(parent.entries, k)) &&
      (GetItem(obj, "Name").Ok? ==> r == Ok(Some(obj)) && calls == [RemoveFromStore(obj)]) &&
      (GetItem(obj, "Name").Err? ==> r == Err(GetItem(obj, "Name").error) && calls == [])
  {
    LookupPutSame(parent.entries, field, Dict([]));
    forall k | k != field
      ensures Lookup(Put(parent.entries, field, Dict([])), k) == Lookup(parent.entries, k)
    {
      LookupPutOther(parent.entries, field, Dict([]), k);
    }
  }

  /** Declining the confirmation changes nothing. */
  lemma RemoveDeclined(component: Value, parent: Value, field: string, idx: int)
    requires GetItem(component, "Name").Ok? && GetItem(parent, field).Ok? && GetItem(GetItem(parent, field).value, "Name").Ok?
    ensures RemoveSubSpec(component, parent, field, idx, true, false) == (parent, [], Ok(None))
  {
  }

  /** Removing the item just added to a list field, at the last index, restores the
      parent exactly and removes that item from the store. */
  lemma AddThenRemoveList(parent: Value, blank: Value, typeName: string, field: string, fixed: bool, component: Value, items: seq<Value>)
    requires AddSubcomponentSpec(parent, blank, typeName, field, fixed).Ok?
    requires Lookup(parent.entries, field) == Some(List(items)) && GetItem(component, "Name").Ok?
    ensures var (p2, d) := AddSubcomponentSpec(parent, blank, typeName, field, fixed).value;
      RemoveSubSpec(component, p2, field, |items|, false, false) == (parent, [RemoveFromStore(d)], Ok(Some(d)))
  {
    AddEffect(parent, blank, typeName, field, fixed);
    var (p2, d) := AddSubcomponentSpec(parent, blank, typeName, field, fixed).value;
    var all := items + [d];
    assert all[..|items|] + all[|items| + 1..] == items;
    PutPut(parent.entries, field, List(all), List(items));
    PutLookup(parent.entries, field);
  }

  /** Removing what was added to an empty placeholder restores the parent exactly (with the corrected naming; as written the add
      raises, see `AddToPlaceholderFails`). */
  lemma AddThenRemovePlaceholder(parent: Value, blank: Value, typeName: string, field: string, component: Value, idx: int)
    requires AddSubcomponentSpec(parent, blank, typeName, field, true).Ok?
    requires Lookup(parent.entries, field) == Some(Dict([])) && GetItem(component, "Name").Ok?
    ensures var (p2, d) := AddSubcomponentSpec(parent, blank, typeName, field, true).value;
      RemoveSubSpec(component, p2, field, idx, false, false) == (parent, [RemoveFromStore(d)], Ok(Some(d)))
  {
    AddEffect(parent, blank, typeName, field, true);
    var (p2, d) := AddSubcomponentSpec(parent, blank, typeName, field, true).value;
    PutPut(parent.entries, field, d, Dict([]));
    PutLookup(parent.entries, field);
  }

  // ---------------------------------------------------------------------------------
  // Unsaved-change flags

  /** The four component lists of an environment, each shown by its own widget class. */
  datatype Kind = Systems | Controllers | Scenarios | Metrics

  /** A widget as `make_widget_id` keys it: a component widget by its class and index,
      the environment's own widget by its class alone. */
  datatype Widget = ComponentWidget(kind: Kind, index: nat) | EnvironmentWidget

  /** `widget_changed`. */
  type Flags = map<Widget, bool>

  predicate IsDirty(changed: Flags, w: Widget)
  {
    w in changed && changed[w]
  }

  /** Some widget has unsaved changes. */
  predicate AnyDirty(changed: Flags)
  {
    exists w | w in changed :: changed[w]
  }

  /** A tree item's text with one `*` appended; `None` is no selected item. */
  function Mark(text: Option<string>): Option<string>
  {
    match text
    case None => None
    case Some(t) => Some(t + "*")
  }

  /** A tree item's text with one trailing `*` removed, if it has one. */
  function Unmark(text: Option<string>): Option<string>
  {
    match text
    case None => None
    case Some(t) => Some(if EndsWith(t, "*") then t[..|t| - 1] else t)
  }

  /** `record_widget_change(w)`; `text` is the text of the tree item that shows the
      mark (the selected item, or the root item when the selection belongs to the
      environment). The result is the new flags and the item's new text. */
  function Record(changed: Flags, w: Widget, text: Option<string>): (Flags, Option<string>)
  {
    (changed[w := true], if IsDirty(changed, w) then text else Mark(text))
  }

  /** `on_widget_save(w)`: nothing happens unless the widget has unsaved changes; the
      saving callback itself is not modelled. */
  function Save(changed: Flags, w: Widget, text: Option<string>): (Flags, Option<string>)
  {
    if !IsDirty(changed, w) then (changed, text) else (changed[w := false], Unmark(text))
  }

  /** Recording sets the widget's flag and no other, and marks the item only on the
      change from clean to dirty. */
  lemma RecordEffect(changed: Flags, w: Widget, text: Option<string>, w': Widget)
    ensures IsDirty(Record(changed, w, text).0, w') <==> w' == w || IsDirty(changed, w')
    ensures Record(changed, w, text).1 == if IsDirty(changed, w) then text else Mark(text)
  {
  }

  /** Recording twice marks the item once. */
  lemma RecordTwice(changed: Flags, w: Widget, text: Option<string>)
    ensures var (c1, l1) := Record(changed, w, text); Record(c1, w, l1) == (c1, l1)
  {
    var c1 := changed[w := true];
    assert c1[w := true] == c1;
  }

  /** Saving a clean widget changes nothing. */
  lemma SaveClean(changed: Flags, w: Widget, text: Option<string>)
    requires !IsDirty(changed, w)
    ensures Save(changed, w, text) == (changed, text)
  {
  }

  /** A change recorded on a clean widget and then saved leaves its flag clear and its
      item's text as it was. */
  lemma SaveAfterRecord(changed: Flags, w: Widget, text: Option<string>)
    requires !IsDirty(changed, w)
    ensures var (c1, l1) := Record(changed, w, text); Save(c1, w, l1) == (changed[w := false], text)
  {
    assert changed[w := true][w := false] == changed[w := false];
    if text.Some? {
      var t := text.value;
      assert (t + "*")[|t + "*"| - 1..] == "*";
      assert (t + "*")[..|t|] == t;
    }
  }

  /** After a save, there are unsaved changes exactly when another widget has them. */
  lemma SaveLeavesOthers(changed: Flags, w: Widget, text: Option<string>)
    ensures AnyDirty(Save(changed, w, text).0) <==> exists w' :: w' != w && IsDirty(changed, w')
    ensures AnyDirty(Record(changed, w, text).0)
  {
    var c := Save(changed, w, text).0;
    if AnyDirty(c) {
      var w' :| w' in c && c[w'];
      assert w' != w && IsDirty(changed, w');
    }
    if exists w' :: w' != w && IsDirty(changed, w') {
      var w' :| w' != w && IsDirty(changed, w');
      assert w' in c && c[w'];
    }
    assert IsDirty(Record(changed, w, text).0, w);
  }

  // ---------------------------------------------------------------------------------
  // The editor's state

  /** The environment editor: the component lists it edits in place and the unsaved
      flags of its widgets. */
  class EnvEditor {
    var systems: seq<Value>
    var controllers: seq<Value>
    var scenarios: seq<Value>
    var metrics: seq<Value>
    var changed: Flags

    constructor (systems: seq<Value>, controllers: seq<Value>, scenarios: seq<Value>, metrics: seq<Value>)
      ensures this.systems == systems && this.controllers == controllers
      ensures this.scenarios == scenarios && this.metrics == metrics && changed == map[]
    {
      this.systems := systems;
      this.controllers := controllers;
      this.scenarios := scenarios;
      this.metrics := metrics;
      changed := map[];
    }

    /** `get_container`. */
    function Container(k: Kind): seq<Value>
      reads this
    {
      match k
      case Systems => systems
      case Controllers => controllers
      case Scenarios => scenarios
      case Metrics => metrics
    }

    method SetContainer(k: Kind, c: seq<Value>)
      modifies this
      ensures Container(k) == c && changed == old(changed)
      ensures forall k' :: k' != k ==> Container(k') == old(Container(k'))
    {
      match k
      case Systems => systems := c;
      case Controllers => controllers := c;
      case Scenarios => scenarios := c;
      case Metrics => metrics := c;
    }

    /** The flag update of `record_widget_change`, for the operations whose tree item
        text is not modelled. */
    method MarkChanged(w: Widget)
      modifies this
      ensures changed == Record(old(changed), w, None).0
      ensures forall k :: Container(k) == old(Container(k))
    {
      changed := changed[w := true];
    }

    method RecordWidgetChange(w: Widget, text: Option<string>) returns (text': Option<string>)
      modifies this
      ensures (changed, text') == Record(old(changed), w, text)
      ensures forall k :: Container(k) == old(Container(k))
    {
      var was := w in changed && changed[w];
      text' := text;
      if !was {
        text' := Mark(text);
      }
      changed := changed[w := true];
    }

    method OnWidgetSave(w: Widget, text: Option<string>) returns (text': Option<string>)
      modifies this
      ensures (changed, text') == Save(old(changed), w, text)
      ensures forall k :: Container(k) == old(Container(k))
    {
      text' := text;
      var was := w in changed && changed[w];
      if !was {
        return;
      }
      changed := changed[w := false];
      if text.Some? && EndsWith(text.value, "*") {
        text' := Some(text.value[..|text.value| - 1]);
      }
    }

    /** `has_unsaved_changes`: a scan over the flags. */
    method HasUnsavedChanges() returns (b: bool)
      ensures b == AnyDirty(changed)
    {
      var keys := changed.Keys;
      while keys != {}
        invariant keys <= changed.Keys
        invariant forall w :: w in changed.Keys - keys ==> !changed[w]
        decreases |keys|
      {
        var w :| w in keys;
        if changed[w] {
          return true;
        }
        keys := keys - {w};
      }
      b := false;
    }

    /** `add_subcomponent(dcls, parent_widget, field_name)`; `blank` is
        `dcls.as_dict()`. */
    method AddSubcomponent(w: Widget, blank: Value, typeName: string, field: string) returns (r: Result<Value>)
      requires w.ComponentWidget? && w.index < |Container(w.kind)|
      modifies this
      ensures var s := AddSubcomponentSpec(old(Container(w.kind))[w.index], blank, typeName, field, false);
        if s.Ok? then
          r == Ok(s.value.1) && Container(w.kind) == old(Container(w.kind))[w.index := s.value.0] &&
          changed == old(changed)[w := true]
        else
          r == Err(s.error) && Container(w.kind) == old(Container(w.kind)) && changed == old(changed)
      ensures forall k :: k != w.kind ==> Container(k) == old(Container(k))
    {
      var parent := Container(w.kind)[w.index];
      var container := GetItem(parent, field);
      if container.Err? {
        return Err(container.error);
      }
      var name := MakeNameUnique("New " + typeName, container.value);
      if name.Err? {
        return Err(name.error);
      }
      var d := SetItem(blank, "Name", Str(name.value));
      if d.Err? {
        return Err(d.error);
      }
      var pid := GetItem(parent, "Id");
      if pid.Err? {
        return Err(pid.error);
      }
      d := SetItem(d.value, "ParentComponentId", pid.value);
      var ptype := GetItem(parent, "ComponentType");
      if ptype.Err? {
        return Err(ptype.error);
      }
      d := SetItem(d.value, "ParentComponentType", ptype.value);
      var slot := if container.value.List? then List(container.value.items + [d.value]) else d.value;
      SetContainer(w.kind, Container(w.kind)[w.index := Dict(Put(parent.entries, field, slot))]);
      MarkChanged(w);
      r := Ok(d.value);
    }

    /** `duplicate_subcomponent` with the copy given. It changes nothing of the editor:
        the copy is a value, and the store calls are returned. */
    method DuplicateSubcomponent(originalData: Value, field: string, md: Value, ids: nat -> string, k: nat,
                                 hasParams: Value -> bool, hasFiles: Value -> bool)
      returns (calls: seq<StoreCall>, next: nat, r: Result<Value>)
      ensures (calls, next, r) == DuplicateSubSpec(originalData, field, md, ids, k, hasParams, hasFiles)
    {
      var subc := GetItem(originalData, field);
      if subc.Err? {
        return [], k, Err(subc.error);
      }
      if !Truthy(subc.value) {
        return [], k, Ok(md);
      }
      var modified := GetItem(md, field);
      if modified.Err? {
        return [], k, Err(modified.error);
      }
      if !subc.value.List? {
        var (c, item) := DuplicateItem(originalData, md, subc.value, modified.value, ids(k), hasParams, hasFiles);
        if item.Err? {
          return c, k + 1, Err(item.error);
        }
        return c, k + 1, Ok(Dict(Put(md.entries, field, item.value)));
      }
      var mods;
      calls, next, mods := DuplicateItems(originalData, md, subc.value.items, modified.value, ids, k, hasParams, hasFiles);
      if mods.Err? {
        return calls, next, Err(mods.error);
      }
      r := Ok(Dict(Put(md.entries, field, mods.value)));
    }

    /** The loop `for i, it in enumerate(subc): duplicate_item(subc[i], modified[i])`. */
    method DuplicateItems(originalData: Value, md: Value, items: seq<Value>, modified: Value, ids: nat -> string, k: nat,
                          hasParams: Value -> bool, hasFiles: Value -> bool)
      returns (calls: seq<StoreCall>, next: nat, r: Result<Value>)
      ensures (calls, next, r) == ItemsLoop(originalData, md, items, 0, modified, k, [], ids, hasParams, hasFiles)
    {
      var mods := modified;
      calls := [];
      var i := 0;
      while i < |items|
        invariant 0 <= i <= |items|
        invariant ItemsLoop(originalData, md, items, i, mods, k, calls, ids, hasParams, hasFiles) ==
                  ItemsLoop(originalData, md, items, 0, modified, k, [], ids, hasParams, hasFiles)
      {
        var calls', next', r', done, mods' := DuplicateNext(originalData, md, items, i, mods, ids, k, calls, hasParams, hasFiles);
        if done {
          return calls', next', r';
        }
        calls, mods := calls', mods';
        i := i + 1;
      }
      ItemsLoopEnd(originalData, md, items, mods, k, calls, ids, hasParams, hasFiles);
      return calls, k + |items|, Ok(mods);
    }

    /** One round of `DuplicateItems`: either it ends the loop with the loop's result, or
        the result from round `i` on is the result from round `i + 1` on. */
    method DuplicateNext(originalData: Value, md: Value, items: seq<Value>, i: nat, mods: Value, ids: nat -> string, k: nat,
                         calls: seq<StoreCall>, hasParams: Value -> bool, hasFiles: Value -> bool)
      returns (calls': seq<StoreCall>, next: nat, r: Result<Value>, done: bool, mods': Value)
      requires i < |items|
      ensures done ==> (calls', next, r) == ItemsLoop(originalData, md, items, i, mods, k, calls, ids, hasParams, hasFiles)
      ensures !done ==> ItemsLoop(originalData, md, items, i, mods, k, calls, ids, hasParams, hasFiles) ==
                        ItemsLoop(originalData, md, items, i + 1, mods', k, calls', ids, hasParams, hasFiles)
    {
      var item := ItemAt(mods, i);
      if item.Err? {
        return calls, k + i, Err(item.error), true, mods;
      }
      var (c, n) := DuplicateItem(originalData, md, items[i], item.value, ids(k + i), hasParams, hasFiles);
      if n.Err? {
        return calls + c, k + i + 1, Err(n.error), true, mods;
      }
      ItemsLoopNext(originalData, md, items, i, mods, k, calls, ids, hasParams, hasFiles, c, n.value);
      return calls + c, k + i + 1, Ok(mods), false, List(mods.items[i := n.value]);
    }

    /** `duplicate_component(widget)`: the copy is appended to the widget's container
        and the new widget, at the end of it, is marked changed. */
    method DuplicateComponent(w: Widget, ids: nat -> string, k: nat, hasParams: Value -> bool, hasFiles: Value -> bool,
                              render: Value -> string)
      returns (calls: seq<StoreCall>, next: nat, r: Result<Value>)
      requires w.ComponentWidget? && w.index < |Container(w.kind)|
      modifies this
      ensures var s := DuplicateComponentSpec(old(Container(w.kind)), w.index, ids, k, hasParams, hasFiles, render, false);
        calls == s.0 && next == s.1 &&
        if s.2.Ok? then
          r == Ok(s.2.value.1) && Container(w.kind) == s.2.value.0 &&
          changed == old(changed)[ComponentWidget(w.kind, |old(Container(w.kind))|) := true]
        else
          r == Err(s.2.error) && Container(w.kind) == old(Container(w.kind)) && changed == old(changed)
      ensures forall k' :: k' != w.kind ==> Container(k') == old(Container(k'))
    {
      var container := Container(w.kind);
      var original := container[w.index];
      var d1 := SetItem(original, "Id", Str(ids(k)));
      if d1.Err? {
        return [], k + 1, Err(d1.error);
      }
      var name := GetItem(d1.value, "Name");
      if name.Err? {
        return [], k + 1, Err(name.error);
      }
      var unique := MakeNameUnique(StrOf(name.value, render) + " (copy)", List(container));
      if unique.Err? {
        return [], k + 1, Err(unique.error);
      }
      var d := Dict(Put(d1.value.entries, "Name", Str(unique.value)));
      assert DuplicateHead(container, w.index, ids(k), render) == Ok(d);
      var names := SubcomponentNamesAsWritten(d);
      if names.Err? {
        return [], k + 1, Err(names.error);
      }
      var ns := names.value;
      var d0 := d;
      calls, next := [], k + 1;
      var i := 0;
      while i < |ns|
        invariant 0 <= i <= |ns|
        invariant SubsLoop(original, ns, i, d, next, calls, ids, hasParams, hasFiles) ==
                  SubsLoop(original, ns, 0, d0, k + 1, [], ids, hasParams, hasFiles)
        invariant container == Container(w.kind) && changed == old(changed)
        invariant forall k' :: Container(k') == old(Container(k'))
      {
        if !ns[i].Str? {
          return calls, next, Err(BadName(ns[i]));
        }
        var c, n, sub := DuplicateSubcomponent(original, ns[i].s, d, ids, next, hasParams, hasFiles);
        calls, next := calls + c, n;
        if sub.Err? {
          return calls, next, Err(sub.error);
        }
        d := sub.value;
        i := i + 1;
      }
      SetContainer(w.kind, container + [d]);
      calls := calls + CopyCalls(original, original, original, d, hasParams, hasFiles);
      MarkChanged(ComponentWidget(w.kind, |container|));
      r := Ok(d);
    }

    /** `remove_subcomponent(component, parent_widget, field_name, idx, ask_confirmation)`;
        `confirmed` is the answer to the dialog. The parent's flag is left as it is. */
    method RemoveSubcomponent(component: Value, w: Widget, field: string, idx: int, ask: bool, confirmed: bool)
      returns (calls: seq<StoreCall>, r: Result<Option<Value>>)
      requires w.ComponentWidget? && w.index < |Container(w.kind)|
      modifies this
      ensures var s := RemoveSubSpec(component, old(Container(w.kind))[w.index], field, idx, ask, confirmed);
        Container(w.kind) == old(Container(w.kind))[w.index := s.0] && calls == s.1 && r == s.2
      ensures changed == old(changed) && forall k :: k != w.kind ==> Container(k) == old(Container(k))
    {
      var parent := Container(w.kind)[w.index];
      var compName := GetItem(component, "Name");
      if compName.Err? {
        return [], Err(compName.error);
      }
      if ask {
        var shown := GetItem(parent, field);
        if shown.Err? {
          return [], Err(shown.error);
        }
        var shownName := GetItem(shown.value, "Name");
        if shownName.Err? {
          return [], Err(shownName.error);
        }
        if !confirmed {
          return [], Ok(None);
        }
      }
      var obj := GetItem(parent, field);
      if obj.Err? {
        return [], Err(obj.error);
      }
      var removed := obj.value;
      var p2;
      if obj.value.List? {
        if idx < 0 {
          return [], Err(Exception("Index should be positive integer"));
        }
        if idx >= |obj.value.items| {
          return [], Err(IndexError("list index out of range"));
        }
        removed := obj.value.items[idx];
        p2 := Dict(Put(parent.entries, field, List(obj.value.items[..idx] + obj.value.items[idx + 1..])));
      } else {
        p2 := Dict(Put(parent.entries, field, Dict([])));
      }
      SetContainer(w.kind, Container(w.kind)[w.index := p2]);
      var name := GetItem(removed, "Name");
      if name.Err? {
        return [], Err(name.error);
      }
      calls := [RemoveFromStore(removed)];
      r := Ok(Some(removed));
    }
  }
}
