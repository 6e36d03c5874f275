/** The part of Python's `@dataclass` semantics the record defaults rely on, and the
    `as_dict` builder that `set_as_dict` attaches to a record class.

    A field has a plain default, which `@dataclass` leaves as a class attribute, or a
    default factory, whose class attribute `@dataclass` deletes. A subclass's fields are
    its base's, in the base's order, with each redeclared field replaced where it stands
    and each new field appended. */
module Dataclasses {
  import opened Wrappers
  import opened Values

  /** A default factory. `uuid4` draws from the fresh-id oracle; every other factory of
      the records builds a new container equal to a fixed value. */
  datatype Factory = NewUuid | Make(v: Value)

  datatype Default = Plain(v: Value) | FromFactory(f: Factory)

  /** The field names the environment records declare. */
  datatype Field =
    | Id | Name | Description | ComponentType | Metadata | LibVersionHash
    | Lib | LibVersion | PluginType | PluginName | PluginImplementation | ParentComponentId
    | ParentComponentType | Subcomponents | Disturbance | IsComposable | RefHorizon | Mux
    | Subcontrollers | ConstHorizonReference | SimulationTime | Author | Version | License
    | Tags | Created | Modified | ParamsFile | LibraryVersionHash | Library
    | LibraryVersion | Callbacks | Estimator | Components | InitialCondition | Reference
    | Callback

  /** A field's name as a dict key. */
  function Text(f: Field): string
  {
    match f
    case Id => "Id"
    case Name => "Name"
    case Description => "Description"
    case ComponentType => "ComponentType"
    case Metadata => "Metadata"
    case LibVersionHash => "LibVersionHash"
    case Lib => "Lib"
    case LibVersion => "LibVersion"
    case PluginType => "PluginType"
    case PluginName => "PluginName"
    case PluginImplementation => "PluginImplementation"
    case ParentComponentId => "ParentComponentId"
    case ParentComponentType => "ParentComponentType"
    case Subcomponents => "Subcomponents"
    case Disturbance => "Disturbance"
    case IsComposable => "IsComposable"
    case RefHorizon => "RefHorizon"
    case Mux => "Mux"
    case Subcontrollers => "Subcontrollers"
    case ConstHorizonReference => "ConstHorizonReference"
    case SimulationTime => "SimulationTime"
    case Author => "Author"
    case Version => "Version"
    case License => "License"
    case Tags => "Tags"
    case Created => "Created"
    case Modified => "Modified"
    case ParamsFile => "ParamsFile"
    case LibraryVersionHash => "LibraryVersionHash"
    case Library => "Library"
    case LibraryVersion => "LibraryVersion"
    case Callbacks => "Callbacks"
    case Estimator => "Estimator"
    case Components => "Components"
    case InitialCondition => "InitialCondition"
    case Reference => "Reference"
    case Callback => "Callback"
  }

  type Decl = (Field, Default)

  /** A record class: its base record class, if any, and its own field declarations. */
  datatype Cls = Cls(base: Option<Cls>, own: seq<Decl>)

  function NamesOf(ds: seq<Decl>): (r: seq<Field>)
    ensures |r| == |ds| && forall i :: 0 <= i < |ds| ==> r[i] == ds[i].0
  {
    seq(|ds|, i requires 0 <= i < |ds| => ds[i].0)
  }

  /** The declaration of `name`, if any. */
  function DeclOf(ds: seq<Decl>, name: Field): (r: Option<Default>)
    ensures r.Some? <==> name in NamesOf(ds)
  {
    if ds == [] then None
    else if ds[0].0 == name then Some(ds[0].1)
    else DeclOf(ds[1..], name)
  }

  /** `fields[name] = f` on the ordered field dict: an existing field keeps its place. */
  function Redeclare(ds: seq<Decl>, d: Decl): seq<Decl>
  {
    if ds == [] then [d]
    else if ds[0].0 == d.0 then [d] + ds[1..]
    else [ds[0]] + Redeclare(ds[1..], d)
  }

  /** The base's fields with the class's own declarations applied in order. */
  function Merge(inherited: seq<Decl>, own: seq<Decl>): (r: seq<Decl>)
    decreases |own|
  {
    if own == [] then inherited
    else Merge(Redeclare(inherited, own[0]), own[1..])
  }

  /** `cls.__dataclass_fields__`, in order. */
  function Fields(c: Cls): seq<Decl>
  {
    match c.base
    case None => Merge([], c.own)
    case Some(b) => Merge(Fields(b), c.own)
  }

  /** `getattr(cls, name)` when `hasattr(cls, name)`: a plain default of the class
      itself, else the attribute its base provides. */
  function Attr(c: Cls, name: Field): Option<Value>
  {
    match DeclOf(c.own, name)
    case Some(Plain(v)) => Some(v)
    case _ => if c.base.None? then None else Attr(c.base.value, name)
  }

  /** The value `as_dict` stores for one field: the class attribute if there is one,
      else a fresh product of the field's factory. */
  function FieldValue(c: Cls, d: Decl, uuid: string): Value
  {
    match Attr(c, d.0)
    case Some(v) => v
    case None => DefaultOf(d.1, uuid)
  }

  /** What a declaration yields on its own: its plain default or its factory's product. */
  function DefaultOf(d: Default, uuid: string): Value
  {
    match d
    case Plain(v) => v
    case FromFactory(NewUuid) => Str(uuid)
    case FromFactory(Make(v)) => v
  }

  /** `cls.as_dict()`, drawing `uuid` from the fresh-id oracle for an Id factory. */
  function AsDict(c: Cls, uuid: string): (r: Value)
  {
    var fs := Fields(c);
    Dict(seq(|fs|, i requires 0 <= i < |fs| => (Text(fs[i].0), FieldValue(c, fs[i], uuid))))
  }

  /** Every declaration along the base chain, base first. */
  function Chain(c: Cls): seq<Decl>
  {
    (if c.base.None? then [] else Chain(c.base.value)) + c.own
  }

  predicate Distinct(ns: seq<Field>)
  {
    forall i, j :: 0 <= i < j < |ns| ==> ns[i] != ns[j]
  }

  /** The entries of a record whose declarations carry their own defaults. */
  function Flat(ds: seq<Decl>, uuid: string): (r: Entries)
    ensures |r| == |ds| && forall i :: 0 <= i < |ds| ==> r[i] == (Text(ds[i].0), DefaultOf(ds[i].1, uuid))
  {
    seq(|ds|, i requires 0 <= i < |ds| => (Text(ds[i].0), DefaultOf(ds[i].1, uuid)))
  }

  lemma NamesOfAppend(a: seq<Decl>, b: seq<Decl>)
    ensures NamesOf(a + b) == NamesOf(a) + NamesOf(b)
  {
  }

  lemma {:induction false} DeclOfAppend(a: seq<Decl>, b: seq<Decl>, n: Field)
    ensures DeclOf(a + b, n) == if n in NamesOf(a) then DeclOf(a, n) else DeclOf(b, n)
    decreases |a|
  {
    if a != [] {
      assert (a + b)[1..] == a[1..] + b;
      assert NamesOf(a) == [a[0].0] + NamesOf(a[1..]);
      assert (a + b)[0] == a[0];
      DeclOfAppend(a[1..], b, n);
    } else {
      assert a + b == b;
    }
  }

  /** A sequence of distinct names splits into two of distinct names with none in common. */
  lemma DistinctSplit(a: seq<Field>, b: seq<Field>)
    requires Distinct(a + b)
    ensures Distinct(a) && Distinct(b) && forall x :: x in a ==> x !in b
  {
    forall i, j | 0 <= i < j < |a| ensures a[i] != a[j] {
      assert (a + b)[i] == a[i] && (a + b)[j] == a[j];
    }
    forall i, j | 0 <= i < j < |b| ensures b[i] != b[j] {
      assert (a + b)[|a| + i] == b[i] && (a + b)[|a| + j] == b[j];
    }
    forall x | x in a ensures x !in b {
      var i :| 0 <= i < |a| && a[i] == x;
      forall j | 0 <= j < |b| ensures b[j] != x {
        assert (a + b)[i] == x && (a + b)[|a| + j] == b[j];
      }
    }
  }

  /** Two sequences of distinct names with none in common join into one. */
  lemma DistinctJoin(a: seq<Field>, b: seq<Field>)
    requires Distinct(a) && Distinct(b) && forall x :: x in a ==> x !in b
    ensures Distinct(a + b)
  {
    forall i, j | 0 <= i < j < |a + b| ensures (a + b)[i] != (a + b)[j] {
      if j < |a| {
        assert (a + b)[i] == a[i] && (a + b)[j] == a[j];
      } else if i >= |a| {
        assert (a + b)[i] == b[i - |a|] && (a + b)[j] == b[j - |a|];
      } else {
        assert (a + b)[i] == a[i] && (a + b)[j] == b[j - |a|];
        assert a[i] in a && b[j - |a|] in b;
      }
    }
  }

  /** Fields no earlier field shares a name with are appended in order. */
  lemma {:induction false} MergeDisjoint(inherited: seq<Decl>, own: seq<Decl>)
    requires Distinct(NamesOf(inherited + own))
    ensures Merge(inherited, own) == inherited + own
    decreases |own|
  {
    if own != [] {
      var d, rest := own[0], own[1..];
      HeadFresh(inherited, own);
      RedeclareFresh(inherited, d);
      assert Merge(inherited, own) == Merge(inherited + [d], rest);
      MergeDisjoint(inherited + [d], rest);
    } else {
      assert inherited + own == inherited;
    }
  }

  lemma HeadFresh(inherited: seq<Decl>, own: seq<Decl>)
    requires Distinct(NamesOf(inherited + own)) && own != []
    ensures forall k :: 0 <= k < |inherited| ==> inherited[k].0 != own[0].0
    ensures inherited + [own[0]] + own[1..] == inherited + own
  {
    var all := NamesOf(inherited + own);
    forall k | 0 <= k < |inherited| ensures inherited[k].0 != own[0].0 {
      assert (inherited + own)[k] == inherited[k] && (inherited + own)[|inherited|] == own[0];
      assert all[k] != all[|inherited|];
    }
    assert [own[0]] + own[1..] == own;
  }

  lemma {:induction false} RedeclareFresh(ds: seq<Decl>, d: Decl)
    requires forall i :: 0 <= i < |ds| ==> ds[i].0 != d.0
    ensures Redeclare(ds, d) == ds + [d]
    decreases |ds|
  {
    if ds != [] {
      assert Redeclare(ds, d) == [ds[0]] + Redeclare(ds[1..], d);
      RedeclareFresh(ds[1..], d);
      assert [ds[0]] + (ds[1..] + [d]) == ds + [d];
    }
  }

  /** Without redeclarations the fields are the chain's declarations. */
  lemma {:induction false} FieldsChain(c: Cls)
    requires Distinct(NamesOf(Chain(c)))
    ensures Fields(c) == Chain(c)
  {
    if c.base.Some? {
      var b := c.base.value;
      NamesOfAppend(Chain(b), c.own);
      DistinctSplit(NamesOf(Chain(b)), NamesOf(c.own));
      FieldsChain(b);
      MergeDisjoint(Chain(b), c.own);
    } else {
      assert Chain(c) == [] + c.own;
      MergeDisjoint([], c.own);
    }
  }

  /** Without redeclarations a class has an attribute exactly for its plain defaults. */
  lemma {:induction false} AttrChain(c: Cls, n: Field)
    requires Distinct(NamesOf(Chain(c)))
    ensures Attr(c, n) == match DeclOf(Chain(c), n) case Some(Plain(v)) => Some(v) case _ => None
  {
    var pre := if c.base.None? then [] else Chain(c.base.value);
    NamesOfAppend(pre, c.own);
    DeclOfAppend(pre, c.own, n);
    DistinctSplit(NamesOf(pre), NamesOf(c.own));
    if c.base.Some? {
      AttrChain(c.base.value, n);
    }
  }

  /** A record class without redeclarations: `as_dict` gives each declaration's own
      default, in chain order. */
  lemma AsDictFlat(c: Cls, uuid: string)
    requires Distinct(NamesOf(Chain(c)))
    ensures AsDict(c, uuid) == Dict(Flat(Chain(c), uuid))
  {
    FieldsChain(c);
    var ch := Chain(c);
    forall i | 0 <= i < |ch| ensures FieldValue(c, ch[i], uuid) == DefaultOf(ch[i].1, uuid) {
      AttrChain(c, ch[i].0);
      DeclOfDistinct(ch, i);
    }
  }

  lemma {:induction false} DeclOfDistinct(ds: seq<Decl>, i: int)
    requires Distinct(NamesOf(ds)) && 0 <= i < |ds|
    ensures DeclOf(ds, ds[i].0) == Some(ds[i].1)
    decreases |ds|
  {
    if i > 0 {
      assert NamesOf(ds)[0] != NamesOf(ds)[i];
      assert NamesOf(ds[1..]) == NamesOf(ds)[1..];
      DeclOfDistinct(ds[1..], i - 1);
    }
  }

  lemma ChainOfRoot(c: Cls)
    requires c.base.None?
    ensures Chain(c) == c.own
  {
    assert Chain(c) == [] + c.own;
  }

  lemma ChainOfChild(c: Cls)
    requires c.base.Some? && c.base.value.base.None?
    ensures Chain(c) == c.base.value.own + c.own
  {
    ChainOfRoot(c.base.value);
  }

  lemma FlatAppend(a: seq<Decl>, b: seq<Decl>, uuid: string)
    ensures Flat(a + b, uuid) == Flat(a, uuid) + Flat(b, uuid)
  {
  }

  /** `as_dict` of a record class without a base, given its field names. */
  lemma AsDictOfRoot(c: Cls, names: seq<Field>, uuid: string, entries: Entries)
    requires c.base.None? && NamesOf(c.own) == names && Distinct(names)
    requires Flat(c.own, uuid) == entries
    ensures AsDict(c, uuid) == Dict(entries)
  {
    ChainOfRoot(c);
    AsDictFlat(c, uuid);
  }

  /** `as_dict` of a record class whose base has no base, given all its field names. */
  lemma AsDictOfChild(c: Cls, names: seq<Field>, uuid: string, inherited: Entries, own: Entries)
    requires c.base.Some? && c.base.value.base.None?
    requires NamesOf(c.base.value.own + c.own) == names && Distinct(names)
    requires Flat(c.base.value.own, uuid) == inherited && Flat(c.own, uuid) == own
    ensures AsDict(c, uuid) == Dict(inherited + own)
  {
    ChainOfChild(c);
    AsDictFlat(c, uuid);
    FlatAppend(c.base.value.own, c.own, uuid);
  }

  lemma {:induction false} MergeAppend(inherited: seq<Decl>, own1: seq<Decl>, own2: seq<Decl>)
    ensures Merge(inherited, own1 + own2) == Merge(Merge(inherited, own1), own2)
    decreases |own1|
  {
    if own1 != [] {
      assert (own1 + own2)[0] == own1[0] && (own1 + own2)[1..] == own1[1..] + own2;
      MergeAppend(Redeclare(inherited, own1[0]), own1[1..], own2);
    } else {
      assert own1 + own2 == own2;
    }
  }

  /** Redeclaring a field exactly as it already stands changes nothing. */
  lemma {:induction false} RedeclareSame(ds: seq<Decl>, k: int)
    requires 0 <= k < |ds| && forall i :: 0 <= i < k ==> ds[i].0 != ds[k].0
    ensures Redeclare(ds, ds[k]) == ds
    decreases k
  {
    if k > 0 {
      RedeclareSame(ds[1..], k - 1);
      assert [ds[0]] + ds[1..] == ds;
    } else {
      assert [ds[0]] + ds[1..] == ds;
    }
  }

  /** New fields followed by a redeclaration of an inherited field exactly as it stands:
      the new fields are appended and the inherited one keeps its place. */
  lemma MergeRedeclareInherited(inherited: seq<Decl>, extra: seq<Decl>, k: nat)
    requires k < |inherited| && Distinct(NamesOf(inherited + extra))
    ensures Merge(inherited, extra + [inherited[k]]) == inherited + extra
  {
    var fs := inherited + extra;
    MergeAppend(inherited, extra, [inherited[k]]);
    MergeDisjoint(inherited, extra);
    assert fs[k] == inherited[k];
    assert forall i :: 0 <= i < k ==> NamesOf(fs)[i] != NamesOf(fs)[k];
    RedeclareSame(fs, k);
    assert Merge(fs, [fs[k]]) == Merge(Redeclare(fs, fs[k]), []);
  }

  /** A class that declares only factory fields inherits every class attribute. */
  lemma AttrInherit(c: Cls, n: Field)
    requires c.base.Some? && forall i :: 0 <= i < |c.own| ==> c.own[i].1.FromFactory?
    ensures Attr(c, n) == Attr(c.base.value, n)
  {
    DeclOfFrom(c.own, n);
  }

  lemma {:induction false} DeclOfFrom(ds: seq<Decl>, n: Field)
    ensures DeclOf(ds, n).Some? ==> exists i :: 0 <= i < |ds| && ds[i] == (n, DeclOf(ds, n).value)
    decreases |ds|
  {
    if ds != [] && ds[0].0 != n {
      DeclOfFrom(ds[1..], n);
      if DeclOf(ds, n).Some? {
        var i :| 0 <= i < |ds[1..]| && ds[1..][i] == (n, DeclOf(ds, n).value);
        assert ds[i + 1] == ds[1..][i];
      }
    } else if ds != [] {
      assert ds[0] == (n, DeclOf(ds, n).value);
    }
  }

  /** `as_dict` of a class whose own declarations all have factories and whose fields are
      its base's followed by `extra`. */
  lemma AsDictOfFactoryChild(c: Cls, extra: seq<Decl>, uuid: string)
    requires c.base.Some? && c.base.value.base.None?
    requires forall i :: 0 <= i < |c.own| ==> c.own[i].1.FromFactory?
    requires Fields(c) == c.base.value.own + extra
    requires Distinct(NamesOf(c.base.value.own + extra))
    ensures AsDict(c, uuid) == Dict(Flat(c.base.value.own + extra, uuid))
  {
    var fs := c.base.value.own + extra;
    forall i | 0 <= i < |fs| ensures FieldValue(c, fs[i], uuid) == DefaultOf(fs[i].1, uuid) {
      FactoryChildField(c, extra, uuid, i);
    }
    AsDictPointwise(c, fs, uuid);
  }

  /** One field of such a class takes its own default. */
  lemma FactoryChildField(c: Cls, extra: seq<Decl>, uuid: string, i: nat)
    requires c.base.Some? && c.base.value.base.None?
    requires forall i :: 0 <= i < |c.own| ==> c.own[i].1.FromFactory?
    requires Distinct(NamesOf(c.base.value.own + extra))
    requires i < |c.base.value.own + extra|
    ensures FieldValue(c, (c.base.value.own + extra)[i], uuid) == DefaultOf((c.base.value.own + extra)[i].1, uuid)
  {
    var b := c.base.value;
    var fs := b.own + extra;
    NamesOfAppend(b.own, extra);
    DistinctSplit(NamesOf(b.own), NamesOf(extra));
    ChainOfRoot(b);
    var n := fs[i].0;
    AttrInherit(c, n);
    AttrChain(b, n);
    DeclOfDistinct(fs, i);
    DeclOfAppend(b.own, extra, n);
  }

  /** `as_dict` is the flat record once every field takes its own default. */
  lemma AsDictPointwise(c: Cls, fs: seq<Decl>, uuid: string)
    requires Fields(c) == fs
    requires forall i :: 0 <= i < |fs| ==> FieldValue(c, fs[i], uuid) == DefaultOf(fs[i].1, uuid)
    ensures AsDict(c, uuid) == Dict(Flat(fs, uuid))
  {
  }

  lemma FieldsOfRoot(c: Cls, names: seq<Field>)
    requires c.base.None? && NamesOf(c.own) == names && Distinct(names)
    ensures Fields(c) == c.own
  {
    ChainOfRoot(c);
    FieldsChain(c);
  }

  lemma FieldsOfChild(c: Cls, names: seq<Field>)
    requires c.base.Some? && c.base.value.base.None?
    requires NamesOf(c.base.value.own + c.own) == names && Distinct(names)
    ensures Fields(c) == c.base.value.own + c.own
  {
    ChainOfChild(c);
    FieldsChain(c);
  }
}
