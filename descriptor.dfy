/** Parameter descriptors and log entries (`descriptor.py`). */
module Descriptor {
  import opened Wrappers
  import opened Values

  /** `LogEntry(name)`. */
  datatype LogEntry = LogEntry(name: string)

  /** `repr(LogEntry(name))`. */
  function LogEntryRepr(e: LogEntry): (r: string)
    ensures |r| == |e.name| + 15
  {
    "LogEntry(name=" + e.name + ")"
  }

  /** The representation shows the name, and only the name can be read back from it. */
  lemma LogEntryReprShowsName(e: LogEntry)
    ensures LogEntryRepr(e)[14..|LogEntryRepr(e)| - 1] == e.name
  {
  }

  lemma LogEntryReprInjective(a: LogEntry, b: LogEntry)
    requires LogEntryRepr(a) == LogEntryRepr(b)
    ensures a == b
  {
    LogEntryReprShowsName(a);
    LogEntryReprShowsName(b);
  }

  /** `ParamDescriptor(name, default_value, type, description)`: four fields set once. */
  datatype ParamDescriptor = ParamDescriptor(name: Value, defaultValue: Value, typ: Value, description: Value)

  /** The constructor with its defaults: `default_value 0`, `type None`,
      `description ""`. */
  function NewParamDescriptor(name: Value, defaultValue: Value := Int(0), typ: Value := Null, description: Value := Str("")): (r: ParamDescriptor)
    ensures r.name == name && r.defaultValue == defaultValue && r.typ == typ && r.description == description
  {
    ParamDescriptor(name, defaultValue, typ, description)
  }

  /** `descriptor[key]`. */
  function DescGetItem(d: ParamDescriptor, key: string): (r: Result<Value>)
    ensures key !in {"Name", "DefaultValue", "Type", "Description"} ==>
      r == Err(KeyError("Key " + key + " not found in ParamDescription"))
  {
    if key == "Name" then Ok(d.name)
    else if key == "DefaultValue" then Ok(d.defaultValue)
    else if key == "Type" then Ok(d.typ)
    else if key == "Description" then Ok(d.description)
    else Err(KeyError("Key " + key + " not found in ParamDescription"))
  }

  /** A descriptor made with only a name reads back that name and the defaults. */
  lemma DescriptorDefaults(name: Value)
    ensures DescGetItem(NewParamDescriptor(name), "Name") == Ok(name)
    ensures DescGetItem(NewParamDescriptor(name), "DefaultValue") == Ok(Int(0))
    ensures DescGetItem(NewParamDescriptor(name), "Type") == Ok(Null)
    ensures DescGetItem(NewParamDescriptor(name), "Description") == Ok(Str(""))
  {
  }

  /** The same four entries as a dict, which is how the rest of the model passes a
      descriptor around (the code subscripts dict descriptors and `ParamDescriptor`s
      alike). */
  function AsDict(d: ParamDescriptor): (r: Value)
    ensures r.Dict? && DistinctKeys(r.entries)
  {
    var e := [("Name", d.name), ("DefaultValue", d.defaultValue), ("Type", d.typ), ("Description", d.description)];
    assert Keys(e) == ["Name", "DefaultValue", "Type", "Description"];
    Dict(e)
  }

  /** Subscripting the dict gives what subscripting the descriptor gives, and a key
      outside the four raises `KeyError` either way. */
  lemma AsDictSubscript(d: ParamDescriptor, key: string)
    ensures key in {"Name", "DefaultValue", "Type", "Description"} ==> GetItem(AsDict(d), key) == DescGetItem(d, key)
    ensures key !in {"Name", "DefaultValue", "Type", "Description"} ==>
      GetItem(AsDict(d), key).Err? && GetItem(AsDict(d), key).error.KeyError? && DescGetItem(d, key).error.KeyError?
  {
    var e := AsDict(d).entries;
    assert e[0] == ("Name", d.name) && e[1..][0] == ("DefaultValue", d.defaultValue);
    assert e[1..][1..][0] == ("Type", d.typ) && e[1..][1..][1..][0] == ("Description", d.description);
    assert e[1..][1..][1..][1..] == [];
    if key == "DefaultValue" {
      assert Lookup(e, key) == Lookup(e[1..], key);
    } else if key == "Type" {
      assert Lookup(e, key) == Lookup(e[1..][1..], key);
    } else if key == "Description" {
      assert Lookup(e, key) == Lookup(e[1..], key);
      assert Lookup(e[1..], key) == Lookup(e[1..][1..], key);
      assert Lookup(e[1..][1..], key) == Lookup(e[1..][1..][1..], key);
    }
  }
}
