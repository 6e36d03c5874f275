/** The client side of the MATLAB bridge (`matlab/matlab_backend.py`): the table of
    command templates, how a command becomes the text sent to the daemon, the framing
    of the daemon's reply, the parsing of the reply and the start-up decisions. The
    socket, the daemon process and the waits are parameters: the bytes the daemon
    sends, how many of them the first `recv` returns, and what the probes report. */
module MatlabBackend {
  import opened Wrappers
  import opened Strings
  import opened Values
  import opened FileSystem

  /** The bytes of the socket, one character per byte: `encode()` and `decode()` are
      the identity on this view. */
  type Wire = string

  // ---------------------------------------------------------------------------
  // The reply frame

  /** `n.to_bytes(4, byteorder='little')`. */
  function LittleEndian4(n: nat): (bs: Wire)
    requires n < 0x1_0000_0000
    ensures |bs| == 4
  {
    [(n % 256) as char, (n / 256 % 256) as char, (n / 65536 % 256) as char, (n / 16777216 % 256) as char]
  }

  /** `int.from_bytes(bs, byteorder='little')`. */
  function FromLittleEndian(bs: Wire): nat
  {
    if bs == [] then 0 else bs[0] as nat + 256 * FromLittleEndian(bs[1..])
  }

  /** The length header decodes to the length it encodes. */
  lemma LengthRoundTrip(n: nat)
    requires n < 0x1_0000_0000
    ensures FromLittleEndian(LittleEndian4(n)) == n
  {
    var bs := LittleEndian4(n);
    assert bs[1..][1..][1..][1..] == [];
    var q1 := n / 256;
    var q2 := q1 / 256;
    var q3 := q2 / 256;
    assert n / 65536 == q2 && n / 16777216 == q3;
    assert q3 < 256;
    assert FromLittleEndian(bs[1..][1..][1..]) == q3;
    assert FromLittleEndian(bs[1..][1..]) == q2 % 256 + 256 * q3 == q2;
    assert FromLittleEndian(bs[1..]) == q1 % 256 + 256 * q2 == q1;
    assert FromLittleEndian(bs) == n % 256 + 256 * q1 == n;
  }

  const Zero: char := 0 as char
  const One: char := 1 as char

  /** The daemon's reply to a command that ran: a zero byte, the length and the text. */
  function SuccessFrame(response: string): Wire
    requires |response| < 0x1_0000_0000
  {
    [Zero] + LittleEndian4(|response|) + response
  }

  /** The daemon's reply to a command that raised: a one byte, then the message. */
  function ErrorFrame(e: string): Wire
  {
    [One] + "csb_err: " + e
  }

  function Min(a: nat, b: nat): nat
  {
    if a < b then a else b
  }

  /** `recv(n)`: at most `n` of the bytes still to come, all of which have arrived. */
  function Recv(stream: Wire, n: nat): (r: Wire)
    ensures |r| == Min(n, |stream|) && r == stream[..|r|]
  {
    stream[..Min(n, |stream|)]
  }

  /** The bytes `eng_eval` takes as the response. For a JSON request the first
      `recv(5)` returns `first` bytes of the frame (a stream socket may split it); the
      flag then chooses between the rest of an error message and a sized payload. */
  function Receive(isJson: bool, stream: Wire, first: nat): (r: Result<Wire>)
    ensures !isJson ==> r == Ok(Recv(stream, 1024))
    ensures isJson && (stream == [] || first == 0) ==> r.Err? && r.error.IndexError?
  {
    if !isJson then Ok(Recv(stream, 1024))
    else
      var l := Recv(stream, Min(5, first));
      if l == [] then Err(IndexError("index out of range"))
      else
        var rest := stream[|l|..];
        if l[0] != Zero then Ok(Recv(rest, 1024))
        else Ok(Recv(rest, FromLittleEndian(l[1..])))
  }

  /** A frame with a zero flag and a four-byte length, read whole, yields its payload. */
  lemma FrameRead(h: Wire, payload: Wire, first: nat)
    requires |h| == 4 && FromLittleEndian(h) == |payload| && first >= 5
    ensures Receive(true, [Zero] + h + payload, first) == Ok(payload)
  {
    var f := [Zero] + h + payload;
    var l := Recv(f, Min(5, first));
    assert l == [Zero] + h && l[1..] == h;
    assert f[|l|..] == payload;
    assert Recv(payload, |payload|) == payload;
  }

  /** A success frame read whole yields the response the daemon encoded. */
  lemma SuccessFrameRoundTrip(response: string, first: nat)
    requires |response| < 0x1_0000_0000 && first >= 5
    ensures Receive(true, SuccessFrame(response), first) == Ok(response)
  {
    LengthRoundTrip(|response|);
    FrameRead(LittleEndian4(|response|), response, first);
  }

  // ---------------------------------------------------------------------------
  // Parsing the reply

  /** The `nargout` of a table entry: a count, or `'dict'`. */
  datatype NArgOut = NArg(n: int) | DictOut

  /** `dict(zip(keys, values))` into `e`: pairs up to the shorter list, a later key
      overriding an earlier one. */
  function ZipInto(e: Entries, ks: seq<Value>, vs: seq<Value>): (r: Result<Entries>)
    ensures r.Ok? <==> forall i :: 0 <= i < Min(|ks|, |vs|) ==> ks[i].Str?
    decreases |ks|
  {
    if ks == [] || vs == [] then Ok(e)
    else if !ks[0].Str? then Err(TypeError("dict key is not a string"))
    else
      var r := ZipInto(Put(e, ks[0].s, vs[0]), ks[1..], vs[1..]);
      assert forall i :: 1 <= i < Min(|ks|, |vs|) ==> ks[i] == ks[1..][i - 1];
      r
  }

  /** A key the zipped pairs do not mention keeps its earlier value. */
  lemma {:induction false} ZipOther(e: Entries, ks: seq<Value>, vs: seq<Value>, k: string)
    requires ZipInto(e, ks, vs).Ok?
    requires forall i :: 0 <= i < Min(|ks|, |vs|) ==> ks[i] != Str(k)
    ensures Lookup(ZipInto(e, ks, vs).value, k) == Lookup(e, k)
    decreases |ks|
  {
    if ks != [] && vs != [] {
      LookupPutOther(e, ks[0].s, vs[0], k);
      forall i | 0 <= i < Min(|ks[1..]|, |vs[1..]|) ensures ks[1..][i] != Str(k) {
        assert ks[1..][i] == ks[i + 1];
      }
      ZipOther(Put(e, ks[0].s, vs[0]), ks[1..], vs[1..], k);
    }
  }

  /** A key gets the value paired with its last occurrence. */
  lemma {:induction false} ZipLast(e: Entries, ks: seq<Value>, vs: seq<Value>, j: nat)
    requires ZipInto(e, ks, vs).Ok?
    requires j < Min(|ks|, |vs|) && forall i :: j < i < Min(|ks|, |vs|) ==> ks[i] != ks[j]
    ensures Lookup(ZipInto(e, ks, vs).value, ks[j].s) == Some(vs[j])
    decreases |ks|
  {
    var e1 := Put(e, ks[0].s, vs[0]);
    if j == 0 {
      LookupPutSame(e, ks[0].s, vs[0]);
      forall i | 0 <= i < Min(|ks[1..]|, |vs[1..]|) ensures ks[1..][i] != Str(ks[0].s) {
        assert ks[1..][i] == ks[i + 1];
      }
      ZipOther(e1, ks[1..], vs[1..], ks[0].s);
    } else {
      forall i | j - 1 < i < Min(|ks[1..]|, |vs[1..]|) ensures ks[1..][i] != ks[1..][j - 1] {
        assert ks[1..][i] == ks[i + 1];
      }
      ZipLast(e1, ks[1..], vs[1..], j - 1);
      assert ks[1..][j - 1] == ks[j] && vs[1..][j - 1] == vs[j];
    }
  }

  const CsbErrPrefix := "csb_err:"
  const ErrPrefix := "err:"

  /** `parse_response(response, nargout, is_json)`. */
  function ParseResponse(json5: JsonCodec, response: string, nargout: NArgOut, isJson: bool): (r: Result<Value>)
    ensures StartsWith(response, CsbErrPrefix) ==> r == Err(Exception(response[|CsbErrPrefix|..]))
    ensures !StartsWith(response, CsbErrPrefix) && StartsWith(response, ErrPrefix) ==> r == Err(Exception(response[|ErrPrefix|..]))
    ensures !StartsWith(response, CsbErrPrefix) && !StartsWith(response, ErrPrefix) ==>
      (!isJson ==> r == Ok(Str(response))) &&
      (isJson && response == "" ==> r == Ok(Null)) &&
      (isJson && response != "" && nargout.NArg? ==> r == json5.load(response))
    ensures r.Ok? && isJson && response != "" && nargout == DictOut ==>
      var temp := json5.load(response);
      temp.Ok? && GetItem(temp.value, "keys").Ok? && GetItem(temp.value, "values").Ok? &&
      Iterate(GetItem(temp.value, "keys").value).Ok? && Iterate(GetItem(temp.value, "values").value).Ok? &&
      ZipInto([], Iterate(GetItem(temp.value, "keys").value).value,
                  Iterate(GetItem(temp.value, "values").value).value).Ok? &&
      r == Ok(Dict(ZipInto([], Iterate(GetItem(temp.value, "keys").value).value,
                               Iterate(GetItem(temp.value, "values").value).value).value))
  {
    if StartsWith(response, CsbErrPrefix) then Err(Exception(response[|CsbErrPrefix|..]))
    else if StartsWith(response, ErrPrefix) then Err(Exception(response[|ErrPrefix|..]))
    else if !isJson then Ok(Str(response))
    else if response == "" then Ok(Null)
    else if nargout == DictOut then
      var temp :- json5.load(response);
      var keys :- GetItem(temp, "keys");
      var values :- GetItem(temp, "values");
      var ks :- Iterate(keys);
      var vs :- Iterate(values);
      var e :- ZipInto([], ks, vs);
      Ok(Dict(e))
    else json5.load(response)
  }

  /** `eng_eval(command, nargout, is_json)` after the command was sent. */
  function EngEval(json5: JsonCodec, nargout: NArgOut, isJson: bool, stream: Wire, first: nat): Result<Value>
  {
    var response :- Receive(isJson, stream, first);
    ParseResponse(json5, response, nargout, isJson)
  }

  /** The response `eng_eval` takes from an error frame: the whole message when the
      first `recv(5)` got the flag alone, the message without `csb_` when it got the
      flag with four bytes of the message. */
  lemma ErrorFrameRead(e: string, first: nat)
    requires |e| <= 1015
    requires first == 1 || first >= 5
    ensures first == 1 ==> Receive(true, ErrorFrame(e), first) == Ok("csb_err: " + e)
    ensures first >= 5 ==> Receive(true, ErrorFrame(e), first) == Ok("err: " + e)
  {
    var f := ErrorFrame(e);
    var l := Recv(f, Min(5, first));
    assert l[0] == f[0] == One && One != Zero;
    var rest := f[|l|..];
    if first == 1 {
      assert rest == "csb_err: " + e;
    } else {
      assert rest == "err: " + e;
    }
    assert Recv(rest, 1024) == rest;
  }

  /** Both forms of the error text raise with the daemon's message. */
  lemma ErrorTextsRaise(json5: JsonCodec, nargout: NArgOut, e: string)
    ensures ParseResponse(json5, "csb_err: " + e, nargout, true) == Err(Exception(" " + e))
    ensures ParseResponse(json5, "err: " + e, nargout, true) == Err(Exception(" " + e))
  {
    var t := "err: " + e;
    assert StartsWith("csb_err: " + e, CsbErrPrefix);
    assert ("csb_err: " + e)[|CsbErrPrefix|..] == " " + e;
    assert !StartsWith(t, CsbErrPrefix) by {
      assert t[0] != CsbErrPrefix[0];
    }
    assert StartsWith(t, ErrPrefix);
    assert t[|ErrPrefix|..] == " " + e;
  }

  /** A command that raised in MATLAB raises here with the daemon's message, whether the
      first `recv(5)` got the flag alone or the flag with four bytes of the message: in
      the second case the remaining text starts with `err:`. */
  lemma ErrorReachesCaller(json5: JsonCodec, nargout: NArgOut, e: string, first: nat)
    requires |e| <= 1015
    requires first == 1 || first >= 5
    ensures EngEval(json5, nargout, true, ErrorFrame(e), first) == Err(Exception(" " + e))
  {
    ErrorFrameRead(e, first);
    ErrorTextsRaise(json5, nargout, e);
  }

  // ---------------------------------------------------------------------------
  // Commands

  /** `str.count('{}')`: occurrences of `{}`, counted left to right without overlap. */
  function HoleCount(t: string): nat
  {
    if |t| < 2 then 0
    else if t[0] == '{' && t[1] == '}' then 1 + HoleCount(t[2..])
    else HoleCount(t[1..])
  }

  /** `t.format(*args)` for a template whose only fields are `{}`: each field takes the
      next argument's text; extra arguments are ignored, a missing one raises. */
  function Format(t: string, args: seq<string>): Result<string>
  {
    if |t| < 2 then Ok(t)
    else if t[0] == '{' && t[1] == '}' then
      if args == [] then Err(IndexError("Replacement index out of range"))
      else
        var rest :- Format(t[2..], args[1..]);
        Ok(args[0] + rest)
    else
      var rest :- Format(t[1..], args);
      Ok([t[0]] + rest)
  }

  /** Formatting succeeds exactly when there is an argument for every field. */
  lemma {:induction false} FormatDefined(t: string, args: seq<string>)
    ensures Format(t, args).Ok? <==> HoleCount(t) <= |args|
    decreases |t|
  {
    if |t| >= 2 {
      if t[0] == '{' && t[1] == '}' {
        if args != [] {
          FormatDefined(t[2..], args[1..]);
        }
      } else {
        FormatDefined(t[1..], args);
      }
    }
  }

  /** Filling every field with `{}` itself gives the template back. */
  lemma {:induction false} FormatWithHoles(t: string)
    ensures Format(t, seq(HoleCount(t), _ => "{}")) == Ok(t)
    decreases |t|
  {
    var holes := seq(HoleCount(t), _ => "{}");
    if |t| >= 2 {
      if t[0] == '{' && t[1] == '}' {
        FormatWithHoles(t[2..]);
        assert holes[1..] == seq(HoleCount(t[2..]), _ => "{}");
        assert t == "{}" + t[2..];
      } else {
        FormatWithHoles(t[1..]);
        assert t == [t[0]] + t[1..];
      }
    }
  }

  /** Text without `{` is copied as it is. */
  lemma {:induction false} FormatPlain(p: string, t: string, args: seq<string>)
    requires NoBrace(p)
    requires Format(t, args).Ok?
    ensures Format(p + t, args) == Ok(p + Format(t, args).value)
    decreases |p|
  {
    if p == [] {
      assert p + t == t && p + Format(t, args).value == Format(t, args).value;
    } else {
      var f := Format(t, args).value;
      assert (p + t)[0] == p[0] && (p + t)[1..] == p[1..] + t;
      FormatPlain(p[1..], t, args);
      if |p + t| < 2 {
        assert t == [] && p == [p[0]] && f == [];
      } else {
        assert Format(p + t, args) == Ok([p[0]] + (p[1..] + f));
      }
      assert p + f == [p[0]] + (p[1..] + f);
    }
  }

  /** A field takes the first argument. */
  lemma FormatHole(t: string, a: string, rest: seq<string>)
    requires Format(t, rest).Ok?
    ensures Format("{}" + t, [a] + rest) == Ok(a + Format(t, rest).value)
  {
    assert ("{}" + t)[2..] == t && ([a] + rest)[1..] == rest;
  }

  /** What `run_command` sends: the text, the `nargout` and whether a JSON reply is
      awaited. */
  datatype Request = Request(text: string, nargout: NArgOut, isJson: bool)

  const S16 := "                "
  const DictPre := "\n" + S16 + "temp = "
  const DictPost := ";\n" + S16 + "r.keys = temp.keys();\n" + S16 + "r.values = temp.values();\n" + S16 +
                    "temp=jsonencode(r);\n" + S16
  const JsonPre := "\n" + S16 + "temp = jsonencode("
  const JsonPost := ");\n" + S16

  /** The MATLAB text around a formatted command: a `'dict'` result is sent back as
      its keys and values, another result through `jsonencode`, and a command with
      `nargout` 0 is sent as it is. */
  function Wrap(c: string, n: NArgOut): string
  {
    match n
    case DictOut => DictPre + c + DictPost
    case NArg(k) => if k == 0 then c else JsonPre + c + JsonPost
  }

  function Inner(t: string, pre: string, post: string): string
  {
    if |pre| + |post| <= |t| then t[|pre|..|t| - |post|] else t
  }

  /** The formatted command inside a request's text. */
  function Unwrap(t: string, n: NArgOut): string
  {
    match n
    case DictOut => Inner(t, DictPre, DictPost)
    case NArg(k) => if k == 0 then t else Inner(t, JsonPre, JsonPost)
  }

  lemma UnwrapWrap(c: string, n: NArgOut)
    ensures Unwrap(Wrap(c, n), n) == c
  {
    match n
    case DictOut =>
      assert (DictPre + c + DictPost)[|DictPre|..|DictPre + c + DictPost| - |DictPost|] == c;
    case NArg(k) =>
      if k != 0 {
        assert (JsonPre + c + JsonPost)[|JsonPre|..|JsonPre + c + JsonPost| - |JsonPost|] == c;
      }
  }

  /** `MatlabBackend.commands.get(command)`: template and `nargout` by name, as the
      table has them (for `get_library_info` see `LibraryInfoOneLiteral`). */
  function Commands(command: string): Option<(string, NArgOut)>
  {
    match command
    case "get_library_info" => Some((LibraryInfoAsWritten, NArg(1)))
    case "list_component_libraries" => Some(("list_component_libraries()", NArg(1)))
    case "refresh_component_library" => Some(("refresh_component_library('{}')", NArg(0)))
    case "register_component_library" => Some(("register_component_library('{}', {})", NArg(0)))
    case "get_or_create_component_library" => Some(("get_or_create_component_library('{}', 1)", NArg(0)))
    case "remove_component_library" => Some(("remove_component_library('{}')", NArg(0)))
    case "register_component_from_file" => Some(("register_component_from_file('{}', '{}')", NArg(1)))
    case "unregister_component" => Some(("unregister_component('{}', '{}')", NArg(0)))
    case "export_component_library" => Some(("export_component_library('{}', '{}')", NArg(0)))
    case "get_component_info" => Some(("get_component_info('{}')", NArg(1)))
    case "get_available_plugins" => Some(("get_available_plugins(); ", DictOut))
    case "get_component_params" =>
      Some(("jsonify_component_param_description(ComponentManager.get('{}').get_component_params('{}', '{}'))", NArg(1)))
    case "get_plugin_info_from_lib" => Some(("get_plugin_info_from_lib('{}', '{}')", NArg(1)))
    case "generate_control_environment" => Some(("generate_control_environment('{}', '{}', {})", NArg(0)))
    case "create_environment" => Some(("create_environment('{}', '{}')", NArg(0)))
    case _ => None
  }

  function ArityMessage(t: string, given: nat): string
  {
    "Command '" + t + "' expects " + NatToString(HoleCount(t)) + " arguments, but " + NatToString(given) + " were given."
  }

  /** The request `run_command(command, *args)` sends, each argument given by its
      `str()`. A `csb:` command goes out verbatim and its arguments are ignored; the
      arity message quotes the template, not the command's name. */
  function RunCommandText(command: string, args: seq<string>): (r: Result<Request>)
    ensures StartsWith(command, "csb:") ==> r == Ok(Request(command, NArg(0), false))
    ensures !StartsWith(command, "csb:") && Commands(command).None? ==> r == Err(Exception("Unknown command '" + command + "'"))
    ensures !StartsWith(command, "csb:") && Commands(command).Some? ==>
      (HoleCount(Commands(command).value.0) != |args| ==>
         r == Err(Exception(ArityMessage(Commands(command).value.0, |args|)))) &&
      (HoleCount(Commands(command).value.0) == |args| ==>
         r.Ok? && r.value.isJson && r.value.nargout == Commands(command).value.1 &&
         Format(Commands(command).value.0, args).Ok? &&
         r.value.text == Wrap(Format(Commands(command).value.0, args).value, Commands(command).value.1) &&
         Unwrap(r.value.text, r.value.nargout) == Format(Commands(command).value.0, args).value)
  {
    if StartsWith(command, "csb:") then Ok(Request(command, NArg(0), false))
    else if Commands(command).None? then Err(Exception("Unknown command '" + command + "'"))
    else
      var (t, n) := Commands(command).value;
      if HoleCount(t) != |args| then Err(Exception(ArityMessage(t, |args|)))
      else
        FormatDefined(t, args);
        var c := Format(t, args).value;
        UnwrapWrap(c, n);
        Ok(Request(Wrap(c, n), n, true))
  }

  /** `run_command(command, *args)`: the request, then the daemon's reply parsed. */
  function RunCommand(json5: JsonCodec, command: string, args: seq<string>, stream: Wire, first: nat): (r: Result<Value>)
    ensures StartsWith(command, "csb:") && r.Ok? ==> r == Ok(Str(Recv(stream, 1024)))
    ensures RunCommandText(command, args).Err? ==> r == Err(RunCommandText(command, args).error)
    ensures RunCommandText(command, args).Ok? ==>
      var req := RunCommandText(command, args).value;
      r == EngEval(json5, req.nargout, req.isJson, stream, first)
  {
    var req :- RunCommandText(command, args);
    EngEval(json5, req.nargout, req.isJson, stream, first)
  }

  /** A table command given the right number of arguments raises the daemon's message
      when MATLAB answers with an error frame, however the first read splits it. */
  lemma CommandErrorReachesCaller(json5: JsonCodec, command: string, args: seq<string>, e: string, first: nat)
    requires !StartsWith(command, "csb:") && Commands(command).Some?
    requires HoleCount(Commands(command).value.0) == |args|
    requires |e| <= 1015
    requires first == 1 || first >= 5
    ensures RunCommand(json5, command, args, ErrorFrame(e), first) == Err(Exception(" " + e))
  {
    var req := RunCommandText(command, args).value;
    assert req.isJson;
    ErrorReachesCaller(json5, req.nargout, e, first);
  }

  /** A table command's reply in a success frame reaches `parse_response` whole. */
  lemma CommandSuccessReply(json5: JsonCodec, command: string, args: seq<string>, payload: string, first: nat)
    requires !StartsWith(command, "csb:") && Commands(command).Some?
    requires HoleCount(Commands(command).value.0) == |args|
    requires |payload| < 0x1_0000_0000 && first >= 5
    ensures RunCommand(json5, command, args, SuccessFrame(payload), first) ==
      ParseResponse(json5, payload, Commands(command).value.1, true)
  {
    var req := RunCommandText(command, args).value;
    SuccessFrameRoundTrip(payload, first);
  }

  /** A non-JSON reply, such as the reply to a `csb:` command, is the daemon's text
      unless it carries an error prefix. */
  lemma CsbReplyIsRaw(json5: JsonCodec, reply: string, first: nat)
    requires |reply| <= 1024
    requires !StartsWith(reply, CsbErrPrefix) && !StartsWith(reply, ErrPrefix)
    ensures EngEval(json5, NArg(0), false, reply, first) == Ok(Str(reply))
  {
    assert Recv(reply, 1024) == reply;
  }

  predicate NoBrace(s: string)
  {
    forall i :: 0 <= i < |s| ==> s[i] != '{'
  }

  /** A template with two fields between plain text. */
  lemma FormatTwo(p: string, m: string, q: string, a: string, b: string)
    requires NoBrace(p) && NoBrace(m) && NoBrace(q)
    ensures Format(p + "{}" + m + "{}" + q, [a, b]) == Ok(p + a + m + b + q)
  {
    FormatPlain(q, "", []);
    assert q + "" == q;
    FormatHole(q, b, []);
    assert [b] + [] == [b];
    FormatPlain(m, "{}" + q, [b]);
    FormatHole(m + ("{}" + q), a, [b]);
    assert [a] + [b] == [a, b];
    FormatPlain(p, "{}" + (m + ("{}" + q)), [a, b]);
    assert p + "{}" + m + "{}" + q == p + ("{}" + (m + ("{}" + q)));
    assert p + (a + (m + (b + q))) == p + a + m + b + q;
  }

  /** As written the `get_library_info` template puts both fields inside one MATLAB
      string literal. */
  const LibraryInfoAsWritten := "get_library_info('{}, {}')"

  /** With the template as written the library and the flag arrive as a single text
      argument; corrected (`LibraryInfoFixed`) they are two arguments. */
  lemma LibraryInfoOneLiteral(a: string, b: string)
    ensures Format(LibraryInfoAsWritten, [a, b]) == Ok("get_library_info('" + a + ", " + b + "')")
  {
    assert NoBrace("get_library_info('") && NoBrace(", ") && NoBrace("')");
    assert LibraryInfoAsWritten == "get_library_info('" + "{}" + ", " + "{}" + "')";
    FormatTwo("get_library_info('", ", ", "')", a, b);
  }

  /** The evidently intended `get_library_info` template. */
  const LibraryInfoTemplate := "get_library_info('{}', {})"

  /** The corrected template quotes the library alone and passes the flag as a value. */
  lemma LibraryInfoFixed(a: string, b: string)
    ensures Format(LibraryInfoTemplate, [a, b]) == Ok("get_library_info('" + a + "', " + b + ")")
  {
    assert NoBrace("get_library_info('") && NoBrace("', ") && NoBrace(")");
    assert LibraryInfoTemplate == "get_library_info('" + "{}" + "', " + "{}" + ")";
    FormatTwo("get_library_info('", "', ", ")", a, b);
  }

  // ---------------------------------------------------------------------------
  // Starting the daemon

  /** What `get_daemon_source_path()` returns: the raw reply to `csb:path`. */
  function SourcePath(stream: Wire): string
  {
    Recv(stream, 1024)
  }

  /** The outcome of `start()` and the new `csb_path`. `running` and `stillRunning` are
      what `is_daemon_running()` reports before and after stopping, `started` what
      `start_daemon()` returns; the streams are the daemon's replies. */
  function StartSpec(json5: JsonCodec, restart: bool, path: Option<string>, running: bool, sourceStream: Wire,
                     exitStream: Wire, stillRunning: bool, started: bool, pathStream: Wire): (r: (Outcome, Option<string>))
    ensures running && !restart ==> r == (Pass, Some(SourcePath(sourceStream)))
    ensures running && restart && RunCommand(json5, "csb:exit", [], exitStream, 0).Ok? && stillRunning ==>
      r == (Fail(Exception("Could not stop existing matlab daemon.")), path)
    ensures (!running || (restart && RunCommand(json5, "csb:exit", [], exitStream, 0).Ok? && !stillRunning)) && !started ==>
      r == (Fail(Exception("Could not start matlab daemon.")), path)
    ensures r.0.Fail? ==> r.1 == path
    ensures r.0 == Pass <==>
      (running && !restart) ||
      ((!running || (RunCommand(json5, "csb:exit", [], exitStream, 0).Ok? && !stillRunning)) && started &&
       RunCommand(json5, "csb:path", [], pathStream, 0).Ok?)
    ensures r.0 == Pass && !(running && !restart) ==> r.1 == Some(SourcePath(pathStream))
  {
    if running && !restart then (Pass, Some(SourcePath(sourceStream)))
    else
      var stopped :=
        if !running then Pass
        else match RunCommand(json5, "csb:exit", [], exitStream, 0)
          case Err(e) => Fail(e)
          case Ok(_) => if stillRunning then Fail(Exception("Could not stop existing matlab daemon.")) else Pass;
      if stopped.Fail? then (stopped, path)
      else if !started then (Fail(Exception("Could not start matlab daemon.")), path)
      else match RunCommand(json5, "csb:path", [], pathStream, 0)
        case Err(e) => (Fail(e), path)
        case Ok(v) => (Pass, Some(SourcePath(pathStream)))
  }

  class Backend {
    const restartDaemon: bool
    var csbPath: Option<string>

    /** `MatlabBackend(restart_daemon)`: no path is known yet. */
    constructor(restart: bool)
      ensures restartDaemon == restart && csbPath == None
    {
      restartDaemon := restart;
      csbPath := None;
    }

    /** `start()`. */
    method Start(json5: JsonCodec, running: bool, sourceStream: Wire, exitStream: Wire,
                 stillRunning: bool, started: bool, pathStream: Wire) returns (r: Outcome)
      modifies this
      ensures (r, csbPath) ==
        StartSpec(json5, restartDaemon, old(csbPath), running, sourceStream, exitStream, stillRunning, started, pathStream)
    {
      if running && !restartDaemon {
        csbPath := Some(SourcePath(sourceStream));
        return Pass;
      }
      if running && restartDaemon {
        var stop := RunCommand(json5, "csb:exit", [], exitStream, 0);
        if stop.Err? {
          return Fail(stop.error);
        }
        if stillRunning {
          return Fail(Exception("Could not stop existing matlab daemon."));
        }
      }
      if !started {
        return Fail(Exception("Could not start matlab daemon."));
      }
      var p := RunCommand(json5, "csb:path", [], pathStream, 0);
      if p.Err? {
        return Fail(p.error);
      }
      csbPath := Some(p.value.s);
      r := Pass;
    }
  }
}
