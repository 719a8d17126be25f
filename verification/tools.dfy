/** The three built-in tools: their advertised schemas, the registry that
    dispatches on a tool name, and the text each handler hands back to the
    model.  A handler's file or process I/O is an abstract `Outcome`; what is
    modelled exactly is how each handler turns that outcome into a string,
    and that it never raises. */
module Tools {
  import opened Common

  datatype Handler = ReadFile | WriteFile | ExecuteBash

  /** The arguments object the model sends with a tool call, restricted to
      string-valued fields. */
  type Input = map<string, string>

  /** A value thrown inside a handler: an `Error` instance (whose `message`
      is reported) or any other value (whose `String(...)` rendering is). */
  datatype Thrown = ErrorObject(message: string) | OtherValue(rendered: string)

  /** Abstract result of a handler's I/O: it completed with a value, or
      something inside the `try` block threw. */
  datatype Outcome<+T> = Ok(value: T) | Fail(error: Thrown)

  /** What a finished `sh -c` process wrote on its two pipes. The exit status
      is not part of it: the handler never looks at it. */
  datatype Streams = Streams(stdout: string, stderr: string)

  /** The environment the handlers run against. Each call gets its call
      number `k` (so that a run may see a changing file system) and the
      argument fields it reads, `None` when the field is absent. */
  datatype Io = Io(
    read: (nat, Option<string>) -> Outcome<string>,
    write: (nat, Option<string>, Option<string>) -> Outcome<()>,
    run: (nat, Option<string>) -> Outcome<Streams>)

  /** What a reader of a handler's string can recover about the outcome:
      the value, or the error text. */
  datatype Report<+T> = Done(value: T) | Failed(text: string)

  const ReadErrorPrefix: string := "Error reading file: "
  const WriteErrorPrefix: string := "Error writing file: "
  const WriteOkText: string := "File written successfully"
  const BashErrorPrefix: string := "Error executing command: "
  const StderrHeader: string := "STDERR:\n"
  const StdoutHeader: string := "\nSTDOUT:\n"

  /** The text a handler reports for a thrown value: an `Error`'s message,
      or the string form of anything else. */
  function ErrorText(e: Thrown): (text: string)
  {
    match e
    case ErrorObject(m) => m
    case OtherValue(t) => t
  }

  function Observe<T>(o: Outcome<T>): (r: Report<T>)
  {
    match o
    case Ok(v) => Done(v)
    case Fail(e) => Failed(ErrorText(e))
  }

  // ---------------------------------------------------------------------
  // Handler results

  function ReadFileResult(o: Outcome<string>): (r: string)
  {
    match o
    case Ok(text) => text
    case Fail(e) => ReadErrorPrefix + ErrorText(e)
  }

  function WriteFileResult(o: Outcome<()>): (r: string)
  {
    match o
    case Ok(_) => WriteOkText
    case Fail(e) => WriteErrorPrefix + ErrorText(e)
  }

  function ExecuteBashResult(o: Outcome<Streams>): (r: string)
  {
    match o
    case Fail(e) => BashErrorPrefix + ErrorText(e)
    case Ok(Streams(out, err)) =>
      if err != "" then StderrHeader + err + StdoutHeader + out else out
  }

  function Arg(input: Input, key: string): (v: Option<string>)
  {
    if key in input then Some(input[key]) else None
  }

  /** Runs handler `h` as the `k`-th tool call of the session. */
  function Handle(h: Handler, input: Input, io: Io, k: nat): (r: string)
  {
    match h
    case ReadFile => ReadFileResult(io.read(k, Arg(input, "path")))
    case WriteFile => WriteFileResult(io.write(k, Arg(input, "path"), Arg(input, "content")))
    case ExecuteBash => ExecuteBashResult(io.run(k, Arg(input, "command")))
  }

  /** The argument fields each handler reads. */
  function Parameters(h: Handler): (keys: seq<string>)
  {
    match h
    case ReadFile => ["path"]
    case WriteFile => ["path", "content"]
    case ExecuteBash => ["command"]
  }

  function Restrict(input: Input, keys: seq<string>): (r: Input)
    ensures r.Keys <= input.Keys
    ensures forall key :: key in r ==> key in keys
  {
    map key | key in input && key in keys :: input[key]
  }

  /** A handler depends on no argument besides its declared parameters. */
  lemma HandleReadsOnlyParameters(h: Handler, input: Input, io: Io, k: nat)
    ensures Handle(h, input, io, k) == Handle(h, Restrict(input, Parameters(h)), io, k)
  {
    var r := Restrict(input, Parameters(h));
    match h
    case ReadFile =>
      assert Arg(r, "path") == Arg(input, "path");
    case WriteFile =>
      assert Arg(r, "path") == Arg(input, "path");
      assert Arg(r, "content") == Arg(input, "content");
    case ExecuteBash =>
      assert Arg(r, "command") == Arg(input, "command");
  }

  // ---------------------------------------------------------------------
  // Reading a handler's string back

  function DecodeReadFile(r: string): (rep: Report<string>)
  {
    if HasPrefix(ReadErrorPrefix, r) then Failed(r[|ReadErrorPrefix|..]) else Done(r)
  }

  /** `read_file` never throws, and its string determines the outcome unless
      the file's own text starts like an error report. */
  lemma ReadFileRoundTrip(o: Outcome<string>)
    requires o.Ok? ==> !HasPrefix(ReadErrorPrefix, o.value)
    ensures DecodeReadFile(ReadFileResult(o)) == Observe(o)
  {
    if o.Fail? {
      var r := ReadFileResult(o);
      assert r[..|ReadErrorPrefix|] == ReadErrorPrefix;
      assert r[|ReadErrorPrefix|..] == ErrorText(o.error);
    }
  }

  /** A file whose text is an error report reads exactly like a failed read. */
  lemma ReadFileAmbiguous()
    ensures ReadFileResult(Ok(ReadErrorPrefix + "ENOENT"))
         == ReadFileResult(Fail(ErrorObject("ENOENT")))
  {
  }

  function DecodeWriteFile(r: string): (rep: Option<Report<()>>)
  {
    if r == WriteOkText then Some(Done(()))
    else if HasPrefix(WriteErrorPrefix, r) then Some(Failed(r[|WriteErrorPrefix|..]))
    else None
  }

  /** `write_file` never throws and reports success with one fixed string
      that no failure report can equal, so its outcome is always recoverable. */
  lemma WriteFileRoundTrip(o: Outcome<()>)
    ensures DecodeWriteFile(WriteFileResult(o)) == Some(Observe(o))
  {
    match o
    case Ok(u) =>
      assert u == ();
    case Fail(e) =>
      var r := WriteFileResult(o);
      assert r[0] == WriteErrorPrefix[0];
      assert r[..|WriteErrorPrefix|] == WriteErrorPrefix;
      assert r[|WriteErrorPrefix|..] == ErrorText(e);
  }

  /** The stdout header occurs in `s` starting at index `i`. */
  predicate OccursAt(s: string, i: nat)
  {
    i + |StdoutHeader| <= |s| && s[i..i + |StdoutHeader|] == StdoutHeader
  }

  /** First occurrence of the stdout header at or after `from`. */
  function FindHeader(s: string, from: nat): (r: Option<nat>)
    decreases |s| - from
    ensures r.Some? ==> from <= r.value && OccursAt(s, r.value)
    ensures r.Some? ==> forall j :: from <= j < r.value ==> !OccursAt(s, j)
    ensures r.None? ==> forall j :: from <= j ==> !OccursAt(s, j)
  {
    if from + |StdoutHeader| > |s| then None
    else if OccursAt(s, from) then Some(from)
    else FindHeader(s, from + 1)
  }

  function DecodeExecuteBash(r: string): (rep: Report<Streams>)
  {
    if HasPrefix(BashErrorPrefix, r) then Failed(r[|BashErrorPrefix|..])
    else if HasPrefix(StderrHeader, r) then
      match FindHeader(r, |StderrHeader|)
      case Some(k) => Done(Streams(r[k + |StdoutHeader|..], r[|StderrHeader|..k]))
      case None => Done(Streams(r, ""))
    else Done(Streams(r, ""))
  }

  /** Outcomes whose `execute_bash` string is guaranteed to read back. Plain
      stdout must not start like a labelled or an error report; this suffices
      but is not exact. Non-empty stderr must not contain the stdout header,
      not even one completed by the header that follows it (only a stderr
      ending in `\nSTDOUT:` is completed that way); this is exact. */
  predicate BashReadable(o: Outcome<Streams>)
  {
    match o
    case Fail(_) => true
    case Ok(Streams(out, err)) =>
      if err == "" then !HasPrefix(BashErrorPrefix, out) && !HasPrefix(StderrHeader, out)
      else forall i :: 0 <= i < |err| ==> !OccursAt(err + StdoutHeader, i)
  }

  /** `execute_bash` never throws, keeps both streams when stderr is
      non-empty, and passes stdout through unchanged when it is empty. */
  lemma ExecuteBashRoundTrip(o: Outcome<Streams>)
    requires BashReadable(o)
    ensures DecodeExecuteBash(ExecuteBashResult(o)) == Observe(o)
  {
    var r := ExecuteBashResult(o);
    match o
    case Fail(e) =>
      assert r[..|BashErrorPrefix|] == BashErrorPrefix;
      assert r[|BashErrorPrefix|..] == ErrorText(e);
    case Ok(Streams(out, err)) =>
      if err != "" {
        LabelledOutputSplits(out, err);
      }
  }

  lemma LabelledOutputSplits(out: string, err: string)
    requires err != ""
    requires forall i :: 0 <= i < |err| ==> !OccursAt(err + StdoutHeader, i)
    ensures DecodeExecuteBash(StderrHeader + err + StdoutHeader + out) == Done(Streams(out, err))
  {
    var r := StderrHeader + err + StdoutHeader + out;
    var h := |StderrHeader|;
    var k := h + |err|;
    assert r[0] == 'S';
    assert !HasPrefix(BashErrorPrefix, r);
    assert r[..h] == StderrHeader;
    assert r[k..k + |StdoutHeader|] == StdoutHeader;
    assert OccursAt(r, k);
    forall j | h <= j < k
      ensures !OccursAt(r, j)
    {
      var e := err + StdoutHeader;
      assert !OccursAt(e, j - h);
      assert r[j..j + |StdoutHeader|] == e[j - h..j - h + |StdoutHeader|];
    }
    var f := FindHeader(r, h);
    assert f == Some(k);
    assert r[k + |StdoutHeader|..] == out;
    assert r[h..k] == err;
  }

  /** A command whose stdout is itself a labelled report is indistinguishable
      from one that wrote to stderr. */
  lemma ExecuteBashAmbiguous()
    ensures ExecuteBashResult(Ok(Streams(StderrHeader + "warn" + StdoutHeader + "out", "")))
         == ExecuteBashResult(Ok(Streams("out", "warn")))
  {
  }

  // ---------------------------------------------------------------------
  // Registry and advertised schemas

  datatype Property = Property(name: string, kind: string, description: string)

  datatype ToolSchema = ToolSchema(
    name: string,
    description: string,
    properties: seq<Property>,
    required: seq<string>)

  const Registry: map<string, Handler> :=
    map["read_file" := ReadFile, "write_file" := WriteFile, "execute_bash" := ExecuteBash]

  const Schemas: seq<ToolSchema> := [
    ToolSchema("read_file", "Read the contents of a file",
      [Property("path", "string", "The path to the file to read.")],
      ["path"]),
    ToolSchema("write_file", "Write content to a file (overwrites existing content)",
      [Property("path", "string", "The path to the file to write."),
       Property("content", "string", "The content to write to the file.")],
      ["path", "content"]),
    ToolSchema("execute_bash", "Execute a bash command and return its output",
      [Property("command", "string", "The bash command to execute.")],
      ["command"])
  ]

  function SchemaNames(ts: seq<ToolSchema>): (names: set<string>)
  {
    set i | 0 <= i < |ts| :: ts[i].name
  }

  /** The dispatch map and the advertised tool list name the same tools. */
  lemma RegistryMatchesSchemas()
    ensures Registry.Keys == SchemaNames(Schemas)
    ensures Registry.Keys == {"read_file", "write_file", "execute_bash"}
  {
    assert Schemas[0].name == "read_file";
    assert Schemas[1].name == "write_file";
    assert Schemas[2].name == "execute_bash";
  }

  /** No two advertised tools share a name. */
  lemma SchemaNamesDistinct()
    ensures forall i, j :: 0 <= i < j < |Schemas| ==> Schemas[i].name != Schemas[j].name
  {
  }

  /** Every advertised tool declares as required, and as string properties,
      exactly the arguments its handler reads. */
  lemma SchemasDeclareParameters()
    ensures forall i :: 0 <= i < |Schemas| ==>
      && Schemas[i].name in Registry
      && Schemas[i].required == Parameters(Registry[Schemas[i].name])
      && |Schemas[i].properties| == |Schemas[i].required|
      && forall j :: 0 <= j < |Schemas[i].properties| ==>
           Schemas[i].properties[j].name == Schemas[i].required[j]
           && Schemas[i].properties[j].kind == "string"
  {
  }

  /** Registry lookup by own keys only: the lookup the `!handler` guard is
      evidently meant to perform. */
  function Lookup(name: string): (h: Option<Handler>)
  {
    if name in Registry then Some(Registry[name]) else None
  }

  /** A name resolves to a handler exactly when it is an advertised tool, and
      then to the handler whose parameters that tool's schema requires. */
  lemma LookupFindsExactlyAdvertisedTools(name: string)
    ensures Lookup(name).Some? <==> name in SchemaNames(Schemas)
    ensures forall i :: 0 <= i < |Schemas| && Schemas[i].name == name ==>
      Lookup(name).Some? && Parameters(Lookup(name).value) == Schemas[i].required
  {
    RegistryMatchesSchemas();
    SchemasDeclareParameters();
  }

  // ---------------------------------------------------------------------
  // The lookup as written: `toolRegistry[name]` on an object literal

  /** Keys every object literal inherits from `Object.prototype`. */
  const ObjectPrototypeKeys: set<string> := {
    "constructor", "hasOwnProperty", "isPrototypeOf", "propertyIsEnumerable",
    "toLocaleString", "toString", "valueOf", "__proto__",
    "__defineGetter__", "__defineSetter__", "__lookupGetter__", "__lookupSetter__"
  }

  /** What `toolRegistry[name]` evaluates to. */
  datatype Binding = OwnHandler(handler: Handler) | Inherited(key: string)

  function LookupAsWritten(name: string): (b: Option<Binding>)
  {
    if name in Registry then Some(OwnHandler(Registry[name]))
    else if name in ObjectPrototypeKeys then Some(Inherited(name))
    else None
  }

  /** The guard `if (!handler)` lets an inherited key through: a tool call
      named `toString` is not rejected as unknown although no such tool
      exists. */
  lemma InheritedKeyPassesGuard()
    ensures "toString" !in SchemaNames(Schemas)
    ensures LookupAsWritten("toString") == Some(Inherited("toString"))
  {
    RegistryMatchesSchemas();
  }

  /** On every name that is not an inherited key the written lookup agrees
      with `Lookup`. */
  lemma LookupAsWrittenAgreesOffPrototype(name: string)
    ensures name !in ObjectPrototypeKeys ==>
      (LookupAsWritten(name).Some? <==> Lookup(name).Some?)
    ensures Lookup(name).Some? ==> LookupAsWritten(name) == Some(OwnHandler(Lookup(name).value))
  {
  }
}
