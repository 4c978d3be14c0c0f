/** The component base class: the helpers every component inherits for
    running commands, building its argument parser, parsing a job's exec
    string, writing the shared cache and rendering blueprints. */
module Components {
  import opened Wrappers
  import opened Values
  import opened Text
  import opened Process
  import opened CacheStore

  /** Expiry, in seconds, that `set_cache` gives an entry unless told otherwise. */
  const DefaultExpire: int := 28800
  /** Default of the `--timeout` option every component declares. */
  const DefaultTimeout: int := 600

  // ---------------------------------------------------------------------
  // run_command
  // ---------------------------------------------------------------------

  /** The accepted return codes as given by the caller: left out (None), a
      single integer, or a list of integers. */
  datatype ReturnCodes = NoCodes | Code(code: int) | Codes(codes: seq<int>)

  /** The normalised list of accepted return codes. */
  function AcceptedCodes(rc: ReturnCodes): (codes: seq<int>)
    ensures forall c :: c in codes <==>
      (rc.NoCodes? && c == 0) || (rc.Code? && c == rc.code) || (rc.Codes? && c in rc.codes)
  {
    match rc
    case NoCodes => [0]
    case Code(n) => [n]
    case Codes(cs) => cs
  }

  /** The environment the command runs in: a non-empty overlay is laid over
      a copy of the ambient environment; otherwise the ambient one is used. */
  function OverlayEnv(ambient: Env, env: Option<Env>): (e: Env)
    ensures env.None? || env.value == map[] ==> e == ambient
    ensures env.Some? && env.value != map[] ==>
      && e.Keys == ambient.Keys + env.value.Keys
      && (forall k :: k in env.value ==> e[k] == env.value[k])
      && (forall k :: k in ambient && k !in env.value ==> e[k] == ambient[k])
  {
    if env.Some? && env.value != map[] then ambient + env.value else ambient
  }

  datatype CommandResult = CommandResult(output: string, error: string, success: bool)

  /** `run_command`: spawns `command` with both streams captured and reports
      whether its return code is one of the accepted ones. */
  function RunCommand(
    spawn: Invocation -> Outcome,
    ambient: Env,
    command: string,
    shell: bool := true,
    env: Option<Env> := None,
    execute: string := "/bin/sh",
    returnCodes: ReturnCodes := NoCodes): (r: CommandResult)
    ensures var o := spawn(Invocation(command, shell, OverlayEnv(ambient, env), execute, true));
      && r.output == o.output
      && r.error == o.error
      && (r.success <==> match returnCodes
                         case NoCodes => o.returnCode == 0
                         case Code(n) => o.returnCode == n
                         case Codes(cs) => o.returnCode in cs)
  {
    var o := spawn(Invocation(command, shell, OverlayEnv(ambient, env), execute, true));
    CommandResult(o.output, o.error, o.returnCode in AcceptedCodes(returnCodes))
  }

  // ---------------------------------------------------------------------
  // sanitized_args
  // ---------------------------------------------------------------------

  /** `sanitized_args`: every fragment split on whitespace, flattened in order. */
  function SanitizedArgs(execute: seq<string>): (args: seq<string>)
    ensures forall i :: 0 <= i < |args| ==> IsToken(args[i])
  {
    if execute == [] then []
    else
      SplitTokens(execute[0]);
      Split(execute[0]) + SanitizedArgs(execute[1..])
  }

  /** Grouping into fragments does not change the tokens: splitting each
      fragment gives what splitting the fragments joined by spaces gives. */
  lemma {:induction false} SanitizedArgsJoin(execute: seq<string>)
    ensures SanitizedArgs(execute) == Split(JoinWith(" ", execute))
  {
    if |execute| > 1 {
      SanitizedArgsJoin(execute[1..]);
      SplitAtSpace(execute[0], ' ', JoinWith(" ", execute[1..]));
      assert execute[0] + " " + JoinWith(" ", execute[1..])
          == execute[0] + [' '] + JoinWith(" ", execute[1..]);
    } else if |execute| == 1 {
      assert execute[1..] == [];
    }
  }

  /** The tokens keep every non-whitespace character of the fragments, in order. */
  lemma {:induction false} SanitizedArgsCharacters(execute: seq<string>)
    ensures Concat(SanitizedArgs(execute)) == Concat(seq(|execute|, i requires 0 <= i < |execute| => NonSpace(execute[i])))
  {
    var ns := seq(|execute|, i requires 0 <= i < |execute| => NonSpace(execute[i]));
    if execute != [] {
      SanitizedArgsCharacters(execute[1..]);
      SplitKeepsCharacters(execute[0]);
      ConcatAppend(Split(execute[0]), SanitizedArgs(execute[1..]));
      assert ns[1..] == seq(|execute| - 1, i requires 0 <= i < |execute| - 1 => NonSpace(execute[1..][i]));
    }
  }

  // ---------------------------------------------------------------------
  // The argument parser: options_converter and args
  // ---------------------------------------------------------------------

  /** The `type` keyword handed to the parser. */
  datatype ArgType = ListType | DictType | IntType | StrType
  /** The `action` keyword handed to the parser. */
  datatype ArgAction = StoreTrue | ShowHelp

  /** The keyword arguments of one `add_argument` call. */
  datatype Options = Options(
    help: Option<Value>,
    default: Option<Value>,
    required: Option<bool>,
    action: Option<ArgAction>,
    argType: Option<ArgType>,
    choices: Option<Value>,
    nargs: Option<string>)

  const NoOptions := Options(None, None, None, None, None, None, None)

  /** One `add_argument` call: the option string, its keywords, and the
      mutually exclusive group it was added to, if any. */
  datatype Argument = Argument(name: string, options: Options, group: Option<nat>)

  /** One entry of the option document: the option key and its fields. */
  type OptionSpec = (string, map<string, Value>)

  predicate AllStrings(items: seq<Value>) {
    forall i :: 0 <= i < |items| ==> items[i].VStr?
  }

  function Strings(items: seq<Value>): (ss: seq<string>)
    requires AllStrings(items)
    ensures |ss| == |items| && forall i :: 0 <= i < |items| ==> items[i] == VStr(ss[i])
  {
    seq(|items|, i requires 0 <= i < |items| => items[i].s)
  }

  /** The `help` keyword from a `description` field: omitted when falsy, a
      list joined with single spaces (a non-string item makes the join raise),
      anything else passed through. */
  function HelpOption(description: Value): (r: Result<Option<Value>, string>)
    ensures !Truthy(description) ==> r == Success(None)
    ensures Truthy(description) && description.VList? && AllStrings(description.items) ==>
      r == Success(Some(VStr(JoinWith(" ", Strings(description.items)))))
    ensures r.Failure? <==> Truthy(description) && description.VList? && !AllStrings(description.items)
    ensures Truthy(description) && !description.VList? ==> r == Success(Some(description))
  {
    if !Truthy(description) then Success(None)
    else if description.VList? then
      if AllStrings(description.items) then Success(Some(VStr(JoinWith(" ", Strings(description.items)))))
      else Failure("TypeError: sequence item: expected str instance")
    else Success(Some(description))
  }

  predicate IsYesOrTrue(s: string) {
    Lower(s) == "yes" || Lower(s) == "true"
  }

  /** The `required` keyword: a boolean as-is, True for "yes"/"true" in any
      case, otherwise omitted. */
  function RequiredOption(required: Value): (r: Option<bool>)
    ensures r == Some(true) <==> required == VBool(true) || (required.VStr? && IsYesOrTrue(required.s))
    ensures r == Some(false) <==> required == VBool(false)
  {
    match required
    case VBool(b) => Some(b)
    case VStr(s) => if IsYesOrTrue(s) then Some(true) else None
    case _ => None
  }

  /** The `action` and `type` keywords from a `type` field, matched ignoring case. */
  function TypeOption(t: Value): (r: (Option<ArgAction>, Option<ArgType>))
    ensures r.0 == Some(StoreTrue) <==> t.VStr? && Lower(t.s) == "bool"
    ensures r.0 == None || r.1 == None
    ensures r.1 == Some(ListType) <==> t.VStr? && Lower(t.s) == "list"
    ensures r.1 == Some(DictType) <==> t.VStr? && Lower(t.s) == "dict"
    ensures r.1 == Some(IntType) <==> t.VStr? && Lower(t.s) == "int"
    ensures r.1 == Some(StrType) <==> t.VStr? && Lower(t.s) == "str"
    ensures r == (None, None) <==> !t.VStr? || Lower(t.s) !in {"bool", "list", "dict", "int", "str"}
  {
    if !t.VStr? then (None, None)
    else
      var l := Lower(t.s);
      if l == "bool" then (Some(StoreTrue), None)
      else if l == "list" then (None, Some(ListType))
      else if l == "dict" then (None, Some(DictType))
      else if l == "int" then (None, Some(IntType))
      else if l == "str" then (None, Some(StrType))
      else (None, None)
  }

  function IfTruthy(v: Value): Option<Value> {
    if Truthy(v) then Some(v) else None
  }

  /** One iteration of `options_converter`: the `add_argument` call for one
      entry of the option document. It raises when the description list
      cannot be joined, and when a `bool` entry has choices, since the
      store_true action takes no `choices` keyword. */
  function ConvertOption(spec: OptionSpec): Result<Argument, string> {
    var fields := spec.1;
    var help := HelpOption(Lookup(fields, "description"));
    if help.Failure? then Failure(help.error)
    else
      var (action, argType) := TypeOption(Lookup(fields, "type"));
      if action == Some(StoreTrue) && Truthy(Lookup(fields, "choices")) then
        Failure("TypeError: __init__() got an unexpected keyword argument 'choices'")
      else
        Success(Argument(
          "--" + spec.0,
          Options(
            help.value,
            IfTruthy(Lookup(fields, "default")),
            RequiredOption(Lookup(fields, "required")),
            action,
            argType,
            IfTruthy(Lookup(fields, "choices")),
            None),
          None))
  }

  /** What `add_argument` receives for an entry, and when the entry makes
      `options_converter` raise instead. */
  lemma ConvertOptionSpec(spec: OptionSpec)
    ensures var r := ConvertOption(spec); var description := Lookup(spec.1, "description");
      r.Failure? <==>
        || (Truthy(description) && description.VList? && !AllStrings(description.items))
        || (TypeOption(Lookup(spec.1, "type")).0 == Some(StoreTrue) && Truthy(Lookup(spec.1, "choices")))
    ensures var r := ConvertOption(spec); r.Success? ==>
      var o := r.value.options;
      && r.value.name == "--" + spec.0
      && r.value.group == None
      && o.nargs == None
      && (o.default.Some? <==> Truthy(Lookup(spec.1, "default")))
      && (o.default.Some? ==> o.default.value == spec.1["default"])
      && (o.choices.Some? <==> Truthy(Lookup(spec.1, "choices")))
      && (o.choices.Some? ==> o.choices.value == spec.1["choices"])
      && (o.help.Some? <==> Truthy(Lookup(spec.1, "description")))
      && o.help == HelpOption(Lookup(spec.1, "description")).value
      && o.required == RequiredOption(Lookup(spec.1, "required"))
      && (o.action, o.argType) == TypeOption(Lookup(spec.1, "type"))
  {
  }

  /** "yes" and "true" are accepted whatever the case of each letter. */
  lemma {:induction false} YesOrTrueAnyCase(s: string)
    ensures IsYesOrTrue(s) <==>
      (|s| == 3 && s[0] in "yY" && s[1] in "eE" && s[2] in "sS")
      || (|s| == 4 && s[0] in "tT" && s[1] in "rR" && s[2] in "uU" && s[3] in "eE")
  {
    LowerMatches(s, "yes");
    LowerMatches(s, "true");
  }

  /** A description given as a list of words becomes one help text whose
      words are exactly those items. */
  lemma HelpJoinsWords(description: Value)
    requires description.VList? && description.items != []
    requires forall i :: 0 <= i < |description.items| ==>
      description.items[i].VStr? && IsToken(description.items[i].s)
    ensures HelpOption(description).Success?
    ensures var h := HelpOption(description).value;
      h.Some? && h.value.VStr? && Split(h.value.s) == Strings(description.items)
  {
    SplitJoin(Strings(description.items));
  }

  /** What `options_converter` leaves behind: the arguments it added, in
      order, and the error that stopped it, if any. */
  datatype Converted = Converted(args: seq<Argument>, error: Option<string>)

  /** The loop of `options_converter` with the conversion of one entry as a
      parameter: convert the entries in order, stopping at the first that fails. */
  function ConvertAllWith(convert: OptionSpec -> Result<Argument, string>, spec: seq<OptionSpec>): Converted {
    if spec == [] then Converted([], None)
    else
      match convert(spec[0])
      case Failure(e) => Converted([], Some(e))
      case Success(a) =>
        var rest := ConvertAllWith(convert, spec[1..]);
        Converted([a] + rest.args, rest.error)
  }

  /** For any conversion, the loop adds one argument per entry, in order,
      or stops at the first entry that fails, having added the arguments of
      every entry before it. */
  lemma {:induction false} ConvertAllWithSpec(convert: OptionSpec -> Result<Argument, string>, spec: seq<OptionSpec>)
    ensures ConvertAllWith(convert, spec).error.None? <==>
      forall i :: 0 <= i < |spec| ==> convert(spec[i]).Success?
    ensures ConvertAllWith(convert, spec).error.None? ==>
      && |ConvertAllWith(convert, spec).args| == |spec|
      && forall i :: 0 <= i < |spec| ==> ConvertAllWith(convert, spec).args[i] == convert(spec[i]).value
    ensures ConvertAllWith(convert, spec).error.Some? ==>
      var j := |ConvertAllWith(convert, spec).args|;
      && j < |spec|
      && convert(spec[j]) == Failure(ConvertAllWith(convert, spec).error.value)
      && forall i :: 0 <= i < j ==>
           convert(spec[i]).Success? && ConvertAllWith(convert, spec).args[i] == convert(spec[i]).value
  {
    if spec != [] {
      ConvertAllWithSpec(convert, spec[1..]);
      var c := ConvertAllWith(convert, spec);
      if convert(spec[0]).Success? {
        var rest := ConvertAllWith(convert, spec[1..]);
        assert c.args == [convert(spec[0]).value] + rest.args;
        forall i | 1 <= i < |spec| ensures spec[i] == spec[1..][i - 1] { }
        if c.error.None? {
          assert forall i :: 0 <= i < |spec| ==> convert(spec[i]).Success?;
        } else {
          assert !convert(spec[1..][|rest.args|]).Success?;
        }
      }
    }
  }

  /** What `options_converter` adds to the parser and the error that stops it. */
  function ConvertAll(spec: seq<OptionSpec>): Converted {
    ConvertAllWith(ConvertOption, spec)
  }

  /** `options_converter` either adds one argument per entry, in document
      order, or stops at the first entry whose conversion fails, having added
      the arguments of every entry before it. */
  lemma ConvertAllSpec(spec: seq<OptionSpec>)
    ensures ConvertAll(spec).error.None? <==>
      forall i :: 0 <= i < |spec| ==> ConvertOption(spec[i]).Success?
    ensures ConvertAll(spec).error.None? ==>
      && |ConvertAll(spec).args| == |spec|
      && forall i :: 0 <= i < |spec| ==> ConvertAll(spec).args[i] == ConvertOption(spec[i]).value
    ensures ConvertAll(spec).error.Some? ==>
      var j := |ConvertAll(spec).args|;
      && j < |spec|
      && ConvertOption(spec[j]) == Failure(ConvertAll(spec).error.value)
      && forall i :: 0 <= i < j ==>
           ConvertOption(spec[i]).Success? && ConvertAll(spec).args[i] == ConvertOption(spec[i]).value
  {
    ConvertAllWithSpec(ConvertOption, spec);
  }

  /** The options `args` declares for every component, in order. */
  function CommonArguments(): (args: seq<Argument>)
    ensures |args| == 4
    ensures args[0].name == "--exec-help" && args[0].options.action == Some(ShowHelp)
    ensures args[1].name == "--skip-cache" && args[1].options.action == Some(StoreTrue)
    ensures args[2].name == "--run-once" && args[2].options.action == Some(StoreTrue)
    ensures args[3].name == "--timeout" && args[3].options.default == Some(VInt(DefaultTimeout))
      && args[3].options.argType == Some(IntType)
    ensures forall i :: 0 <= i < 4 ==> args[i].group == None && args[i].options.help.Some?
  {
    [ Argument("--exec-help", NoOptions.(action := Some(ShowHelp),
                 help := Some(VStr("Show this execution help message."))), None),
      Argument("--skip-cache", NoOptions.(action := Some(StoreTrue),
                 help := Some(VStr("For a task to skip the on client cache."))), None),
      Argument("--run-once", NoOptions.(action := Some(StoreTrue),
                 help := Some(VStr("Force a given task to run once."))), None),
      Argument("--timeout", NoOptions.(default := Some(VInt(DefaultTimeout)), argType := Some(IntType),
                 help := Some(VStr("Set the action timeout. Default %(default)s."))), None) ]
  }

  // ---------------------------------------------------------------------
  // exec_parser
  // ---------------------------------------------------------------------

  /** The attributes of a parsed-arguments namespace. */
  type Namespace = map<string, Value>

  /** What the parser's `parse_known_args` returns. */
  datatype ParsedArgs = ParsedArgs(known: Namespace, unknown: seq<string>)

  /** The parser itself is not modelled: a caller supplies `parse`, which
      maps the declared arguments and the tokens to what the parser returns,
      or to the message of the SystemExit it raises instead (a `help` action
      such as `--exec-help` prints the help and exits, as does a parse error). */
  type Parse = (seq<Argument>, seq<string>) -> Result<ParsedArgs, string>

  /** The help switch was given: the namespace has a truthy `exec_help`. */
  predicate HelpRequested(known: Namespace) {
    "exec_help" in known && Truthy(known["exec_help"])
  }

  /** The namespace after the pre-formatted argument values are written over it. */
  function Overlay(known: Namespace, argVars: map<string, Value>): (ns: Namespace)
    ensures ns.Keys == known.Keys + argVars.Keys
    ensures forall k :: k in argVars ==> ns[k] == argVars[k]
    ensures forall k :: k in known && k !in argVars ==> ns[k] == known[k]
  {
    known + argVars
  }

  // ---------------------------------------------------------------------
  // blueprinter
  // ---------------------------------------------------------------------

  /** The template engine is not modelled: a caller supplies `render`, which
      gives the rendered text, or None where rendering raises. */
  type Render = (string, map<string, Value>) -> Option<string>

  /** `blueprinter`: the content unchanged when there are no values, the
      rendered text when rendering succeeds, None when it raises (values that
      are not a mapping cannot be passed as keyword arguments and raise too). */
  function Blueprinter(render: Render, content: string, values: Value): (r: Option<string>)
    ensures !Truthy(values) ==> r == Some(content)
    ensures Truthy(values) && !values.VDict? ==> r == None
    ensures Truthy(values) && values.VDict? ==> r == render(content, values.entries)
  {
    if !Truthy(values) then Some(content)
    else if values.VDict? then render(content, values.entries)
    else None
  }

  // ---------------------------------------------------------------------
  // set_cache
  // ---------------------------------------------------------------------

  /** The nested-mapping merge helper is not part of this model: a caller
      supplies it as `merge`. */
  type Merge = (Value, Value) -> Value

  /** `set_cache`: a plain set, or, with `valueUpdate`, pop the old value
      (an empty mapping when absent) and store its merge with `value`. */
  method SetCache(
    cache: Cache,
    key: string,
    value: Value,
    merge: Merge,
    valueUpdate: bool := false,
    expire: int := DefaultExpire,
    tag: Option<string> := None)
    modifies cache
    ensures !valueUpdate ==> cache.entries == old(cache.entries)[key := Entry(value, tag, expire)]
    ensures valueUpdate ==>
      cache.entries == old(cache.entries)[key := Entry(merge(old(cache.Get(key, VDict(map[]))), value), tag, expire)]
    ensures forall k :: k != key ==> (k in cache.entries <==> k in old(cache.entries))
    ensures forall k :: k != key && k in cache.entries ==> cache.entries[k] == old(cache.entries)[k]
  {
    var v := value;
    if valueUpdate {
      var orig := cache.Pop(key, VDict(map[]));
      v := merge(orig, value);
    }
    cache.Set(key, v, tag, expire);
  }

  // ---------------------------------------------------------------------
  // File access for file_blueprinter
  // ---------------------------------------------------------------------

  /** The files a worker can see: their text, and which of them may be
      opened for writing. Opening a missing file raises; so does opening a
      file that is not writable for writing. */
  class FileStore {
    var contents: map<string, string>
    var writable: set<string>

    constructor (contents: map<string, string>, writable: set<string>)
      ensures this.contents == contents && this.writable == writable
    {
      this.contents := contents;
      this.writable := writable;
    }

    /** `open(path).read()`. */
    method Read(path: string) returns (r: Result<string, string>)
      ensures path in contents ==> r == Success(contents[path])
      ensures path !in contents ==> r.Failure?
    {
      if path in contents {
        r := Success(contents[path]);
      } else {
        r := Failure("No such file or directory");
      }
    }

    /** `open(path, "w").write(text)`. */
    method Write(path: string, text: string) returns (ok: bool)
      modifies this
      ensures ok <==> path in old(writable)
      ensures writable == old(writable)
      ensures contents == if ok then old(contents)[path := text] else old(contents)
    {
      ok := path in writable;
      if ok {
        contents := contents[path := text];
      }
    }
  }

  // ---------------------------------------------------------------------
  // The component object
  // ---------------------------------------------------------------------

  class ComponentBase {
    const desc: Option<string>
    /** Whether jobs of this component may be answered from the cache. */
    var cacheable: bool
    /** The arguments declared on the parser so far, in order. */
    var parser: seq<Argument>
    var knownArgs: Option<Namespace>
    var unknownArgs: Option<seq<string>>

    constructor (desc: Option<string> := None)
      ensures this.desc == desc && cacheable
      ensures parser == [] && knownArgs == None && unknownArgs == None
    {
      this.desc := desc;
      cacheable := true;
      parser := [];
      knownArgs := None;
      unknownArgs := None;
    }

    /** `args`: a fresh parser with the common options, followed by what the
        concrete component declares (`componentArgs`). */
    method Args(componentArgs: seq<Argument> := [])
      modifies this
      ensures parser == CommonArguments() + componentArgs
      ensures knownArgs == old(knownArgs) && unknownArgs == old(unknownArgs)
      ensures cacheable == old(cacheable)
    {
      parser := CommonArguments() + componentArgs;
    }

    /** `options_converter`: one argument per entry of the option document,
        added in order; the first entry that cannot be converted stops it. */
    method OptionsConverter(spec: seq<OptionSpec>) returns (error: Option<string>)
      modifies this
      ensures parser == old(parser) + ConvertAll(spec).args
      ensures error == ConvertAll(spec).error
      ensures knownArgs == old(knownArgs) && unknownArgs == old(unknownArgs)
      ensures cacheable == old(cacheable)
    {
      var i := 0;
      while i < |spec|
        invariant 0 <= i <= |spec|
        invariant parser + ConvertAll(spec[i..]).args == old(parser) + ConvertAll(spec).args
        invariant ConvertAll(spec[i..]).error == ConvertAll(spec).error
        invariant knownArgs == old(knownArgs) && unknownArgs == old(unknownArgs)
        invariant cacheable == old(cacheable)
      {
        assert spec[i..][0] == spec[i] && spec[i..][1..] == spec[i + 1..];
        var r := ConvertOption(spec[i]);
        if r.Failure? {
          return Some(r.error);
        }
        parser := parser + [r.value];
        i := i + 1;
      }
      assert spec[i..] == [];
      return None;
    }

    /** `exec_parser`: parses the sanitized tokens; when the parser exits
        nothing is recorded, otherwise the result is recorded, the check for
        a truthy `exec_help` attribute aborts, and failing that the
        pre-formatted argument values are written over the parsed ones. */
    method ExecParser(parse: Parse, execute: seq<string>, argVars: map<string, Value>)
      returns (r: Result<ParsedArgs, string>)
      modifies this
      ensures var p := parse(old(parser), SanitizedArgs(execute));
        && (p.Failure? ==>
              r == Failure(p.error) && knownArgs == old(knownArgs) && unknownArgs == old(unknownArgs))
        && (p.Success? ==> unknownArgs == Some(p.value.unknown))
        && (p.Success? && HelpRequested(p.value.known) ==>
              r.Failure? && knownArgs == Some(p.value.known))
        && (p.Success? && !HelpRequested(p.value.known) ==>
              && knownArgs == Some(Overlay(p.value.known, argVars))
              && r == Success(ParsedArgs(Overlay(p.value.known, argVars), p.value.unknown)))
      ensures parser == old(parser) && cacheable == old(cacheable)
    {
      var parsed := parse(parser, SanitizedArgs(execute));
      if parsed.Failure? {
        return Failure(parsed.error);
      }
      var p := parsed.value;
      knownArgs, unknownArgs := Some(p.known), Some(p.unknown);
      if HelpRequested(p.known) {
        return Failure("SystemExit: help requested");
      }
      var pending := argVars.Keys;
      while pending != {}
        invariant pending <= argVars.Keys
        invariant knownArgs.Some?
        invariant knownArgs.value == p.known + map k | k in argVars.Keys - pending :: argVars[k]
        invariant unknownArgs == Some(p.unknown)
        invariant parser == old(parser) && cacheable == old(cacheable)
        decreases pending
      {
        var k :| k in pending;
        knownArgs := Some(knownArgs.value[k := argVars[k]]);
        pending := pending - {k};
      }
      assert (map k | k in argVars.Keys - {} :: argVars[k]) == argVars;
      r := Success(ParsedArgs(knownArgs.value, p.unknown));
    }

    /** `server` of the base class: declare the arguments, then parse. The
        source returns None and its callers read `known_args`; the model also
        returns the parse, or the exit that aborted it. */
    method Server(componentArgs: seq<Argument>, parse: Parse, execute: seq<string>, argVars: map<string, Value>)
      returns (r: Result<ParsedArgs, string>)
      modifies this
      ensures parser == CommonArguments() + componentArgs
      ensures var p := parse(parser, SanitizedArgs(execute));
        && (p.Failure? ==>
              r == Failure(p.error) && knownArgs == old(knownArgs) && unknownArgs == old(unknownArgs))
        && (p.Success? ==> unknownArgs == Some(p.value.unknown))
        && (p.Success? && HelpRequested(p.value.known) ==>
              r.Failure? && knownArgs == Some(p.value.known))
        && (p.Success? && !HelpRequested(p.value.known) ==>
              && knownArgs == Some(Overlay(p.value.known, argVars))
              && r == Success(ParsedArgs(Overlay(p.value.known, argVars), p.value.unknown)))
      ensures cacheable == old(cacheable)
    {
      Args(componentArgs);
      r := ExecParser(parse, execute, argVars);
    }

    /** `file_blueprinter`: renders the file against the cached `args`
        values and writes it back; gives False without writing when reading
        fails, rendering fails or renders nothing, or writing fails. */
    method FileBlueprinter(render: Render, cache: Cache, files: FileStore, path: string)
      returns (ok: bool)
      modifies files
      ensures files.writable == old(files.writable)
      ensures path !in old(files.contents) ==> !ok && files.contents == old(files.contents)
      ensures path in old(files.contents) ==>
        var b := Blueprinter(render, old(files.contents)[path], cache.Get("args"));
        && (ok <==> b.Some? && b.value != "" && path in files.writable)
        && files.contents == if ok then old(files.contents)[path := b.value] else old(files.contents)
    {
      var read := files.Read(path);
      if read.Failure? {
        return false;
      }
      var rendered := Blueprinter(render, read.value, cache.Get("args"));
      if rendered.None? || rendered.value == "" {
        return false;
      }
      ok := files.Write(path, rendered.value);
    }
  }
}
