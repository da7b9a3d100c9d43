/**
 * The command registry of App: `commands` (name to handler), `messages` (name to
 * help metadata) and the help-column width `keyWidth`, with what addCommand,
 * addCommands, addByConfig and addObject do to them, as functions on a registry value.
 */
module Commands {
  import opened Wrappers
  import opened PhpString
  import opened Handlers

  /** The `$config` argument of addCommand: null, a description string, or an array of help fields. */
  datatype Config =
    | NoConfig
    | Text(text: string)
    | Fields(fields: map<string, string>)

  /** PHP's `!$config`: null, "" or "0", or an empty array. */
  predicate ConfigFalsy(c: Config) {
    match c
    case NoConfig => true
    case Text(s) => Falsy(s)
    case Fields(f) => f == map[]
  }

  /** Help metadata kept in `messages`: the three COMMAND_CONFIG fields, and the array's other keys in `extra`. */
  datatype Meta = Meta(desc: string, usage: string, help: string, extra: map<string, string>)

  const HelpKeys: set<string> := {"desc", "usage", "help"}

  /** App::COMMAND_CONFIG, the defaults every stored metadata array starts from. */
  function CommandConfig(): map<string, string> {
    map["desc" := "", "usage" := "", "help" := ""]
  }

  /** The metadata as the PHP array it stands for. */
  function AsArray(m: Meta): map<string, string> {
    (m.extra - HelpKeys) + map["desc" := m.desc, "usage" := m.usage, "help" := m.help]
  }

  function Field(f: map<string, string>, key: string): string {
    if key in f then f[key] else ""
  }

  /**
   * The metadata addCommand stores for a config that is not null: a string
   * becomes the trimmed description with empty usage and help, an array is
   * merged over the defaults.
   */
  function Normalize(c: Config): (m: Meta)
    requires !c.NoConfig?
    ensures m.extra.Keys !! HelpKeys
    ensures c.Text? ==> m.desc == Trim(c.text) && m.usage == "" && m.help == "" && m.extra == map[]
  {
    match c
    case Text(s) => Meta(Trim(s), "", "", map[])
    case Fields(f) => Meta(Field(f, "desc"), Field(f, "usage"), Field(f, "help"), f - HelpKeys)
  }

  /** An array config is `array_merge(COMMAND_CONFIG, $config)`: the defaults overlaid by the config's keys. */
  lemma NormalizeFieldsIsArrayMerge(f: map<string, string>)
    ensures AsArray(Normalize(Fields(f))) == CommandConfig() + f
  {
    var a := AsArray(Normalize(Fields(f)));
    var b := CommandConfig() + f;
    forall k ensures k in a <==> k in b {
    }
    forall k | k in a ensures a[k] == b[k] {
      if k !in HelpKeys {
        assert a[k] == f[k];
      }
    }
  }

  /** A string config is the array holding only its trimmed description. */
  lemma TextIsTrimmedDesc(s: string)
    ensures Normalize(Text(s)) == Normalize(Fields(map["desc" := Trim(s)]))
  {
    var f := map["desc" := Trim(s)];
    assert f.Keys == {"desc"};
    assert "usage" !in f && "help" !in f;
    assert (f - HelpKeys).Keys == {};
  }

  /** The registry part of App's state. */
  datatype Registry = Registry(commands: map<string, Handler>, messages: map<string, Meta>, keyWidth: int)

  /** Why a registration throws: a `callable` type error, or InvalidArgumentException with its message. */
  datatype RegError =
    | NotCallable
    | InvalidArguments(message: string)

  const InvalidAddArguments := "Invalid arguments for add command"
  const ObjectRequired := "Command handler must be an object and has method: __invoke"

  /**
   * App::addCommand (and App::add): binds `name` to `handler`, widens the help
   * column to fit the name, and stores the metadata unless the config is falsy.
   * A handler that is not callable fails the parameter type first; a falsy name
   * throws InvalidArgumentException. On failure nothing changes.
   */
  function Register(r: Registry, name: string, handler: Handler, config: Config): (res: Result<Registry, RegError>)
    ensures res.Success? <==> IsCallable(handler) && !Falsy(name)
    ensures !IsCallable(handler) ==> res == Failure(NotCallable)
    ensures IsCallable(handler) && Falsy(name) ==> res == Failure(InvalidArguments(InvalidAddArguments))
    ensures res.Success? ==> res.value.commands == r.commands[name := handler]
    ensures res.Success? ==> res.value.keyWidth >= r.keyWidth && res.value.keyWidth >= |name|
    ensures res.Success? ==> res.value.keyWidth == r.keyWidth || res.value.keyWidth == |name|
    ensures res.Success? && ConfigFalsy(config) ==> res.value.messages == r.messages
    ensures res.Success? && !ConfigFalsy(config) ==> res.value.messages == r.messages[name := Normalize(config)]
  {
    if !IsCallable(handler) then Failure(NotCallable)
    else if Falsy(name) then Failure(InvalidArguments(InvalidAddArguments))
    else
      var width := if |name| > r.keyWidth then |name| else r.keyWidth;
      var messages := if ConfigFalsy(config) then r.messages else r.messages[name := Normalize(config)];
      Success(Registry(r.commands[name := handler], messages, width))
  }

  /**
   * Adding a name again replaces its handler and leaves the set of names as it
   * was; with a falsy config the metadata of the first registration survives.
   */
  lemma ReRegisterOverwrites(r: Registry, name: string, h1: Handler, c1: Config, h2: Handler, c2: Config)
    requires Register(r, name, h1, c1).Success?
    requires IsCallable(h2)
    ensures var r1 := Register(r, name, h1, c1).value;
            var r2 := Register(r1, name, h2, c2);
            && r2.Success?
            && r2.value.commands[name] == h2
            && r2.value.commands.Keys == r1.commands.Keys
            && r2.value.keyWidth == r1.keyWidth
            && (ConfigFalsy(c2) ==> r2.value.messages == r1.messages)
  {
  }

  /** Registration does not reject a method callable, although runHandler cannot run one. */
  lemma MethodRefAcceptedButNotRunnable(r: Registry, name: string, config: Config)
    requires !Falsy(name)
    ensures Register(r, name, MethodRef, config).Success?
    ensures !Resolvable(MethodRef)
  {
  }

  /** A key of the array given to addCommands: PHP array keys are strings or integers. */
  datatype Key = StrKey(s: string) | IntKey(i: int)

  /** The bounds of PHP's (64-bit) integers. */
  const MinInt := -0x8000_0000_0000_0000
  const MaxInt := 0x7FFF_FFFF_FFFF_FFFF

  /**
   * A string PHP turns into an integer key when it is used as an array key: the
   * canonical decimal form of an integer in range ("10", "-3", "0"; not "010",
   * "-0" or "+1").
   */
  predicate IntegerString(s: string) {
    (s != [] && IsDigits(s) && (s[0] == '0' ==> |s| == 1) && DecValue(s) <= MaxInt)
    || (|s| >= 2 && s[0] == '-' && IsDigits(s[1..]) && s[1] != '0' && DecValue(s[1..]) <= -MinInt)
  }

  /** The key a string becomes in a PHP array. */
  function ArrayKey(s: string): (k: Key)
    ensures k.IntKey? <==> IntegerString(s)
    ensures k.StrKey? ==> k.s == s
  {
    if !IntegerString(s) then StrKey(s)
    else if s[0] == '-' then IntKey(-(DecValue(s[1..]) as int))
    else IntKey(DecValue(s))
  }

  /** Every integer in range written in decimal is stored as that integer key. */
  lemma IntegerKeyRoundTrip(i: int)
    requires MinInt <= i <= MaxInt
    ensures ArrayKey(IntToString(i)) == IntKey(i)
  {
    var s := IntToString(i);
    if i < 0 {
      assert s[0] == '-' && -i <= -MinInt;
    } else {
      assert s[0] == '0' ==> i == 0 && s == "0";
    }
  }

  /**
   * A value of the array given to addCommands: an array with a `handler` entry
   * (its optional `name`, the handler, and its other fields), or anything else,
   * which is taken as the handler itself.
   */
  datatype Entry =
    | Record(name: Option<string>, handler: Handler, fields: map<string, string>)
    | Plain(value: Handler)

  /**
   * `is_array($handler) && isset($handler['handler'])`: an array whose `handler`
   * entry is null is not taken apart; it is passed on as the (non-callable) array.
   */
  predicate IsRecord(entry: Entry) {
    entry.Record? && !entry.handler.NullValue?
  }

  /** The arguments one iteration of addCommands passes to addCommand. */
  datatype Call = Call(name: string, handler: Handler, config: Config)

  /** `is_string($command) ? $command : ''`. */
  function KeyName(key: Key): string {
    if key.StrKey? then key.s else ""
  }

  /**
   * The loop body of addCommands: the key is the name unless it is an integer
   * (then ""), a record's `name` overrides it, and a record's fields other than
   * `name` and `handler` are the metadata; any other value comes with an empty config.
   */
  function Unpack(key: Key, entry: Entry): (c: Call)
    ensures c.config.Fields?
    ensures IsRecord(entry) ==> c.handler == entry.handler
    ensures IsRecord(entry) ==> c.config.fields.Keys == entry.fields.Keys - {"name", "handler"}
    ensures IsRecord(entry) ==> forall k :: k in c.config.fields ==> c.config.fields[k] == entry.fields[k]
    ensures IsRecord(entry) && entry.name.Some? ==> c.name == entry.name.value
    ensures !(IsRecord(entry) && entry.name.Some?) ==> c.name == KeyName(key)
    ensures !IsRecord(entry) ==> ConfigFalsy(c.config)
    ensures entry.Plain? ==> c.handler == entry.value
    ensures entry.Record? && entry.handler.NullValue? ==> !IsCallable(c.handler)
  {
    match entry
    case Record(n, h, f) =>
      if h.NullValue? then Call(KeyName(key), OtherValue, Fields(map[]))
      else Call(if n.Some? then n.value else KeyName(key), h, Fields(f - {"name", "handler"}))
    case Plain(h) => Call(KeyName(key), h, Fields(map[]))
  }

  /** An integer key without a record `name` gives the empty name, so addCommands throws on it. */
  lemma IntKeyWithoutNameRejected(r: Registry, i: int, entry: Entry)
    requires !(IsRecord(entry) && entry.name.Some?)
    requires IsCallable(Unpack(IntKey(i), entry).handler)
    ensures var c := Unpack(IntKey(i), entry);
            c.name == "" && Register(r, c.name, c.handler, c.config) == Failure(InvalidArguments(InvalidAddArguments))
  {
  }

  /**
   * A decimal name such as "10" used as a key of the addCommands array is stored
   * by PHP as an integer key, so without a record `name` it is rejected too.
   */
  lemma NumericKeyRejected(r: Registry, s: string, entry: Entry)
    requires IntegerString(s)
    requires !(IsRecord(entry) && entry.name.Some?)
    requires IsCallable(Unpack(ArrayKey(s), entry).handler)
    ensures var c := Unpack(ArrayKey(s), entry);
            c.name == "" && Register(r, c.name, c.handler, c.config) == Failure(InvalidArguments(InvalidAddArguments))
  {
    IntKeyWithoutNameRejected(r, ArrayKey(s).i, entry);
  }

  /** The registry after addCommands, and the error that stopped it, if any. */
  datatype Bulk = Bulk(registry: Registry, error: Option<RegError>)

  /**
   * App::addCommands: registers the entries in order and stops at the first that
   * throws; the entries before it stay registered.
   */
  function AddAll(r: Registry, es: seq<(Key, Entry)>): Bulk
    decreases |es|
  {
    if es == [] then Bulk(r, None)
    else
      var prev := AddAll(r, es[..|es| - 1]);
      if prev.error.Some? then prev
      else
        var c := Unpack(es[|es| - 1].0, es[|es| - 1].1);
        match Register(prev.registry, c.name, c.handler, c.config)
        case Success(next) => Bulk(next, None)
        case Failure(e) => Bulk(prev.registry, Some(e))
  }

  /** Once an entry has thrown, the later entries change nothing. */
  lemma {:induction false} AddAllStopsAtError(r: Registry, es: seq<(Key, Entry)>, j: nat)
    requires j <= |es|
    requires AddAll(r, es[..j]).error.Some?
    ensures AddAll(r, es) == AddAll(r, es[..j])
    decreases |es| - j
  {
    if j < |es| {
      assert es[..j + 1][..j] == es[..j];
      AddAllStopsAtError(r, es, j + 1);
    } else {
      assert es[..j] == es;
    }
  }

  /** addCommands never narrows the help column and never removes a command. */
  lemma {:induction false} AddAllGrows(r: Registry, es: seq<(Key, Entry)>)
    ensures AddAll(r, es).registry.keyWidth >= r.keyWidth
    ensures r.commands.Keys <= AddAll(r, es).registry.commands.Keys
    decreases |es|
  {
    if es != [] {
      AddAllGrows(r, es[..|es| - 1]);
    }
  }

  /** When addCommands completes, every entry's name is a command. */
  lemma {:induction false} AddAllRegistersEvery(r: Registry, es: seq<(Key, Entry)>)
    requires AddAll(r, es).error.None?
    ensures forall i :: 0 <= i < |es| ==> Unpack(es[i].0, es[i].1).name in AddAll(r, es).registry.commands
    decreases |es|
  {
    if es != [] {
      var init := es[..|es| - 1];
      AddAllRegistersEvery(r, init);
      forall i | 0 <= i < |es| ensures Unpack(es[i].0, es[i].1).name in AddAll(r, es).registry.commands {
        if i < |init| {
          assert es[i] == init[i];
        }
      }
    }
  }

  /**
   * App::addByConfig: the name comes from the config's `name` entry, which must
   * not be empty, and the whole config, `name` included, becomes the metadata.
   */
  function AddByConfig(r: Registry, handler: Handler, config: map<string, string>): (res: Result<Registry, RegError>)
    ensures !IsCallable(handler) ==> res == Failure(NotCallable)
    ensures (IsCallable(handler) && ("name" !in config || Falsy(config["name"])))
      ==> res == Failure(InvalidArguments(InvalidAddArguments))
    ensures res.Success? <==> IsCallable(handler) && "name" in config && !Falsy(config["name"])
    ensures res.Success? ==> res.value.commands == r.commands[config["name"] := handler]
    ensures res.Success? ==> res.value.messages == r.messages[config["name"] := Normalize(Fields(config))]
    ensures res.Success? ==> res.value.keyWidth == if |config["name"]| > r.keyWidth then |config["name"]| else r.keyWidth
  {
    if !IsCallable(handler) then Failure(NotCallable)
    else if "name" !in config || Falsy(config["name"]) then Failure(InvalidArguments(InvalidAddArguments))
    else Register(r, config["name"], handler, Fields(config))
  }

  /**
   * App::addObject: only an object with `__invoke` is accepted; its own
   * `getHelpConfig()` replaces the config given, and addByConfig does the rest.
   */
  function AddObject(r: Registry, handler: Handler, config: map<string, string>): (res: Result<Registry, RegError>)
    ensures res.Success? ==> handler.Instance? && handler.invoke.Some?
    ensures IsCallable(handler) && !handler.Instance? ==> res == Failure(InvalidArguments(ObjectRequired))
    ensures IsCallable(handler) && handler.Instance? ==>
              res == AddByConfig(r, handler, if handler.helpConfig.Some? then handler.helpConfig.value else config)
  {
    if !IsCallable(handler) then Failure(NotCallable)
    else if handler.Instance? && handler.invoke.Some? then
      AddByConfig(r, handler, if handler.helpConfig.Some? then handler.helpConfig.value else config)
    else Failure(InvalidArguments(ObjectRequired))
  }

  /** A handler addObject accepted is always run through its `__invoke` at dispatch. */
  lemma AddedObjectRuns(r: Registry, handler: Handler, config: map<string, string>, command: string)
    requires AddObject(r, handler, config).Success?
    ensures Resolvable(handler)
    ensures RunHandler(command, handler) == handler.invoke.value
  {
  }
}
