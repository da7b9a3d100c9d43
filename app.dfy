/**
 * The App class itself: its fields, the write-once global instance, and the
 * methods that read argv, register commands, print help and dispatch, each tied
 * to the functions of Commands, Help and Dispatch that say what it computes.
 */
module CliApp {
  import opened Wrappers
  import opened PhpString
  import opened KeyOrder
  import opened Handlers
  import opened Commands
  import opened Help
  import opened Dispatch

  /** The static `App::$global`: the first App constructed, once one is. */
  class GlobalSlot {
    var app: App?

    constructor ()
      ensures app == null
    {
      app := null;
    }
  }

  const GlobalMissing := "please create global app by new App()"

  /** App::global(): the saved instance, or the RuntimeException raised when there is none yet. */
  method Global(slot: GlobalSlot) returns (r: Result<App, string>)
    ensures slot.app != null ==> r == Success(slot.app)
    ensures slot.app == null ==> r == Failure(GlobalMissing)
  {
    if slot.app == null {
      return Failure(GlobalMissing);
    }
    return Success(slot.app);
  }

  /** The application parameters an App starts with. */
  function DefaultParams(): map<string, string> {
    map["name" := "My application", "desc" := "My command line application", "version" := "0.2.1"]
  }

  /** The key of getArg: a position among the positional arguments, or the name of a named one. */
  datatype ArgKey = Index(i: int) | Name(n: string)

  class App {
    var pwd: string
    var params: map<string, string>
    /** The positional arguments (`$args` under integer keys), in order. */
    var args: seq<string>
    /** The named arguments (`$args` under string keys, from `name=value`). */
    var named: map<string, string>
    var opts: map<string, OptValue>
    var script: string
    var command: string
    var commands: map<string, Handler>
    var messages: map<string, Meta>
    var keyWidth: int
    /** Every line printed so far, one entry per println or printf. */
    var output: seq<string>

    /** The help column is always wider than one character. */
    predicate Valid()
      reads this
    {
      keyWidth > 1
    }

    /** The registry part of the state. */
    function Reg(): Registry
      reads this
    {
      Registry(commands, messages, keyWidth)
    }

    /** The part of the state doHandle reads. */
    function State(): AppState
      reads this
    {
      AppState(params, pwd, script, command, opts, Reg())
    }

    /**
     * App::__construct: saves itself as the global instance unless one exists,
     * takes the working directory, merges `config` over the default parameters,
     * and takes the script name from `argv[0]`. The arguments and options
     * parsed from the rest of argv are given as `positional`, `namedArgs` and `options`.
     */
    constructor (slot: GlobalSlot, config: map<string, string>, argv: seq<string>, cwd: string,
                 positional: seq<string>, namedArgs: map<string, string>, options: map<string, OptValue>)
      modifies slot
      ensures slot.app == if old(slot.app) == null then this else old(slot.app)
      ensures Valid()
      ensures pwd == cwd
      ensures params == DefaultParams() + config
      ensures script == if argv == [] then "" else argv[0]
      ensures args == positional && named == namedArgs && opts == options
      ensures command == "" && commands == map[] && messages == map[] && keyWidth == 12 && output == []
    {
      pwd := cwd;
      params := DefaultParams();
      if config != map[] {
        params := params + config;
      }
      script := if argv == [] then "" else argv[0];
      args := positional;
      named := namedArgs;
      opts := options;
      command := "";
      commands := map[];
      messages := map[];
      keyWidth := 12;
      output := [];
      new;
      if slot.app == null {
        slot.app := this;
      }
    }

    /** App::getArg: the argument at that position or under that name, else `default`. */
    function GetArg(key: ArgKey, default: Option<string>): (r: Option<string>)
      reads this
      ensures key.Index? && 0 <= key.i < |args| ==> r == Some(args[key.i])
      ensures key.Name? && key.n in named ==> r == Some(named[key.n])
      ensures r.None? ==> r == default
      ensures r != default ==> (key.Index? && 0 <= key.i < |args|) || (key.Name? && key.n in named)
    {
      match key
      case Index(i) => if 0 <= i < |args| then Some(args[i]) else default
      case Name(n) => if n in named then Some(named[n]) else default
    }

    /** App::getOpt: the option's value, else `default`. */
    function GetOpt(name: string, default: Option<OptValue>): (r: Option<OptValue>)
      reads this
      ensures name in opts ==> r == Some(opts[name])
      ensures name !in opts ==> r == default
    {
      if name in opts then Some(opts[name]) else default
    }

    /**
     * App::findCommand: the first positional argument, trimmed, becomes the
     * command, and the other positional arguments move down by one.
     */
    method FindCommand()
      modifies this`command, this`args
      ensures old(args) == [] ==> command == old(command) && args == []
      ensures old(args) != [] ==> command == Trim(old(args)[0]) && args == old(args)[1..]
    {
      if |args| == 0 {
        return;
      }
      var cmd := command;
      var newArgs: seq<string> := [];
      var i := 0;
      ghost var first := args[0];
      while i < |args|
        invariant 0 <= i <= |args| && args[0] == first
        invariant i == 0 ==> newArgs == []
        invariant i > 0 ==> cmd == Trim(first) && newArgs == args[1..i]
      {
        if i == 0 {
          cmd := Trim(args[i]);
        } else {
          newArgs := newArgs + [args[i]];
        }
        i := i + 1;
      }
      command := cmd;
      args := newArgs;
    }

    /**
     * The text displayHelp builds in `$help`: the head, the line of every name
     * of `messages` in ascending order, then the foot.
     */
    method RenderOverview() returns (help: string)
      ensures help == Overview(params, script, messages, keyWidth)
    {
      var ks := SortKeys(messages.Keys);
      OverviewParts(params, script, messages, keyWidth, ks);
      help := OverviewHead(params, script);
      help := AppendCommandLines(help, ks);
      help := help + OverviewFoot(script);
    }

    /** The `foreach` of displayHelp: appends the line of each name of `ks`, in order, to `help`. */
    method AppendCommandLines(start: string, ks: seq<string>) returns (help: string)
      requires forall k :: k in ks ==> k in messages
      ensures help == start + Join(LineList(ks, messages, keyWidth))
    {
      help := start;
      var i := 0;
      while i < |ks|
        invariant 0 <= i <= |ks|
        invariant help == start + Join(LineList(ks[..i], messages, keyWidth))
      {
        var line := CommandLine(ks[i], messages[ks[i]], keyWidth);
        JoinNextLine(ks, i, messages, keyWidth);
        AppendAssoc(start, Join(LineList(ks[..i], messages, keyWidth)), line);
        help := help + line;
        i := i + 1;
      }
      assert ks[..|ks|] == ks;
    }

    /** App::displayHelp: prints the error line unless `err` is falsy, then the overview. */
    method DisplayHelp(err: string)
      modifies this`output
      ensures output == old(output) + OverviewOutput(err, params, script, messages, keyWidth)
    {
      ghost var banner: seq<string> := if Falsy(err) then [] else [ErrorBanner(err)];
      if !Falsy(err) {
        output := output + [ErrorBanner(err)];
      } else {
        assert output == old(output) + banner;
      }
      var help := RenderOverview();
      LinesAppendAssoc(old(output), banner, [help]);
      output := output + [help];
    }

    /** App::displayCommandHelp: prints the help of `name`, placeholders substituted as strtr does. */
    method DisplayCommandHelp(name: string)
      modifies this`output
      ensures output == old(output) + [CommandHelpText(name, script, pwd, MetaOf(messages, name))]
    {
      var meta := MetaOf(messages, name);
      var help := AssembledHelp(name, script, meta);
      if meta.Some? && StrposTruthy(help, "{{") {
        help := Translate(help, Placeholders(name, script, pwd));
      }
      output := output + [help];
    }

    /** App::handleException: prints the error or the diagnostic and gives the status. */
    method HandleException(e: Throwable) returns (status: int)
      modifies this`output
      ensures status == Handlers.HandleException(e).status
      ensures output == old(output) + Handlers.HandleException(e).printed
    {
      if e.InvalidArgument? {
        output := output + ["ERROR: " + e.message];
        return 0;
      }
      status := if e.code != 0 then e.code else -1;
      output := output + [Diagnostic(status, e.message)];
    }

    /** App::doHandle: routes the current command and gives the exit status. */
    method DoHandle() returns (status: int)
      modifies this`output
      ensures status == Dispatch.DoHandle(State()).status
      ensures output == old(output) + Dispatch.DoHandle(State()).printed
    {
      if Falsy(command) {
        DisplayHelp("");
        return 0;
      }
      if !IsSet(commands, command) {
        DisplayHelp(UnknownCommand(command));
        return 0;
      }
      if "h" in opts || "help" in opts {
        DisplayCommandHelp(command);
        return 0;
      }
      var o := RunHandler(command, commands[command]);
      match o
      case Returns(v) =>
        status := ReturnStatus(v);
      case Throws(e) =>
        status := HandleException(e);
    }

    /** App::run: finds the command, then dispatches it; the status is what the process exits with. */
    method Run() returns (status: int)
      modifies this`command, this`args, this`output
      ensures old(args) == [] ==> command == old(command) && args == []
      ensures old(args) != [] ==> command == Trim(old(args)[0]) && args == old(args)[1..]
      ensures status == Dispatch.DoHandle(State()).status
      ensures output == old(output) + Dispatch.DoHandle(State()).printed
    {
      FindCommand();
      status := DoHandle();
    }

    /** App::addCommand: the registry becomes what Register gives, or stays as it was when that fails. */
    method AddCommand(name: string, handler: Handler, config: Config) returns (err: Option<RegError>)
      requires Valid()
      modifies this`commands, this`messages, this`keyWidth
      ensures Valid()
      ensures match Register(old(Reg()), name, handler, config)
              case Success(next) => err.None? && Reg() == next
              case Failure(e) => err == Some(e) && Reg() == old(Reg())
    {
      if !IsCallable(handler) {
        return Some(NotCallable);
      }
      if Falsy(name) {
        return Some(InvalidArguments(InvalidAddArguments));
      }
      if |name| > keyWidth {
        keyWidth := |name|;
      }
      commands := commands[name := handler];
      err := None;
      if ConfigFalsy(config) {
        return;
      }
      if config.Text? {
        messages := messages[name := Meta(Trim(config.text), "", "", map[])];
      } else if config.Fields? {
        messages := messages[name := Normalize(config)];
      }
    }

    /** App::add, which is addCommand. */
    method Add(name: string, handler: Handler, config: Config) returns (err: Option<RegError>)
      requires Valid()
      modifies this`commands, this`messages, this`keyWidth
      ensures Valid()
      ensures match Register(old(Reg()), name, handler, config)
              case Success(next) => err.None? && Reg() == next
              case Failure(e) => err == Some(e) && Reg() == old(Reg())
    {
      err := AddCommand(name, handler, config);
    }

    /** App::addByConfig: registers under the config's `name`, with the config as metadata. */
    method AddByConfig(handler: Handler, config: map<string, string>) returns (err: Option<RegError>)
      requires Valid()
      modifies this`commands, this`messages, this`keyWidth
      ensures Valid()
      ensures match Commands.AddByConfig(old(Reg()), handler, config)
              case Success(next) => err.None? && Reg() == next
              case Failure(e) => err == Some(e) && Reg() == old(Reg())
    {
      if !IsCallable(handler) {
        return Some(NotCallable);
      }
      if "name" !in config || Falsy(config["name"]) {
        return Some(InvalidArguments(InvalidAddArguments));
      }
      err := AddCommand(config["name"], handler, Fields(config));
    }

    /** App::addObject: registers an invokable object, with its own help config when it has one. */
    method AddObject(handler: Handler, config: map<string, string>) returns (err: Option<RegError>)
      requires Valid()
      modifies this`commands, this`messages, this`keyWidth
      ensures Valid()
      ensures match Commands.AddObject(old(Reg()), handler, config)
              case Success(next) => err.None? && Reg() == next
              case Failure(e) => err == Some(e) && Reg() == old(Reg())
    {
      if !IsCallable(handler) {
        return Some(NotCallable);
      }
      if handler.Instance? && handler.invoke.Some? {
        var conf := if handler.helpConfig.Some? then handler.helpConfig.value else config;
        err := AddByConfig(handler, conf);
        return;
      }
      return Some(InvalidArguments(ObjectRequired));
    }

    /**
     * App::addCommands: registers the entries one by one and stops at the first
     * that throws, keeping what was registered before it.
     */
    method AddCommands(es: seq<(Key, Entry)>) returns (err: Option<RegError>)
      requires Valid()
      modifies this`commands, this`messages, this`keyWidth
      ensures Valid()
      ensures Reg() == AddAll(old(Reg()), es).registry
      ensures err == AddAll(old(Reg()), es).error
    {
      err := None;
      var i := 0;
      while i < |es|
        invariant 0 <= i <= |es|
        invariant Valid()
        invariant AddAll(old(Reg()), es[..i]) == Bulk(Reg(), None)
        invariant err == None
      {
        var c := Unpack(es[i].0, es[i].1);
        assert es[..i + 1][..i] == es[..i];
        err := AddCommand(c.name, c.handler, c.config);
        if err.Some? {
          AddAllStopsAtError(old(Reg()), es, i + 1);
          return;
        }
        i := i + 1;
      }
      assert es[..|es|] == es;
    }

    /** App::setCommands: replaces the handlers wholesale, with no check on them. */
    method SetCommands(cs: map<string, Handler>)
      modifies this`commands
      ensures commands == cs
    {
      commands := cs;
    }

    /** App::setKeyWidth: a width of 1 or less falls back to 12. */
    method SetKeyWidth(width: int)
      modifies this`keyWidth
      ensures Valid()
      ensures width > 1 ==> keyWidth == width
      ensures width <= 1 ==> keyWidth == 12
    {
      keyWidth := if width > 1 then width else 12;
    }

    /** App::setParams: `array_merge`, so the given keys win and the others keep their values. */
    method SetParams(p: map<string, string>)
      modifies this`params
      ensures params.Keys == old(params).Keys + p.Keys
      ensures forall k :: k in p ==> params[k] == p[k]
      ensures forall k :: k in old(params) && k !in p ==> params[k] == old(params)[k]
    {
      params := params + p;
    }
  }
}
