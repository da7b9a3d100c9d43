/**
 * What App::doHandle decides and produces for a command: the route it takes
 * (overview, overview with an error, the command's help, or running the handler)
 * and the exit status and printed text that follow, as functions of App's state.
 */
module Dispatch {
  import opened Wrappers
  import opened PhpString
  import opened Handlers
  import opened Commands
  import opened Help

  /** A value of the parsed options: a flag, a value, or the values of a repeated option. */
  datatype OptValue = Flag(on: bool) | Value(text: string) | Values(items: seq<string>)

  /** The part of App's state doHandle reads. */
  datatype AppState = AppState(
    params: map<string, string>,
    pwd: string,
    script: string,
    command: string,
    opts: map<string, OptValue>,
    registry: Registry)

  /** The branch doHandle takes. */
  datatype Route =
    | ShowOverview(err: string)
    | ShowCommandHelp(name: string)
    | Execute(name: string, handler: Handler)

  /** The error displayHelp is given for a name that is not a command. */
  function UnknownCommand(command: string): string {
    "The command '" + command + "' is not exists!"
  }

  /** Whether the options ask for the command's help (`-h` or `--help`). */
  predicate WantsHelp(opts: map<string, OptValue>) {
    "h" in opts || "help" in opts
  }

  /**
   * The branch of doHandle: a falsy command shows the overview; a name that is
   * not a command (`isset` fails, also for a name bound to `null`) shows the
   * overview with an error; a help option shows the
   * command's help; only otherwise is the handler run.
   */
  function RouteOf(command: string, commands: map<string, Handler>, opts: map<string, OptValue>): (r: Route)
    ensures r.Execute? <==> !Falsy(command) && IsSet(commands, command) && !WantsHelp(opts)
    ensures r.Execute? ==> r.name == command && r.handler == commands[command]
    ensures r.ShowOverview? <==> Falsy(command) || !IsSet(commands, command)
    ensures r.ShowOverview? && Falsy(command) ==> r.err == ""
    ensures r.ShowOverview? && !Falsy(command) ==> r.err == UnknownCommand(command)
    ensures r.ShowCommandHelp? ==> r.name == command
  {
    if Falsy(command) then ShowOverview("")
    else if !IsSet(commands, command) then ShowOverview(UnknownCommand(command))
    else if WantsHelp(opts) then ShowCommandHelp(command)
    else Execute(command, commands[command])
  }

  /** The exit status doHandle returns and the lines it prints. */
  datatype Dispatched = Dispatched(status: int, printed: seq<string>)

  /** App::doHandle on a state: the status and the printed lines of the route taken. */
  ghost function DoHandle(st: AppState): Dispatched {
    var reg := st.registry;
    match RouteOf(st.command, reg.commands, st.opts)
    case ShowOverview(err) => Dispatched(0, OverviewOutput(err, st.params, st.script, reg.messages, reg.keyWidth))
    case ShowCommandHelp(name) => Dispatched(0, [CommandHelpText(name, st.script, st.pwd, MetaOf(reg.messages, name))])
    case Execute(name, handler) =>
      var o := RunHandler(name, handler);
      Dispatched(OutcomeStatus(o), OutcomePrinted(o))
  }

  /** The error line for an unknown command, written out. */
  lemma UnknownCommandBanner(command: string)
    ensures ErrorBanner(UnknownCommand(command)) == "<red>ERROR</red>: The command '" + command + "' is not exists!\n"
  {
  }

  /**
   * Dispatch order: without a command, or with an unknown one, the overview is
   * printed (after the error line for an unknown one) and the status is 0.
   */
  lemma OverviewRoutes(st: AppState)
    requires Falsy(st.command) || !IsSet(st.registry.commands, st.command)
    ensures DoHandle(st).status == 0
    ensures Falsy(st.command) ==> |DoHandle(st).printed| == 1
    ensures !Falsy(st.command) ==> |DoHandle(st).printed| == 2
    ensures !Falsy(st.command) ==>
              DoHandle(st).printed[0] == "<red>ERROR</red>: The command '" + st.command + "' is not exists!\n"
    ensures DoHandle(st).printed[|DoHandle(st).printed| - 1]
            == Overview(st.params, st.script, st.registry.messages, st.registry.keyWidth)
  {
    UnknownCommandBanner(st.command);
  }

  /** A known command with `-h` or `--help` prints that command's help and gives 0. */
  lemma HelpOptionRoute(st: AppState)
    requires !Falsy(st.command) && IsSet(st.registry.commands, st.command) && WantsHelp(st.opts)
    ensures DoHandle(st).status == 0
    ensures DoHandle(st).printed
            == [CommandHelpText(st.command, st.script, st.pwd, MetaOf(st.registry.messages, st.command))]
  {
  }

  /**
   * Unless the handler is run, the handlers bound to the names play no part:
   * two states that differ only in them dispatch alike.
   */
  lemma HandlerNotInvoked(st: AppState, commands: map<string, Handler>)
    requires !RouteOf(st.command, st.registry.commands, st.opts).Execute?
    requires forall c :: IsSet(commands, c) <==> IsSet(st.registry.commands, c)
    ensures DoHandle(st.(registry := st.registry.(commands := commands))) == DoHandle(st)
  {
  }

  /**
   * A name bound to `null` (possible through setCommands) is not a command for
   * `isset`: it gets the unknown-command overview and 0, and nothing is run.
   */
  lemma NullHandlerIsUnknown(st: AppState)
    requires !Falsy(st.command) && st.command in st.registry.commands
    requires st.registry.commands[st.command].NullValue?
    ensures RouteOf(st.command, st.registry.commands, st.opts) == ShowOverview(UnknownCommand(st.command))
    ensures DoHandle(st).status == 0
    ensures DoHandle(st).printed[0] == "<red>ERROR</red>: The command '" + st.command + "' is not exists!\n"
  {
    OverviewRoutes(st);
  }

  /**
   * Status mapping when the handler runs: its return value cast to int (null is
   * 0); an InvalidArgumentException prints one ERROR line and gives 0; any other
   * Throwable gives its code, or -1 for code 0.
   */
  lemma ExecuteStatus(st: AppState)
    requires RouteOf(st.command, st.registry.commands, st.opts).Execute?
    ensures var o := RunHandler(st.command, st.registry.commands[st.command]);
            && (o.Returns? ==> DoHandle(st) == Dispatched(ReturnStatus(o.value), []))
            && (o.Throws? && o.error.InvalidArgument? ==> DoHandle(st) == Dispatched(0, ["ERROR: " + o.error.message]))
            && (o.Throws? && o.error.Thrown? && o.error.code != 0 ==> DoHandle(st).status == o.error.code)
            && (o.Throws? && o.error.Thrown? && o.error.code == 0 ==> DoHandle(st).status == -1)
  {
  }

  /** A command whose handler cannot be run gives -1 and names the command in the diagnostic. */
  lemma InvalidHandlerRoute(st: AppState)
    requires RouteOf(st.command, st.registry.commands, st.opts).Execute?
    requires !Resolvable(st.registry.commands[st.command])
    ensures DoHandle(st) == Dispatched(-1, [Diagnostic(-1, "Invalid handler of the command: " + st.command)])
  {
    InvalidHandlerGivesMinusOne(st.command, st.registry.commands[st.command]);
  }

  /** A method callable passes addCommand, yet running it gives -1. */
  lemma MethodRefDispatchFails(st: AppState, r: Registry, name: string, config: Config)
    requires Register(r, name, MethodRef, config).Success?
    requires st.registry == Register(r, name, MethodRef, config).value
    requires st.command == name && !WantsHelp(st.opts)
    ensures DoHandle(st).status == -1
  {
    assert st.registry.commands[name] == MethodRef;
    assert RouteOf(st.command, st.registry.commands, st.opts) == Execute(name, MethodRef);
    InvalidHandlerGivesMinusOne(name, MethodRef);
  }

  /** The error line for "foo", written out. */
  lemma FooBanner()
    ensures "<red>ERROR</red>: The command '" + "foo" + "' is not exists!\n"
            == "<red>ERROR</red>: The command 'foo' is not exists!\n"
  {
  }

  /** `app foo` with no command "foo" prints the error line, then the overview, and gives 0. */
  lemma UnknownFooExample(st: AppState)
    requires st.command == "foo" && !IsSet(st.registry.commands, "foo")
    ensures DoHandle(st).status == 0
    ensures DoHandle(st).printed[0] == "<red>ERROR</red>: The command 'foo' is not exists!\n"
  {
    assert !Falsy("foo");
    OverviewRoutes(st);
    FooBanner();
  }
}
