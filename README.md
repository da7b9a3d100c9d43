# A verified model of `Toolkit\Cli\App`

`Toolkit\Cli\App` (vendor/toolkit/cli-utils/src/App.php) is a small
command-line application class. It keeps:

- a registry of commands: `commands` maps a name to its handler;
- `messages`: the help metadata of each command;
- `keyWidth`: the width of the name column in the overview, 12 to begin with;
- the application parameters (`name`, `desc`, `version`);
- the arguments, options and script name parsed from argv;
- the first App constructed, kept as the static global instance.

`run()` takes the first positional argument as the command name. `doHandle()` then chooses one of four things:

- the overview, when there is no command;
- the overview headed by an error line, when the command is unknown;
- the command's own help, when `-h` or `--help` is given;
- otherwise it runs the handler and turns the handler's return value or exception into the exit status.

This project models that class in Dafny and proves the behaviour its code promises.

| file | module | what it holds |
|---|---|---|
| wrappers.dfy | `Wrappers` | `Option`, `Result` |
| php_strings.dfy | `PhpString` | the PHP string functions App uses (see below), PHP falsiness of strings |
| key_order.dfy | `KeyOrder` | the byte-wise order `ksort` puts names in, and sorting a set of names by it |
| handlers.dfy | `Handlers` | handler values, `runHandler`'s resolution order, `handleException`'s status mapping |
| commands.dfy | `Commands` | the registry and what `addCommand`, `addCommands`, `addByConfig`, `addObject` do to it |
| help.dfy | `Help` | the overview text and the per-command help text with its `{{...}}` substitution |
| dispatch.dfy | `Dispatch` | `doHandle`'s route, status and printed lines as functions of the state |
| app.dfy | `CliApp` | the `App` class with its fields and methods, and the global-instance slot |

The PHP string functions modelled in `PhpString` are `trim`, `rtrim`, `ucfirst`, `str_pad`, `strpos` and `strtr`.

The pure parts of App.php are functions, together with lemmas about them:

- the status mapping;
- config normalisation;
- help text assembly and substitution.

The parts that change state are methods of the class `CliApp.App`. Each method's postcondition ties the new fields to those functions. For example, `AddCommand` leaves the registry equal to what `Commands.Register` computes, and `DoHandle` returns the status that `Dispatch.DoHandle` computes.

Output is the field `output: seq<string>`. Each `Cli::println`, `Color::println` or `printf` call appends one entry.

A handler is a value of `Handlers.Handler`, which records what PHP's reflection would find:

- whether a function of that name exists;
- a class of that name, with its `execute` and `__invoke` methods;
- an object with `__invoke` and, optionally, `getHelpConfig`;
- a method callable;
- `null`, which `isset` does not count as a bound command;
- any other value.

What running a handler does is recorded as an `Outcome`. It either returns `null` or an int, or it throws an `InvalidArgumentException` or another Throwable with a code.

Where the code and its documented intent differ, the model follows the code:

- The placeholders are substituted in the whole assembled help text, not only in the help body. A description holding `{{command}}` is therefore rewritten too.
- Substitution is skipped when the text starts with `{{`, because `strpos` then returns 0, which is falsy.
- Handlers that cannot be run are not rejected when they are added. They fail only at dispatch, with status -1.
- Handler parameters are declared `callable`. A value that is not callable therefore fails with a type error before any of App's own checks. A bare class name is not a PHP callable, so only `setCommands` can register one.

## Model

| member | source | states |
|---|---|---|
| PhpString.Trim | vendor/toolkit/cli-utils/src/App.php:167 | `trim`: the result is the input with trim characters (space, tab, LF, CR, NUL, vertical tab) cut from its front and back and nothing else, and it neither starts nor ends with one |
| PhpString.Falsy | vendor/toolkit/cli-utils/src/App.php:197 | definition: PHP's truthiness of a string, where exactly "" and "0" are falsy (used at lines 197, 332 and 343) |
| PhpString.TrimIdempotent | vendor/toolkit/cli-utils/src/App.php:167 | trimming a trimmed name changes nothing |
| PhpString.TrimEnd | vendor/toolkit/cli-utils/src/App.php:440 | `rtrim($help, "\n")`: the result is a prefix of the input that does not end in LF, and only LFs were cut off |
| PhpString.UpperFirst | vendor/toolkit/cli-utils/src/App.php:398 | `ucfirst`: same length and tail; an ASCII lower-case first letter becomes its own upper case (code minus 32), any other first character is kept |
| PhpString.PadRight | vendor/toolkit/cli-utils/src/App.php:411 | `str_pad`: the name is kept as a prefix and followed by spaces up to the width; a longer name is unchanged |
| PhpString.IndexOf | vendor/toolkit/cli-utils/src/App.php:452 | `strpos`: the first occurrence, or none exactly when the pattern occurs nowhere |
| PhpString.StrposTruthyIff | vendor/toolkit/cli-utils/src/App.php:452 | `strpos($help, '{{')` used as a condition holds exactly when `{{` occurs and does not occur at index 0 |
| PhpString.Translate | vendor/toolkit/cli-utils/src/App.php:453-459 | definition of `strtr` with an array: one left-to-right pass that replaces a matching key and resumes after it, keeping other characters |
| PhpString.FirstMatch | vendor/toolkit/cli-utils/src/App.php:453-459 | the placeholder `strtr` replaces at a position is a key that starts there; with none, no key starts there |
| PhpString.KeyMatchesItself | vendor/toolkit/cli-utils/src/App.php:453-459 | in a table where no key is a prefix of another, text that starts with a key matches that key |
| PhpString.TranslateSkipsPlain | vendor/toolkit/cli-utils/src/App.php:453-459 | `strtr` copies a stretch where no key starts and carries on after it |
| PhpString.TranslateKey | vendor/toolkit/cli-utils/src/App.php:453-459 | `strtr` replaces a matched key by its value and resumes scanning after the key, not after the value |
| PhpString.NatToString | vendor/toolkit/cli-utils/src/App.php:275-278 | decimal digits whose value is the number, with no leading zero (0 itself is "0") |
| PhpString.IntToString | vendor/toolkit/cli-utils/src/App.php:275-278 | the `%d` of the diagnostic: a `-` exactly for negative codes, then decimal digits without leading zeros whose value is the code's magnitude |
| KeyOrder.LessTotal | vendor/toolkit/cli-utils/src/App.php:408 | two different names are ordered one way or the other |
| KeyOrder.LessTransitive | vendor/toolkit/cli-utils/src/App.php:408 | the name order is transitive |
| KeyOrder.Insert | vendor/toolkit/cli-utils/src/App.php:408 | inserting a new name into a sorted list keeps it sorted and adds exactly that name |
| KeyOrder.SortedKeys | vendor/toolkit/cli-utils/src/App.php:408 | `ksort`: the names of `messages`, each once, in strictly ascending order |
| KeyOrder.SortedUnique | vendor/toolkit/cli-utils/src/App.php:408 | there is only one strictly sorted list of a given set of names, so the overview's order does not depend on insertion order |
| KeyOrder.SortKeys | vendor/toolkit/cli-utils/src/App.php:407-408 | the loop that sorts the names gives exactly `SortedKeys` |
| Handlers.IsCallable | vendor/toolkit/cli-utils/src/App.php:287 | definition of the `callable` parameter type of addObject, addByConfig, add and addCommand (lines 287, 306, 320, 330): a function name, an invokable object or a method callable |
| Handlers.IsSet | vendor/toolkit/cli-utils/src/App.php:202 | definition of `isset($this->commands[$c])`: bound, and not to null |
| Handlers.RunHandler | vendor/toolkit/cli-utils/src/App.php:236-260 | resolution order: a function of that name first, then a class's `execute`, then its `__invoke`, then an object's `__invoke`; anything else throws "Invalid handler of the command: <c>" with code 0 |
| Handlers.CallableResolves | vendor/toolkit/cli-utils/src/App.php:236-260 | every callable handler except a method callable is one runHandler can run |
| Handlers.ReturnStatus | vendor/toolkit/cli-utils/src/App.php:218 | `(int)$status`: `null` gives 0 and an int is kept |
| Handlers.HandleException | vendor/toolkit/cli-utils/src/App.php:267-281 | status 0 exactly for InvalidArgumentException, which prints one `ERROR: <msg>` line; any other Throwable gives its code, or -1 for code 0, and prints one diagnostic with that status |
| Handlers.InvalidHandlerGivesMinusOne | vendor/toolkit/cli-utils/src/App.php:259 | a handler that cannot be run gives status -1 and one diagnostic naming the command |
| Commands.Normalize | vendor/toolkit/cli-utils/src/App.php:346-358 | a string config becomes the trimmed description with empty usage and help; the other keys never collide with the three help fields |
| Commands.NormalizeFieldsIsArrayMerge | vendor/toolkit/cli-utils/src/App.php:46-50 | an array config is stored as `array_merge(COMMAND_CONFIG, $config)` |
| Commands.TextIsTrimmedDesc | vendor/toolkit/cli-utils/src/App.php:347-354 | a string config equals the array holding only its trimmed description |
| Commands.Register | vendor/toolkit/cli-utils/src/App.php:330-359 | success exactly for a callable handler and a name that is not falsy; the name is bound to the handler; `keyWidth` becomes the larger of itself and the name's length; a falsy config leaves `messages` as it was; failure changes nothing |
| Commands.ReRegisterOverwrites | vendor/toolkit/cli-utils/src/App.php:338-345 | adding a name again replaces its handler, keeps the set of names and the width, and with a falsy config keeps the earlier metadata |
| Commands.MethodRefAcceptedButNotRunnable | vendor/toolkit/cli-utils/src/App.php:330-345 | a method callable is registered, yet runHandler throws the invalid-handler exception for it |
| Commands.Unpack | vendor/toolkit/cli-utils/src/App.php:368-379 | an `addCommands` entry: a record (an array with a non-null `handler`) has its `name` override the key, else an integer key gives ""; the metadata holds exactly the record's fields other than `name` and `handler`, with their values; any other value is the handler itself with an empty config, and an array whose `handler` is null is not callable |
| Commands.ArrayKey | vendor/toolkit/cli-utils/src/App.php:368-370 | the key a string becomes in a PHP array: an integer key exactly for the canonical decimal form of a 64-bit integer, else the string itself |
| Commands.IntegerKeyRoundTrip | vendor/toolkit/cli-utils/src/App.php:368-370 | an integer in range written in decimal becomes that integer key again |
| Commands.NumericKeyRejected | vendor/toolkit/cli-utils/src/App.php:368-380 | a decimal name such as "10" as an addCommands key is an integer key, so without a record `name` it is rejected |
| Commands.IntKeyWithoutNameRejected | vendor/toolkit/cli-utils/src/App.php:369-380 | an integer key, with a plain value or a record without `name`, gives the name "" and makes addCommands throw "Invalid arguments for add command" |
| Commands.AddAll | vendor/toolkit/cli-utils/src/App.php:366-382 | definition of addCommands: each entry unpacked and registered in order, stopping at the first that throws |
| Commands.AddAllStopsAtError | vendor/toolkit/cli-utils/src/App.php:366-382 | after the first entry that throws, the later entries change nothing |
| Commands.AddAllGrows | vendor/toolkit/cli-utils/src/App.php:336-340 | addCommands never narrows the name column and never removes a command |
| Commands.AddAllRegistersEvery | vendor/toolkit/cli-utils/src/App.php:366-382 | when addCommands completes, every entry's name is a command |
| Commands.AddByConfig | vendor/toolkit/cli-utils/src/App.php:306-313 | success exactly for a callable handler with a present, non-falsy `name`: the handler is bound under that name, the whole config is the metadata and the width grows to fit the name; a missing or falsy `name` throws |
| Commands.AddObject | vendor/toolkit/cli-utils/src/App.php:287-300 | only an object with `__invoke` is accepted; its `getHelpConfig()` replaces the given config |
| Commands.AddedObjectRuns | vendor/toolkit/cli-utils/src/App.php:287-300 | an object addObject accepted is run through its `__invoke` at dispatch |
| Help.AppDescription | vendor/toolkit/cli-utils/src/App.php:398-401 | the overview's first line is `ucfirst(desc)`, followed by `(<red>v<version></red>)` unless the version is falsy |
| Help.LineList | vendor/toolkit/cli-utils/src/App.php:410-415 | one line per name, in the given order: the name padded to the width, then the description, or the fixed notice when it is falsy |
| Help.JoinContains | vendor/toolkit/cli-utils/src/App.php:410-415 | every line appended with `.=` occurs in the result |
| Help.Overview | vendor/toolkit/cli-utils/src/App.php:398-417 | definition of the overview text: head, one line per name of `messages` in ascending order, foot |
| Help.OverviewOutput | vendor/toolkit/cli-utils/src/App.php:391-420 | definition of what displayHelp prints: the error line unless the error is falsy, then the overview |
| Help.OverviewParts | vendor/toolkit/cli-utils/src/App.php:403-417 | the overview is the head, then the lines of the names in ascending order, then the foot |
| Help.OverviewListsEveryCommand | vendor/toolkit/cli-utils/src/App.php:407-415 | the overview shows a line for every command that has metadata |
| Help.PlaceholdersPrefixFree | vendor/toolkit/cli-utils/src/App.php:453-459 | no placeholder is a prefix of another, so taking the first match equals `strtr`'s longest match |
| Help.ReplacementNotRescanned | vendor/toolkit/cli-utils/src/App.php:453-459 | `{{command}}` becomes the name even when the name itself holds a placeholder |
| Help.MetaOf | vendor/toolkit/cli-utils/src/App.php:430 | `$this->messages[$name] ?? []` gives metadata exactly for names that have some |
| Help.AssembledHelp | vendor/toolkit/cli-utils/src/App.php:428-450 | definition of the help text before substitution: the notice and default usage without metadata, else description, usage and trimmed help body |
| Help.CommandHelpText | vendor/toolkit/cli-utils/src/App.php:425-463 | definition of the printed help: placeholders replaced in the whole text only with metadata and a truthy `strpos($help, '{')` |
| Help.HelpStartsWithDescription | vendor/toolkit/cli-utils/src/App.php:443-450 | a command's help starts with `ucfirst(desc)` |
| Help.HelpShowsUsage | vendor/toolkit/cli-utils/src/App.php:431-450 | a command's help shows its usage, which is the default `<script> <name> [args ...] [--opts ...]` when its own is falsy |
| Help.NoMetadataNoSubstitution | vendor/toolkit/cli-utils/src/App.php:433-437 | without metadata the help is printed as assembled |
| Help.LeadingPlaceholderDisablesSubstitution | vendor/toolkit/cli-utils/src/App.php:452 | a description starting with `{{` disables all substitution |
| Help.PlainHelpUnchanged | vendor/toolkit/cli-utils/src/App.php:452-460 | a help without `{` is printed as assembled |
| Help.HelpPlaceholderReplaced | vendor/toolkit/cli-utils/src/App.php:425-463 | a help body holding one placeholder, in a help with no other `{`, is printed with the placeholder's value in its place and the trailing line feeds cut; unless the value changes what `rtrim` cuts or leaves a falsy body, that is the help written with the value |
| Help.FullCommandExample | vendor/toolkit/cli-utils/src/App.php:425-463 | the help body "Run {{fullCmd}} now" of "sync" under script "app" prints as "Run app sync now" |
| Help.GreetHelpExample | vendor/toolkit/cli-utils/src/App.php:425-463 | the help of "greet" added with the description "Say hello" starts with "Say hello" and shows "app greet" |
| Dispatch.RouteOf | vendor/toolkit/cli-utils/src/App.php:195-211 | the handler route is taken exactly for a command that is not falsy, is `isset` (bound, and not to null), and has no help option; every other case is the overview (falsy or unset command) or the command's help |
| Dispatch.DoHandle | vendor/toolkit/cli-utils/src/App.php:195-219 | definition: the status and printed lines of the route taken (overview, command help, or the handler's outcome) |
| Dispatch.NullHandlerIsUnknown | vendor/toolkit/cli-utils/src/App.php:202-205 | a name bound to null through setCommands is not `isset`: it prints the unknown-command line and the overview, and gives 0 |
| Dispatch.OverviewRoutes | vendor/toolkit/cli-utils/src/App.php:197-205 | no command prints the overview; an unknown one prints `<red>ERROR</red>: The command '<c>' is not exists!` and then the overview; both give 0 |
| Dispatch.HelpOptionRoute | vendor/toolkit/cli-utils/src/App.php:207-210 | `-h` or `--help` prints the command's help and gives 0 |
| Dispatch.HandlerNotInvoked | vendor/toolkit/cli-utils/src/App.php:197-210 | in the overview and help routes the handlers play no part in the status or the output |
| Dispatch.ExecuteStatus | vendor/toolkit/cli-utils/src/App.php:212-218 | the handler's return value cast to int; InvalidArgumentException gives 0 with one ERROR line; another Throwable gives its code, or -1 for code 0 |
| Dispatch.InvalidHandlerRoute | vendor/toolkit/cli-utils/src/App.php:212-218 | a handler that cannot be run gives -1 and a diagnostic naming the command |
| Dispatch.MethodRefDispatchFails | vendor/toolkit/cli-utils/src/App.php:236-260 | a method callable passes addCommand, but dispatching it gives -1 |
| Dispatch.UnknownFooExample | vendor/toolkit/cli-utils/src/App.php:202-205 | `app foo` with no command "foo" prints the ERROR line first and gives 0 |
| CliApp.Global | vendor/toolkit/cli-utils/src/App.php:102-109 | the saved instance, or the "please create global app by new App()" error when none exists |
| CliApp.App.constructor | vendor/toolkit/cli-utils/src/App.php:117-141 | the global instance is set only when none exists yet; the params are the defaults overlaid by the config; the script is `argv[0]`; the width is 12 |
| CliApp.App.GetArg | vendor/toolkit/cli-utils/src/App.php:471-474 | the argument at that position or under that name, and the default only when there is none |
| CliApp.App.GetOpt | vendor/toolkit/cli-utils/src/App.php:504-507 | the option's value, and the default only when it is absent |
| CliApp.App.FindCommand | vendor/toolkit/cli-utils/src/App.php:158-176 | with a first positional argument, the command is that argument trimmed and the rest move down by one; without one, nothing changes; named arguments are untouched |
| CliApp.App.RenderOverview | vendor/toolkit/cli-utils/src/App.php:398-417 | the text built is the overview of the current `messages`; the method changes no field, so rendering twice with no change in between gives the same text |
| CliApp.App.AppendCommandLines | vendor/toolkit/cli-utils/src/App.php:410-415 | the loop appends the line of every name in order |
| CliApp.App.DisplayHelp | vendor/toolkit/cli-utils/src/App.php:391-420 | prints the error line unless the error is falsy, then the overview, and nothing else |
| CliApp.App.DisplayCommandHelp | vendor/toolkit/cli-utils/src/App.php:425-463 | prints the command's help text with substitution as above |
| CliApp.App.HandleException | vendor/toolkit/cli-utils/src/App.php:267-281 | status and printed line as `Handlers.HandleException` gives |
| CliApp.App.DoHandle | vendor/toolkit/cli-utils/src/App.php:195-219 | the status and the printed lines are those of `Dispatch.DoHandle` on the current state; a command bound to null takes the unknown-command branch |
| CliApp.App.Run | vendor/toolkit/cli-utils/src/App.php:148-153 | finds the command, then dispatches it; the returned status is what the process exits with |
| CliApp.App.AddCommand | vendor/toolkit/cli-utils/src/App.php:330-359 | the registry becomes what `Commands.Register` gives, or stays unchanged with the error; the width stays above 1 |
| CliApp.App.Add | vendor/toolkit/cli-utils/src/App.php:320-323 | the same as addCommand |
| CliApp.App.AddByConfig | vendor/toolkit/cli-utils/src/App.php:306-313 | the registry becomes what `Commands.AddByConfig` gives, or stays unchanged with the error |
| CliApp.App.AddObject | vendor/toolkit/cli-utils/src/App.php:287-300 | the registry becomes what `Commands.AddObject` gives, or stays unchanged with the error |
| CliApp.App.AddCommands | vendor/toolkit/cli-utils/src/App.php:366-382 | the registry and the error are those of `Commands.AddAll`: entries are registered in order up to the first that throws |
| CliApp.App.SetCommands | vendor/toolkit/cli-utils/src/App.php:629-632 | replaces the handlers without any check |
| CliApp.App.SetKeyWidth | vendor/toolkit/cli-utils/src/App.php:653-656 | stores the width if it is greater than 1, else 12 |
| CliApp.App.SetParams | vendor/toolkit/cli-utils/src/App.php:716-719 | `array_merge`: the given keys take the given values, and every other key keeps its value |

## Left out

- `Flags::parseArgv` is not part of this model. The constructor takes the parsed positional arguments, named arguments and options as parameters. `getcwd()` and `$_SERVER['argv']` are parameters too.
- `stop()`/`exit` and the `$exit` flag of `run`/`dispatch`: `Run` returns the status the process would exit with.
- Colour rendering of `<red>`, `<cyan>` and similar tags: they are kept as literal text. Colour styles and the trailing line feed of each println are not modelled.
- The file, line and trace in the diagnostic of `handleException`: only `Exception(<code>): <message>` is kept.
- Handler bodies and their side effects: a handler is modelled only by the outcome it produces. Return values other than `null` or an int (cast by `(int)`) are not modelled.
- `getIntArg`, `getStrArg`, `getIntOpt`, `getStrOpt`, `getBoolOpt`: PHP's loose casts are not modelled.
- `getScriptName` (`basename`) and the plain getters and setters (`getArgs`, `setArgs`, `getOpts`, `setOpts`, `setScript`, `setCommand`, `getParam`, `setParam`, `getMetas`, `setMetas` and others) are not modelled. Each only reads or assigns one field.
- Names that are decimal integers, such as "10", are stored by PHP as integer keys of `commands` and `messages`. Lookups by the name still find them. `ksort` compares integer keys as numbers, but the model orders all names as strings. For addCommands keys, the conversion is modelled by `Commands.ArrayKey`.
- Dispatch.OverviewRoutes: does not model the overview failing on a decimal-integer name. Under `strict_types`, `str_pad` on such an integer key (App.php line 411) throws an uncaught TypeError, so showing the overview ends in that error instead of status 0 once such a name has metadata.
- CliApp.App.DisplayHelp: the same gap as above; the overview text is given for every set of names.
- Values in `params` and in the metadata arrays are modelled as strings only.
- `strlen` counts bytes; the model counts characters, so the two agree only for ASCII names.
- `GetArg`: PHP would turn a numeric string key such as "0" into an integer key; the model keeps positional and named arguments apart.
- Constructor: a missing `argv[0]` leaves `$script` null in PHP, which interpolates as ""; the model stores "".
