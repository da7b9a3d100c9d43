/**
 * Command handlers and what running one does (App::runHandler and
 * App::handleException). PHP decides at dispatch time, by reflection, what a
 * handler value is; here that knowledge is carried by the handler value itself.
 */
module Handlers {
  import opened Wrappers
  import opened PhpString

  /** A thrown value: an InvalidArgumentException (or a subclass of it), or any other Throwable with its code. */
  datatype Throwable =
    | InvalidArgument(message: string)
    | Thrown(message: string, code: int)

  /** What invoking a handler does: it returns `null` (None) or an int, or it throws. */
  datatype Outcome =
    | Returns(value: Option<int>)
    | Throws(error: Throwable)

  /** A class named by a handler string: what its `execute` and `__invoke` methods do, when it has them. */
  datatype ClassDef = ClassDef(execute: Option<Outcome>, invoke: Option<Outcome>)

  /**
   * A handler value as App.php meets it.
   * - NameRef: a string; `asFunction` is present when a function of that name
   *   exists (`function_exists`), `asClass` when a class of that name does.
   * - Instance: an object (a Closure included); `invoke` is present when it has
   *   `__invoke`, `helpConfig` when it has `getHelpConfig`.
   * - MethodRef: a method callable, `[$objectOrClass, 'method']` or "Class::method".
   * - NullValue: `null`, which `isset` does not count as a bound command.
   * - OtherValue: any other value (a number, an array that is no callable).
   */
  datatype Handler =
    | NameRef(name: string, asFunction: Option<Outcome>, asClass: Option<ClassDef>)
    | Instance(invoke: Option<Outcome>, helpConfig: Option<map<string, string>>)
    | MethodRef
    | NullValue
    | OtherValue

  /** Whether the value passes PHP's `callable` parameter type. A class name alone is not callable. */
  predicate IsCallable(h: Handler) {
    match h
    case NameRef(_, f, _) => f.Some?
    case Instance(inv, _) => inv.Some?
    case MethodRef => true
    case NullValue => false
    case OtherValue => false
  }

  /** `isset($commands[$name])`: the name is bound, and not to `null`. */
  predicate IsSet(commands: map<string, Handler>, name: string) {
    name in commands && !commands[name].NullValue?
  }

  /** Whether runHandler finds something to run: a function, a class with `execute` or `__invoke`, or an invokable object. */
  predicate Resolvable(h: Handler) {
    match h
    case NameRef(_, f, c) => f.Some? || (c.Some? && (c.value.execute.Some? || c.value.invoke.Some?))
    case Instance(inv, _) => inv.Some?
    case _ => false
  }

  /** The RuntimeException runHandler throws when it cannot run a handler; its code is 0. */
  function InvalidHandler(command: string): Outcome {
    Throws(Thrown("Invalid handler of the command: " + command, 0))
  }

  /**
   * App::runHandler: the outcome of running the handler bound to `command`.
   * Tried in order: a function of that name; an instance of a class of that name,
   * through `execute`, else through `__invoke`; an object with `__invoke`. Anything
   * else throws the invalid-handler RuntimeException.
   */
  function RunHandler(command: string, h: Handler): (r: Outcome)
    ensures !Resolvable(h) ==> r == InvalidHandler(command)
    ensures h.NameRef? && h.asFunction.Some? ==> r == h.asFunction.value
    ensures (h.NameRef? && h.asFunction.None? && h.asClass.Some? && h.asClass.value.execute.Some?)
      ==> r == h.asClass.value.execute.value
    ensures (h.NameRef? && h.asFunction.None? && h.asClass.Some? && h.asClass.value.execute.None?
             && h.asClass.value.invoke.Some?)
      ==> r == h.asClass.value.invoke.value
    ensures h.Instance? && h.invoke.Some? ==> r == h.invoke.value
  {
    match h
    case NameRef(_, f, c) =>
      if f.Some? then f.value
      else if c.Some? && c.value.execute.Some? then c.value.execute.value
      else if c.Some? && c.value.invoke.Some? then c.value.invoke.value
      else InvalidHandler(command)
    case Instance(inv, _) =>
      if inv.Some? then inv.value else InvalidHandler(command)
    case _ => InvalidHandler(command)
  }

  /** Every value that passes the `callable` type, except a method callable, is one runHandler can run. */
  lemma CallableResolves(h: Handler)
    requires IsCallable(h) && !h.MethodRef?
    ensures Resolvable(h)
  {
  }

  /** `(int)$status` on what a handler returned: `null` gives 0. */
  function ReturnStatus(value: Option<int>): (status: int)
    ensures value.None? ==> status == 0
    ensures value.Some? ==> status == value.value
  {
    match value
    case None => 0
    case Some(i) => i
  }

  /** The status handleException gives and the text it prints. */
  datatype Handled = Handled(status: int, printed: seq<string>)

  /** The first line of the diagnostic handleException prints for a Throwable that is not an InvalidArgumentException. */
  function Diagnostic(code: int, message: string): string {
    "Exception(" + IntToString(code) + "): " + message
  }

  /**
   * App::handleException: an InvalidArgumentException prints one `ERROR: <msg>`
   * line and gives 0; any other Throwable prints its diagnostic and gives its
   * code, or -1 when that code is 0.
   */
  function HandleException(e: Throwable): (r: Handled)
    ensures r.status == 0 <==> e.InvalidArgument?
    ensures |r.printed| == 1
    ensures e.InvalidArgument? ==> r.printed == ["ERROR: " + e.message]
    ensures e.Thrown? && e.code != 0 ==> r.status == e.code
    ensures e.Thrown? && e.code == 0 ==> r.status == -1
    ensures e.Thrown? ==> r.printed == [Diagnostic(r.status, e.message)]
  {
    match e
    case InvalidArgument(msg) => Handled(0, ["ERROR: " + msg])
    case Thrown(msg, code) =>
      var status := if code != 0 then code else -1;
      Handled(status, [Diagnostic(status, msg)])
  }

  /** The exit status doHandle derives from a handler's outcome. */
  function OutcomeStatus(o: Outcome): int {
    match o
    case Returns(v) => ReturnStatus(v)
    case Throws(e) => HandleException(e).status
  }

  /** What doHandle prints for a handler's outcome (nothing when the handler returns). */
  function OutcomePrinted(o: Outcome): seq<string> {
    match o
    case Returns(_) => []
    case Throws(e) => HandleException(e).printed
  }

  /** A handler runHandler cannot run ends the dispatch with status -1 and one diagnostic naming the command. */
  lemma InvalidHandlerGivesMinusOne(command: string, h: Handler)
    requires !Resolvable(h)
    ensures OutcomeStatus(RunHandler(command, h)) == -1
    ensures OutcomePrinted(RunHandler(command, h)) == [Diagnostic(-1, "Invalid handler of the command: " + command)]
  {
  }
}
