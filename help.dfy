/**
 * The help texts App prints: the overview (App::displayHelp) and the help of one
 * command (App::displayCommandHelp), colour tags kept as the literal text they are.
 */
module Help {
  import opened Wrappers
  import opened PhpString
  import opened KeyOrder
  import opened Commands

  const NoDescription := "No description for the command"

  /** `$this->params[$key]`, read as a string; a missing entry reads as "". */
  function Param(params: map<string, string>, key: string): string {
    if key in params then params[key] else ""
  }

  /** The first line of the overview: `ucfirst(desc)`, then `(v<version>)` unless the version is falsy. */
  function AppDescription(params: map<string, string>): (r: string)
    ensures Falsy(Param(params, "version")) ==> r == UpperFirst(Param(params, "desc"))
    ensures !Falsy(Param(params, "version")) ==>
              r == UpperFirst(Param(params, "desc")) + "(<red>v" + Param(params, "version") + "</red>)"
  {
    var desc := UpperFirst(Param(params, "desc"));
    var ver := Param(params, "version");
    if Falsy(ver) then desc else desc + "(<red>v" + ver + "</red>)"
  }

  function UsageHint(script: string): string {
    "<cyan>" + script + " COMMAND -h</cyan>"
  }

  /** One line of the command list: the name padded on the right to the column width, then its description. */
  function CommandLine(name: string, meta: Meta, keyWidth: int): string {
    "  <green>" + PadRight(name, keyWidth) + "</green>   "
    + (if Falsy(meta.desc) then NoDescription else UpperFirst(meta.desc)) + "\n"
  }

  /** The lines of the command list for the names `ks`, in that order. */
  function LineList(ks: seq<string>, messages: map<string, Meta>, keyWidth: int): (r: seq<string>)
    requires forall k :: k in ks ==> k in messages
    ensures |r| == |ks|
    ensures forall i :: 0 <= i < |ks| ==> r[i] == CommandLine(ks[i], messages[ks[i]], keyWidth)
    decreases |ks|
  {
    if ks == [] then []
    else LineList(ks[..|ks| - 1], messages, keyWidth) + [CommandLine(ks[|ks| - 1], messages[ks[|ks| - 1]], keyWidth)]
  }

  /** The text built by appending `parts` one after another, as `$help .= ...` does. */
  function Join(parts: seq<string>): string
    decreases |parts|
  {
    if parts == [] then "" else Join(parts[..|parts| - 1]) + parts[|parts| - 1]
  }

  /** Joining one more part appends it. */
  lemma JoinSnoc(parts: seq<string>, x: string)
    ensures Join(parts + [x]) == Join(parts) + x
  {
    assert (parts + [x])[..|parts|] == parts;
  }

  /** Every part is found in the joined text. */
  lemma {:induction false} JoinContains(parts: seq<string>, i: nat)
    requires i < |parts|
    ensures exists p: nat :: OccursAt(Join(parts), parts[i], p)
    decreases |parts|
  {
    var init := parts[..|parts| - 1];
    if i == |parts| - 1 {
      OccursInConcat(Join(init), parts[i], "", parts[i], 0);
      assert Join(init) + parts[i] + "" == Join(parts);
    } else {
      assert init[i] == parts[i];
      JoinContains(init, i);
      var p: nat :| OccursAt(Join(init), parts[i], p);
      OccursInConcat("", Join(init), parts[|parts| - 1], parts[i], p);
      assert "" + Join(init) + parts[|parts| - 1] == Join(parts);
    }
  }

  /** Appending the line of the next name extends the command list built so far. */
  lemma JoinNextLine(ks: seq<string>, i: nat, messages: map<string, Meta>, keyWidth: int)
    requires i < |ks| && forall k :: k in ks ==> k in messages
    ensures Join(LineList(ks[..i + 1], messages, keyWidth))
            == Join(LineList(ks[..i], messages, keyWidth)) + CommandLine(ks[i], messages[ks[i]], keyWidth)
  {
    var next := ks[..i + 1];
    assert next[..|next| - 1] == ks[..i] && next[|next| - 1] == ks[i];
    JoinSnoc(LineList(ks[..i], messages, keyWidth), CommandLine(ks[i], messages[ks[i]], keyWidth));
  }

  /** The command list for the names `ks`. */
  function CommandLines(ks: seq<string>, messages: map<string, Meta>, keyWidth: int): string
    requires forall k :: k in ks ==> k in messages
  {
    Join(LineList(ks, messages, keyWidth))
  }

  function OverviewHead(params: map<string, string>, script: string): string {
    AppDescription(params) + "\n\n<comment>Usage:</comment> " + UsageHint(script) + "\n<comment>Commands:</comment>\n"
  }

  function OverviewFoot(script: string): string {
    "\nFor command usage please run: " + UsageHint(script)
  }

  /** The overview text for the command names `ks`. */
  function OverviewText(params: map<string, string>, script: string, ks: seq<string>,
                        messages: map<string, Meta>, keyWidth: int): string
    requires forall k :: k in ks ==> k in messages
  {
    OverviewHead(params, script) + CommandLines(ks, messages, keyWidth) + OverviewFoot(script)
  }

  /** The overview displayHelp prints: one line per key of `messages`, in ascending order. */
  ghost function Overview(params: map<string, string>, script: string, messages: map<string, Meta>, keyWidth: int): string {
    OverviewText(params, script, SortedKeys(messages.Keys), messages, keyWidth)
  }

  /** The overview is the head, the lines of the sorted names, and the foot. */
  lemma OverviewParts(params: map<string, string>, script: string, messages: map<string, Meta>, keyWidth: int,
                      ks: seq<string>)
    requires ks == SortedKeys(messages.Keys)
    ensures forall k :: k in ks ==> k in messages
    ensures OverviewHead(params, script) + Join(LineList(ks, messages, keyWidth)) + OverviewFoot(script)
            == Overview(params, script, messages, keyWidth)
  {
  }

  /** The line displayHelp prints before the overview when given an error. */
  function ErrorBanner(err: string): string {
    "<red>ERROR</red>: " + err + "\n"
  }

  /** Everything displayHelp($err) prints: the banner unless `err` is falsy, then the overview. */
  ghost function OverviewOutput(err: string, params: map<string, string>, script: string,
                                messages: map<string, Meta>, keyWidth: int): seq<string>
  {
    (if Falsy(err) then [] else [ErrorBanner(err)]) + [Overview(params, script, messages, keyWidth)]
  }

  /** The overview shows a line for every command that has metadata. */
  lemma OverviewListsEveryCommand(params: map<string, string>, script: string,
                                  messages: map<string, Meta>, keyWidth: int, name: string)
    requires name in messages
    ensures exists p: nat :: OccursAt(Overview(params, script, messages, keyWidth), CommandLine(name, messages[name], keyWidth), p)
  {
    var ks := SortedKeys(messages.Keys);
    var i :| 0 <= i < |ks| && ks[i] == name;
    var parts := LineList(ks, messages, keyWidth);
    JoinContains(parts, i);
    var p: nat :| OccursAt(Join(parts), parts[i], p);
    OccursInConcat(OverviewHead(params, script), Join(parts), OverviewFoot(script), parts[i], p);
    assert Overview(params, script, messages, keyWidth) == OverviewHead(params, script) + Join(parts) + OverviewFoot(script);
  }

  function FullCommand(script: string, name: string): string {
    script + " " + name
  }

  /** The usage shown when a command has no usage of its own. */
  function DefaultUsage(script: string, name: string): string {
    FullCommand(script, name) + " [args ...] [--opts ...]"
  }

  /** The default usage holds a `{` only when the script or the name does. */
  lemma DefaultUsageNoBrace(script: string, name: string)
    requires '{' !in script && '{' !in name
    ensures '{' !in DefaultUsage(script, name)
  {
    assert '{' !in " [args ...] [--opts ...]";
  }

  /** The `strtr` pairs of displayCommandHelp, in the order App.php lists them. */
  function Placeholders(name: string, script: string, pwd: string): seq<(string, string)> {
    [("{{command}}", name), ("{{fullCmd}}", FullCommand(script, name)), ("{{workDir}}", pwd),
     ("{{pwdDir}}", pwd), ("{{script}}", script)]
  }

  /** No placeholder is a prefix of another, so the first match `Translate` takes is the longest match `strtr` takes. */
  lemma PlaceholdersPrefixFree(name: string, script: string, pwd: string)
    ensures PrefixFree(Placeholders(name, script, pwd))
  {
    var t := Placeholders(name, script, pwd);
    forall i, j | 0 <= i < |t| && 0 <= j < |t| && i != j ensures !(t[i].0 <= t[j].0) {
      assert t[i].0[2] != t[j].0[2] || t[i].0[3] != t[j].0[3];
    }
  }

  /** Every placeholder starts with `{`, so a match can only start at a `{`. */
  lemma MatchStartsWithBrace(s: string, name: string, script: string, pwd: string)
    requires FirstMatch(s, Placeholders(name, script, pwd), 0).Some?
    ensures s != [] && s[0] == '{'
  {
    var t := Placeholders(name, script, pwd);
    var i := FirstMatch(s, t, 0).value;
    assert t[i].0[0] == '{';
  }

  /** Text without `{` is left alone by the placeholder substitution. */
  lemma NoBraceTranslatesToItself(a: string, b: string, name: string, script: string, pwd: string)
    requires '{' !in a
    ensures Translate(a + b, Placeholders(name, script, pwd)) == a + Translate(b, Placeholders(name, script, pwd))
  {
    var t := Placeholders(name, script, pwd);
    forall i | 0 <= i < |a| ensures FirstMatch((a + b)[i..], t, 0).None? {
      assert (a + b)[i..][0] == a[i];
      if FirstMatch((a + b)[i..], t, 0).Some? {
        MatchStartsWithBrace((a + b)[i..], name, script, pwd);
      }
    }
    TranslateSkipsPlain(a, b, t);
  }

  /** A replacement is never scanned again: `{{command}}` becomes the name even when the name holds a placeholder. */
  lemma ReplacementNotRescanned(name: string, script: string, pwd: string, rest: string)
    ensures Translate("{{command}}" + rest, Placeholders(name, script, pwd))
            == name + Translate(rest, Placeholders(name, script, pwd))
  {
    var t := Placeholders(name, script, pwd);
    PlaceholdersPrefixFree(name, script, pwd);
    KeyMatchesItself(t, 0, rest);
    TranslateKey("{{command}}", rest, t, 0);
  }

  const UsageHeading := "<comment>Usage:</comment> \n  "

  /** The usage a command's help shows: its own, or the default one when its own is falsy. */
  function UsageOf(name: string, script: string, m: Meta): string {
    if Falsy(m.usage) then DefaultUsage(script, name) else m.usage
  }

  /** The usage node of a command's help, between the line feeds that join it to its neighbours. */
  function UsageBlock(name: string, script: string, m: Meta): string {
    "\n" + UsageHeading + UsageOf(name, script, m) + "\n" + "\n"
  }

  /** The description and usage part of a command's help. */
  function HelpHead(name: string, script: string, m: Meta): string {
    UpperFirst(m.desc) + UsageBlock(name, script, m)
  }

  /** The help body with its trailing line feeds cut off, then one line feed; nothing when that is falsy. */
  function HelpBody(m: Meta): string {
    var userHelp := TrimEnd(m.help);
    if Falsy(userHelp) then "" else userHelp + "\n"
  }

  /**
   * The help text displayCommandHelp assembles, before substitution: without
   * metadata a fixed notice and the default usage; otherwise the description,
   * the usage and the help body.
   */
  function AssembledHelp(name: string, script: string, meta: Option<Meta>): string
  {
    match meta
    case None => NoDescription + "\n" + UsageHeading + DefaultUsage(script, name)
    case Some(m) => HelpHead(name, script, m) + HelpBody(m)
  }

  /** The help of a command with metadata starts with its description. */
  lemma HelpStartsWithDescription(name: string, script: string, m: Meta)
    ensures OccursAt(AssembledHelp(name, script, Some(m)), UpperFirst(m.desc), 0)
  {
    var desc := UpperFirst(m.desc);
    var rest := UsageBlock(name, script, m) + HelpBody(m);
    assert (desc + UsageBlock(name, script, m)) + HelpBody(m) == desc + (UsageBlock(name, script, m) + HelpBody(m));
    PrefixOccurs(desc, rest);
  }

  /** The help of a command with metadata shows its usage. */
  lemma HelpShowsUsage(name: string, script: string, m: Meta)
    ensures exists p: nat :: OccursAt(AssembledHelp(name, script, Some(m)), UsageOf(name, script, m), p)
  {
    var usage, block := UsageOf(name, script, m), UsageBlock(name, script, m);
    var desc := UpperFirst(m.desc);
    PrefixOccurs(usage, "\n" + "\n");
    OccursInConcat("\n" + UsageHeading, usage, "\n" + "\n", usage, 0);
    assert "\n" + UsageHeading + usage + ("\n" + "\n") == block;
    PrefixOccurs(block, "");
    assert block + "" == block;
    OccursInConcat(desc, block, HelpBody(m), block, 0);
    OccursWithin(AssembledHelp(name, script, Some(m)), block, usage, |desc|, |"\n" + UsageHeading|);
  }

  /** `ucfirst` brings no `{` into a text. */
  lemma UpperFirstNoBrace(s: string)
    requires '{' !in s
    ensures '{' !in UpperFirst(s)
  {
    var r := UpperFirst(s);
    forall k | 0 <= k < |r| ensures r[k] != '{' {
      if k > 0 {
        assert r[k] == r[1..][k - 1] == s[k];
      }
    }
  }

  /** The head of the help has no `{` when neither the description nor the usage has one. */
  lemma HelpHeadNoBrace(name: string, script: string, m: Meta)
    requires '{' !in m.desc && '{' !in UsageOf(name, script, m)
    ensures HelpHead(name, script, m) != [] && '{' !in HelpHead(name, script, m)
  {
    UpperFirstNoBrace(m.desc);
    assert '{' !in UsageHeading;
  }

  /** `$this->messages[$name] ?? []`: the metadata of a command, if it has any. */
  function MetaOf(messages: map<string, Meta>, name: string): (r: Option<Meta>)
    ensures r.Some? <==> name in messages
    ensures r.Some? ==> r.value == messages[name]
  {
    if name in messages then Some(messages[name]) else None
  }

  /**
   * The text displayCommandHelp prints. The placeholders are replaced in the whole
   * assembled text, only when metadata exists and only when `strpos($help, '{{')`
   * is truthy, which is not the case when the text starts with `{{`.
   */
  function CommandHelpText(name: string, script: string, pwd: string, meta: Option<Meta>): string {
    var text := AssembledHelp(name, script, meta);
    if meta.Some? && StrposTruthy(text, "{{") then Translate(text, Placeholders(name, script, pwd)) else text
  }

  /** Without metadata nothing is substituted, even when the name itself holds a placeholder. */
  lemma NoMetadataNoSubstitution(name: string, script: string, pwd: string)
    ensures CommandHelpText(name, script, pwd, None) == AssembledHelp(name, script, None)
  {
  }

  /** A description starting with `{{` puts `{{` at position 0, and then nothing in the help is substituted. */
  lemma LeadingPlaceholderDisablesSubstitution(name: string, script: string, pwd: string, m: Meta)
    requires |m.desc| >= 2 && m.desc[..2] == "{{"
    ensures CommandHelpText(name, script, pwd, Some(m)) == AssembledHelp(name, script, Some(m))
  {
    var text := AssembledHelp(name, script, Some(m));
    assert UpperFirst(m.desc)[..2] == "{{";
    assert text[..2] == "{{";
    assert OccursAt(text, "{{", 0);
    StrposTruthyIff(text, "{{");
  }

  /** A help text without `{` is printed as assembled. */
  lemma PlainHelpUnchanged(name: string, script: string, pwd: string, meta: Option<Meta>)
    requires '{' !in AssembledHelp(name, script, meta)
    ensures CommandHelpText(name, script, pwd, meta) == AssembledHelp(name, script, meta)
  {
    var text := AssembledHelp(name, script, meta);
    assert text + [] == text;
    NoBraceTranslatesToItself(text, [], name, script, pwd);
  }

  /** Text whose only `{` are those of one placeholder has that placeholder replaced and nothing else. */
  lemma TranslateOne(head: string, i: nat, tail: string, name: string, script: string, pwd: string)
    requires i < |Placeholders(name, script, pwd)| && '{' !in head && '{' !in tail
    ensures Translate(head + Placeholders(name, script, pwd)[i].0 + tail, Placeholders(name, script, pwd))
            == head + Placeholders(name, script, pwd)[i].1 + tail
  {
    var t := Placeholders(name, script, pwd);
    var key := t[i].0;
    assert head + key + tail == head + (key + tail);
    NoBraceTranslatesToItself(head, key + tail, name, script, pwd);
    PlaceholdersPrefixFree(name, script, pwd);
    KeyMatchesItself(t, i, tail);
    TranslateKey(key, tail, t, i);
    assert tail + [] == tail;
    NoBraceTranslatesToItself(tail, [], name, script, pwd);
  }

  /** `strpos($text, '{{')` is truthy when `{{` occurs after a first character that is not `{`. */
  lemma StrposAfterHead(head: string, key: string, tail: string)
    requires head != [] && head[0] != '{' && |key| >= 2 && key[..2] == "{{"
    ensures StrposTruthy(head + key + tail, "{{")
  {
    var text := head + key + tail;
    OccursInConcat(head, "{{", key[2..] + tail, "{{", 0);
    assert head + "{{" + (key[2..] + tail) == text;
    assert text[0] == head[0];
    StrposTruthyIff(text, "{{");
  }

  /** Every placeholder opens with `{{`. */
  lemma PlaceholderOpens(name: string, script: string, pwd: string, i: nat)
    requires i < |Placeholders(name, script, pwd)|
    ensures |Placeholders(name, script, pwd)[i].0| > 2 && Placeholders(name, script, pwd)[i].0[..2] == "{{"
    ensures Placeholders(name, script, pwd)[i].0[|Placeholders(name, script, pwd)[i].0| - 1] == '}'
  {
  }

  /** Regrouping a concatenation of five texts. */
  lemma Regroup(h: string, b: string, k: string, a: string, z: string)
    ensures h + ((b + k + a) + z) == (h + b) + k + (a + z)
  {
  }

  /** Where a help body `before + key + after` sits in the assembled help, when `key` does not end in a line feed. */
  lemma HelpBodyAt(name: string, script: string, m: Meta, before: string, key: string, after: string)
    requires m.help == before + key + after && |key| > 1 && key[|key| - 1] != '\n'
    ensures AssembledHelp(name, script, Some(m)) == (HelpHead(name, script, m) + before) + key + (TrimEnd(after) + "\n")
  {
    var head := HelpHead(name, script, m);
    assert m.help == (before + key) + after;
    TrimEndAfter(before + key, after);
    assert |TrimEnd(m.help)| > 1;
    assert HelpBody(m) == (before + key + TrimEnd(after)) + "\n";
    Regroup(head, before, key, TrimEnd(after), "\n");
  }

  /**
   * A help body holding one placeholder, in a help whose other parts hold no `{`,
   * is printed with the placeholder's value in its place and the body's trailing
   * line feeds cut as `rtrim` cuts them; so, unless the value changes what `rtrim`
   * cuts or leaves a falsy body, as if the body had been written with the value.
   */
  lemma HelpPlaceholderReplaced(name: string, script: string, pwd: string, m: Meta,
                                before: string, i: nat, after: string)
    requires i < |Placeholders(name, script, pwd)|
    requires m.help == before + Placeholders(name, script, pwd)[i].0 + after
    requires '{' !in m.desc && '{' !in UsageOf(name, script, m) && '{' !in before && '{' !in after
    ensures CommandHelpText(name, script, pwd, Some(m))
            == (HelpHead(name, script, m) + before) + Placeholders(name, script, pwd)[i].1 + (TrimEnd(after) + "\n")
    ensures var body := before + Placeholders(name, script, pwd)[i].1 + TrimEnd(after);
            !Falsy(body) && TrimEnd(before + Placeholders(name, script, pwd)[i].1 + after) == body ==>
            CommandHelpText(name, script, pwd, Some(m))
            == AssembledHelp(name, script, Some(m.(help := before + Placeholders(name, script, pwd)[i].1 + after)))
  {
    var t := Placeholders(name, script, pwd);
    PlaceholderOpens(name, script, pwd, i);
    HelpBodyAt(name, script, m, before, t[i].0, after);
    HelpHeadNoBrace(name, script, m);
    var head := HelpHead(name, script, m);
    var tail := TrimEnd(after);
    forall k | 0 <= k < |tail| ensures tail[k] != '{' {
      assert tail[k] == after[k];
    }
    assert '{' !in tail + "\n";
    assert (head + before)[0] == head[0];
    StrposAfterHead(head + before, t[i].0, tail + "\n");
    TranslateOne(head + before, i, tail + "\n", name, script, pwd);
    var body := before + t[i].1 + tail;
    var m' := m.(help := before + t[i].1 + after);
    if !Falsy(body) && TrimEnd(m'.help) == body {
      assert HelpHead(name, script, m') == head;
      assert HelpBody(m') == body + "\n";
      Regroup(head, before, t[i].1, tail, "\n");
    }
  }

  /** The body and usage facts the "sync" example rests on. */
  lemma SyncHelpShape(m: Meta)
    requires m == Meta("Sync files", "", "Run {{fullCmd}} now", map[])
    ensures '{' !in m.desc && '{' !in UsageOf("sync", "app", m)
  {
    assert Falsy(m.usage);
    assert '{' !in "app" && '{' !in "sync";
    DefaultUsageNoBrace("app", "sync");
  }

  /** The "sync" help body around its placeholder. */
  lemma SyncHelpBody()
    ensures "Run {{fullCmd}} now" == "Run " + "{{fullCmd}}" + " now"
  {
  }

  /** The "sync" help body with the full command written out. */
  lemma SyncHelpRewritten(m: Meta)
    requires m == Meta("Sync files", "", "Run {{fullCmd}} now", map[])
    ensures m.(help := "Run " + FullCommand("app", "sync") + " now") == Meta("Sync files", "", "Run app sync now", map[])
  {
  }

  /**
   * Help body "Run {{fullCmd}} now" of command "sync" under script "app": the
   * text printed is the one assembled from the body "Run app sync now".
   */
  lemma FullCommandExample(pwd: string)
    ensures CommandHelpText("sync", "app", pwd, Some(Meta("Sync files", "", "Run {{fullCmd}} now", map[])))
            == AssembledHelp("sync", "app", Some(Meta("Sync files", "", "Run app sync now", map[])))
  {
    var m := Meta("Sync files", "", "Run {{fullCmd}} now", map[]);
    SyncHelpShape(m);
    SyncHelpBody();
    SyncHelpRewritten(m);
    HelpPlaceholderReplaced("sync", "app", pwd, m, "Run ", 1, " now");
  }

  /** The facts about the "greet" help the example rests on. */
  lemma GreetHelpShape(m: Meta)
    requires m == Meta("Say hello", "", "", map[])
    ensures UpperFirst(m.desc) == "Say hello"
    ensures UsageOf("greet", "app", m) == FullCommand("app", "greet") + " [args ...] [--opts ...]"
    ensures '{' !in UsageOf("greet", "app", m)
    ensures HelpBody(m) == ""
  {
    DefaultUsageNoBrace("app", "greet");
  }

  /** The metadata a bare description "Say hello" is normalized to. */
  lemma GreetMeta()
    ensures Normalize(Text("Say hello")) == Meta("Say hello", "", "", map[])
  {
    TrimKeepsClean("Say hello");
  }

  /** The printed help of "greet" with the metadata a bare "Say hello" is normalized to. */
  lemma GreetHelpOf(m: Meta, pwd: string)
    requires m == Meta("Say hello", "", "", map[])
    ensures var text := CommandHelpText("greet", "app", pwd, Some(m));
            && text == AssembledHelp("greet", "app", Some(m))
            && OccursAt(text, "Say hello", 0)
            && exists p: nat :: OccursAt(text, FullCommand("app", "greet"), p)
  {
    GreetHelpShape(m);
    var full := FullCommand("app", "greet");
    var usage := UsageOf("greet", "app", m);
    HelpHeadNoBrace("greet", "app", m);
    var text := AssembledHelp("greet", "app", Some(m));
    assert text == HelpHead("greet", "app", m) + "";
    PlainHelpUnchanged("greet", "app", pwd, Some(m));
    HelpStartsWithDescription("greet", "app", m);
    HelpShowsUsage("greet", "app", m);
    var p: nat :| OccursAt(text, usage, p);
    assert OccursAt(usage, full, 0);
    OccursWithin(text, usage, full, p, 0);
  }

  /**
   * Help of "greet", described as "Say hello": printed as assembled, it starts
   * with the description and its usage line holds "app greet".
   */
  lemma GreetHelpExample(pwd: string)
    ensures var text := CommandHelpText("greet", "app", pwd, Some(Normalize(Text("Say hello"))));
            && text == AssembledHelp("greet", "app", Some(Normalize(Text("Say hello"))))
            && OccursAt(text, "Say hello", 0)
            && exists p: nat :: OccursAt(text, FullCommand("app", "greet"), p)
  {
    GreetMeta();
    GreetHelpOf(Normalize(Text("Say hello")), pwd);
  }
}
