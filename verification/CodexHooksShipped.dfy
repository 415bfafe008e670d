/** The six managed hooks as setup writes them, and the test by which they are found again. */
module CodexHooksShipped {
  import opened Text
  import opened CodexHooks

  const Script := "codex-native-hook.js"

  predicate OpensName(c: char) { c == '/' || c == '\\' }
  predicate ClosesName(c: char) { c == '"' || c == '\'' || IsSpace(c) }

  /** isOmcpManagedHookCommand: the script's name, at the start or behind a slash, and in front of a quote,
      a space or the end. */
  predicate NamesScript(command: string, i: nat) {
    && OccursAt(command, Script, i)
    && (i == 0 || OpensName(command[i - 1]))
    && (i + |Script| == |command| || (i + |Script| < |command| && ClosesName(command[i + |Script|])))
  }

  predicate IsOurCommand(command: string) { exists i: nat :: i <= |command| && NamesScript(command, i) }

  function CommandFor(root: string): string { "node \"" + root + "/dist/scripts/" + Script + "\"" }

  /** buildManagedCodexHooksConfig, field values as JSON text. */
  function EntryFor(root: string, event: string): Entry {
    var command := CommandFor(root);
    if event == "SessionStart" then Group(map["matcher" := "\"startup|resume\""], [Command(command, map[])])
    else if event == "PreToolUse" then
      Group(map["matcher" := "\"Bash\""], [Command(command, map["statusMessage" := "\"Running OMCP Bash preflight\""])])
    else if event == "PostToolUse" then Group(map[], [Command(command, map["statusMessage" := "\"Running OMCP tool review\""])])
    else if event == "UserPromptSubmit" then
      Group(map[], [Command(command, map["statusMessage" := "\"Applying OMCP prompt routing\""])])
    else if event == "Stop" then Group(map[], [Command(command, map["timeout" := "30"])])
    else Group(map[], [Command(command, map["timeout" := "15"])])
  }

  function Shipped(root: string): Managed { Managed(IsOurCommand, event => EntryFor(root, event)) }

  /** What setup writes is found again, wherever the package lies. */
  lemma OwnCommandIsOurs(root: string)
    ensures IsOurCommand(CommandFor(root))
  {
    var front := "node \"" + root + "/dist/scripts/";
    var command := CommandFor(root);
    assert command == front + Script + "\"";
    assert command[|front|..|front| + |Script|] == Script;
    OccursIff(command, Script, |front|);
    assert front[|front| - 1] == '/' && command[|front| - 1] == '/' && command[|front| + |Script|] == '"';
    assert NamesScript(command, |front|);
  }

  lemma ShippedOk(root: string)
    ensures ManagedOk(Shipped(root))
  {
    hide IsOurCommand, CommandFor;
    OwnCommandIsOurs(root);
  }

  /** Exactly six events are managed. */
  lemma SixEvents(event: string)
    ensures event in EventNames
            <==> event == "SessionStart" || event == "PreToolUse" || event == "PostToolUse" || event == "UserPromptSubmit"
                 || event == "Stop" || event == "ErrorOccurred"
    ensures |EventNames| == 6
  {
  }

  /** A whole setup of hooks.json: each of the six events ends in its own entry and has no other managed
      hook. */
  lemma ShippedMerge(root: string, f: HooksFile, event: string)
    requires event == "SessionStart" || event == "PreToolUse" || event == "PostToolUse" || event == "UserPromptSubmit"
             || event == "Stop" || event == "ErrorOccurred"
    ensures var entries := EntriesOf(EventsOf(Merge(Shipped(root), f)), event);
            entries != [] && entries[|entries| - 1] == EntryFor(root, event) && CountAll(Shipped(root), entries) == 1
  {
    hide EventNames, EntryFor, StripAll, CountAll, MergeEvents;
    SixEvents(event);
    ShippedOk(root);
    EventsDistinct();
    MergeIs(Shipped(root), f, event);
    MergeEventsIs(Shipped(root), EventsOf(f), EventNames, event);
  }
}
