/** buildMergedConfig of src/config/generator.ts, and why running setup twice changes no visible
    line. */
module ConfigMerge {
  import opened Text
  import opened ConfigLines
  import opened ConfigSections
  import opened ConfigTui
  import opened ConfigMarkers
  import opened ConfigTimeouts
  import opened ConfigRoot
  import opened ConfigStable

  // ----- the blocks setup writes -----

  const OmcpMarker := "oh-my-copilot (OMCP) Configuration"
  const OmcpEnd := "# End oh-my-copilot"
  const RegistryMarker := "oh-my-copilot (OMCP) " + "Shared MCP Registry Sync"
  const RegistryEnd := OmcpEnd + " shared MCP registry sync"
  const OmcpMarks := Marks(OmcpMarker, OmcpEnd)
  const RegistryMarks := Marks(RegistryMarker, RegistryEnd)
  const RuleLine: Line := "# " + Repeated('=', 60)

  const ManagedNote := "# Managed by omcp setup - " + "manual edits preserved on next setup"
  const RegistryNote := "# Managed by omcp setup - " + "edit the registry file instead"
  const TuiNote := "# OMCP TUI StatusLine " + "(Copilot CLI v0.101.0+)"

  function Repeated(c: char, n: nat): (r: string)
    ensures |r| == n && forall i :: 0 <= i < n ==> r[i] == c
  {
    if n == 0 then "" else Repeated(c, n - 1) + [c]
  }

  /** A server of the shared registry: its table header and its lines in the block. */
  datatype Shared = Shared(table: string, lines: seq<Line>)

  /** The options of one setup, the text of the managed servers, and three decisions: that of the TOML
      parser, stripOrphanedManagedNotify, whose expressions also match across lines, and the agent
      list. */
  datatype Setup = Setup(
    top: TopOptions, includeTui: bool, managed: seq<Line>, shared: seq<Shared>, source: seq<Line>,
    needs: Needs, dropNotify: seq<Line> -> seq<Line>, legacyAgent: string -> bool)

  function TuiPart(withTui: bool): seq<Line> {
    if withTui then ["", TuiNote, TuiTitle, StatusLine, ""] else []
  }

  function TablesMiddle(s: Setup, withTui: bool): seq<Line> {
    [ManagedNote, RuleLine, ""] + s.managed + TuiPart(withTui) + [RuleLine]
  }

  /** getOmcpTablesBlock. */
  function Tables(s: Setup, withTui: bool): Written {
    Written(RuleLine, "# " + OmcpMarker, TablesMiddle(s, withTui), OmcpEnd, [""])
  }

  /** configHasMcpServer. */
  predicate HasServer(lines: seq<Line>, table: string) { exists l :: l in lines && Trim(l) == table }

  function NewServers(servers: seq<Shared>, existing: seq<Line>): seq<Shared> {
    if servers == [] then []
    else (if HasServer(existing, servers[0].table) then [] else [servers[0]]) + NewServers(servers[1..], existing)
  }

  function ServerLines(servers: seq<Shared>): seq<Line> {
    if servers == [] then [] else servers[0].lines + ServerLines(servers[1..])
  }

  function RegistryMiddle(s: Setup, servers: seq<Shared>): seq<Line> {
    [RegistryNote] + s.source + [RuleLine, ""] + ServerLines(servers) + [RuleLine]
  }

  function Registry(s: Setup, servers: seq<Shared>): Written {
    Written(RuleLine, "# " + RegistryMarker, RegistryMiddle(s, servers), RegistryEnd, [])
  }

  /** getSharedMcpRegistryBlock, with the blank line put in front of it. */
  function RegistryLines(s: Setup, existing: seq<Line>): seq<Line> {
    var servers := NewServers(s.shared, existing);
    if servers == [] then [] else WrittenLines(Registry(s, servers))
  }

  // ----- the pipeline -----

  function Unmarked(lines: seq<Line>): seq<Line> {
    NonEmptyMarkers();
    StripBlocks(StripBlocks(lines, OmcpMarks), RegistryMarks)
  }

  lemma NonEmptyMarkers()
    ensures OmcpMarker != "" && RegistryMarker != ""
  {
  }

  /** Up to the orphaned tables. */
  function Cleared(s: Setup, lines: seq<Line>): seq<Line> {
    var quiet := s.dropNotify(StripRootKeys(lines, TopKeys, true));
    StripOrphans([], if Overrides(s.top) then StripRootKeys(quiet, {ModelKey}, false) else quiet, s.legacyAgent)
  }

  function Sectioned(lines: seq<Line>): seq<Line> {
    Upsert(Agents, Upsert(Env, Upsert(Features, lines)))
  }

  /** The user's file as setup leaves it, before its own lines go around it. */
  function Existing(s: Setup, lines: seq<Line>): seq<Line> {
    var ready := Sectioned(Cleared(s, lines));
    if s.includeTui then FoldTui(ready) else ready
  }

  function WritesTui(s: Setup, lines: seq<Line>): bool {
    s.includeTui && !HasTitle(Sectioned(Cleared(s, lines)), TuiTitle)
  }

  function Footer(s: Setup, existing: seq<Line>, withTui: bool): seq<Line> {
    RegistryLines(s, existing) + WrittenLines(Tables(s, withTui))
  }

  function Assemble(s: Setup, existing: seq<Line>, withTui: bool): seq<Line> {
    AddTimeouts(TopLines(s.top, existing) + [""] + TrimEndLines(existing) + Footer(s, existing, withTui), s.needs)
  }

  /** buildMergedConfig. */
  function Merge(s: Setup, config: seq<Line>): seq<Line> {
    var lines := Unmarked(config);
    Assemble(s, Existing(s, lines), WritesTui(s, lines))
  }

  // ----- what is asked of the options -----

  /** Holds none of the block texts. The registry's end text starts with the block's, so a line
      without the one is without the other. */
  predicate Plain(l: Line) {
    !Contains(l, OmcpMarker) && !Contains(l, RegistryMarker) && !Contains(l, OmcpEnd) && !Contains(l, RegistryEnd)
  }

  predicate PlainLines(lines: seq<Line>) { forall l :: l in lines ==> Plain(l) }

  predicate HasHeader(lines: seq<Line>) { exists l :: l in lines && IsHeader(l) }

  ghost predicate ManagedOk(managed: seq<Line>) {
    && PlainLines(managed) && HasHeader(managed) && NoOpeners(managed)
    && forall l :: l in managed && StartsMcp(l) ==> StartsOmcp(l)
  }

  ghost predicate SharedOk(s: Setup) {
    && PlainLines(s.source) && NoOpens(s.source)
    && (forall x :: x in s.shared ==> PlainLines(x.lines) && HasHeader(x.lines) && NoOpeners(x.lines)
                                      && x.table != "" && x.table[0] == '[' && Trim(x.table) == x.table)
  }

  predicate ValueOk(value: string) { value != "" && !IsSpace(value[0]) && !IsSpace(value[|value| - 1]) }

  predicate ModelOk(model: string) {
    Plain(ModelLine(model)) && !Contains(ModelLine(model), HookText)
  }

  predicate TopOk(o: TopOptions) {
    && ValueOk(o.notify) && ValueOk(o.effort) && ValueOk(o.instructions)
    && PlainLines(FixedTop(o)) && ModelOk(o.defaultModel) && (o.modelOverride.Some? ==> ModelOk(o.modelOverride.value))
  }

  /** Where the script's path stands in whole notify lines only, the orphaned-notify step takes out
      those lines. */
  ghost predicate NotifyOk(dropNotify: seq<Line> -> seq<Line>) {
    forall lines :: NotifyInLines(lines) ==> dropNotify(lines) == DropNotify([], lines)
  }

  /** Agent tables are named `agents.<name>`. */
  ghost predicate AgentsOk(legacyAgent: string -> bool) {
    forall name :: legacyAgent(name) ==> "agents." <= name
  }

  ghost predicate SetupOk(s: Setup) {
    TopOk(s.top) && ManagedOk(s.managed) && SharedOk(s) && Sensible(s.needs) && NotifyOk(s.dropNotify)
    && AgentsOk(s.legacyAgent)
  }

  /** The files the theorems speak of: outside the blocks and the managed root keys, the hook script's
      path stands in whole notify lines only. */
  predicate Readable(config: seq<Line>) {
    NotifyInLines(StripRootKeys(Unmarked(config), TopKeys, true))
  }
}
