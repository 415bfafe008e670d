/** The sync of managed MCP servers into copilot's mcp-config.json, src/config/mcp-registry.ts.
    JSON text, its parse errors and the user's key order at the top level stay outside the model;
    inside a server entry the order of keys is kept, because entries are compared as text. */
module McpRegistry {
  datatype Option<T> = None | Some(value: T)

  datatype Field = Field(key: string, value: Json)
  datatype Json = Null | Bool(b: bool) | Num(n: real) | Str(s: string) | Arr(items: seq<Json>) | Obj(fields: seq<Field>)

  datatype Transport = Stdio | Http | Sse

  datatype Entry = Entry(
    name: string, command: Option<string>, args: Option<seq<string>>, env: Option<seq<Field>>,
    url: Option<string>, headers: Option<seq<Field>>, transport: Option<Transport>,
    tools: Option<Json>, timeoutMs: Option<real>)

  /** The marker field: absent, not an array, or an array whose non-strings are `None`. */
  datatype Marker = NoMarker | NotArray | Names(items: seq<Option<string>>)

  /** The mcpServers field: absent, not an object, or an object. */
  datatype Servers = Missing | NotObject | Servers(byName: map<string, Json>)

  datatype Document =
    | Blank                 // nothing but white space
    | Malformed             // not JSON
    | NotRecord             // JSON, but not an object
    | Document(marker: Marker, servers: Servers, rest: map<string, Json>)

  datatype Problem = ParseError | NeedsObject | NeedsServerObject

  /** A plan: the new document unless nothing changes, and what becomes of each server. `skipped`
      names the entries a warning is given for. */
  datatype Plan = Plan(
    content: Option<Document>, added: seq<string>, updated: seq<string>, same: seq<string>,
    removed: seq<string>, skipped: seq<string>, problem: Option<Problem>)

  // ----- one server entry -----

  function Strings(items: seq<string>): seq<Json> {
    if items == [] then [] else [Str(items[0])] + Strings(items[1..])
  }

  function Optional(key: string, value: Option<Json>): seq<Field> {
    if value.Some? then [Field(key, value.value)] else []
  }

  /** The transport an entry ends up with: its own, or http for an entry with a url. */
  function TransportOf(e: Entry): Transport {
    if e.transport.Some? then e.transport.value
    else if e.url.Some? && e.url.value != "" then Http else Stdio
  }

  function TypeName(t: Transport): string {
    match t case Stdio => "local" case Http => "http" case Sse => "sse"
  }

  function Text(value: Option<string>): Option<Json> {
    if value.Some? then Some(Str(value.value)) else None
  }

  function NonEmptyList(value: Option<seq<string>>): Option<Json> {
    if value.Some? && value.value != [] then Some(Arr(Strings(value.value))) else None
  }

  function NonEmptyRecord(value: Option<seq<Field>>): Option<Json> {
    if value.Some? && value.value != [] then Some(Obj(value.value)) else None
  }

  /** toCopilotMcpServerConfig. */
  function ServerConfig(e: Entry): Json {
    var t := TransportOf(e);
    Obj([Field("type", Str(TypeName(t)))]
        + (if t == Stdio
           then Optional("command", Text(e.command)) + Optional("args", NonEmptyList(e.args)) + Optional("env", NonEmptyRecord(e.env))
           else Optional("url", Text(e.url)) + Optional("headers", NonEmptyRecord(e.headers)))
        + Optional("tools", e.tools)
        + Optional("timeout", if e.timeoutMs.Some? then Some(Num(e.timeoutMs.value)) else None))
  }

  predicate HasField(j: Json, key: string) {
    j.Obj? && exists f :: f in j.fields && f.key == key
  }

  // ----- what an entry is written as -----

  /** The first value of the key. */
  function Lookup(fields: seq<Field>, key: string): Option<Json> {
    if fields == [] then None else if fields[0].key == key then Some(fields[0].value) else Lookup(fields[1..], key)
  }

  lemma {:induction false} LookupConcat(a: seq<Field>, b: seq<Field>, key: string)
    ensures Lookup(a + b, key) == if Lookup(a, key).Some? then Lookup(a, key) else Lookup(b, key)
  {
    if a == [] {
      assert a + b == b;
    } else {
      assert (a + b)[0] == a[0] && (a + b)[1..] == a[1..] + b;
      LookupConcat(a[1..], b, key);
    }
  }

  lemma LookupOptional(k: string, value: Option<Json>, key: string)
    ensures Lookup(Optional(k, value), key) == if k == key then value else None
  {
    assert Optional(k, value) != [] ==> Optional(k, value)[1..] == [];
  }

  /** A local server: it says so, or says nothing and has no url. */
  predicate IsLocal(e: Entry) {
    if e.transport == None then e.url == None || e.url == Some("") else e.transport == Some(Stdio)
  }

  ghost predicate IsList(j: Json, items: seq<string>) {
    j.Arr? && |j.items| == |items| && forall i :: 0 <= i < |items| ==> j.items[i] == Str(items[i])
  }

  lemma {:induction false} StringsIs(items: seq<string>)
    ensures IsList(Arr(Strings(items)), items)
  {
    if items != [] {
      StringsIs(items[1..]);
    }
  }

  /** The fields in order, each with the name it is looked up by. */
  lemma ConfigLookup(e: Entry, key: string)
    ensures var fields := ServerConfig(e).fields;
            var stdio := TransportOf(e) == Stdio;
            && (key == "type" ==> Lookup(fields, key) == Some(Str(TypeName(TransportOf(e)))))
            && (key == "command" ==> Lookup(fields, key) == if stdio then Text(e.command) else None)
            && (key == "args" ==> Lookup(fields, key) == if stdio then NonEmptyList(e.args) else None)
            && (key == "env" ==> Lookup(fields, key) == if stdio then NonEmptyRecord(e.env) else None)
            && (key == "url" ==> Lookup(fields, key) == if stdio then None else Text(e.url))
            && (key == "headers" ==> Lookup(fields, key) == if stdio then None else NonEmptyRecord(e.headers))
            && (key == "tools" ==> Lookup(fields, key) == e.tools)
            && (key == "timeout" ==> Lookup(fields, key) == if e.timeoutMs.Some? then Some(Num(e.timeoutMs.value)) else None)
  {
    hide Lookup, Optional, TransportOf, NonEmptyList, NonEmptyRecord, TypeName, Text;
    var first := [Field("type", Str(TypeName(TransportOf(e))))];
    var timeout := if e.timeoutMs.Some? then Some(Num(e.timeoutMs.value)) else None;
    var middle: seq<Field>;
    TypeLookup(Str(TypeName(TransportOf(e))), key);
    LookupOptional("tools", e.tools, key);
    LookupOptional("timeout", timeout, key);
    if TransportOf(e) == Stdio {
      var c, a, v := Optional("command", Text(e.command)), Optional("args", NonEmptyList(e.args)), Optional("env", NonEmptyRecord(e.env));
      LookupOptional("command", Text(e.command), key);
      LookupOptional("args", NonEmptyList(e.args), key);
      LookupOptional("env", NonEmptyRecord(e.env), key);
      LookupConcat(c, a, key);
      LookupConcat(c + a, v, key);
      middle := c + a + v;
    } else {
      var u, h := Optional("url", Text(e.url)), Optional("headers", NonEmptyRecord(e.headers));
      LookupOptional("url", Text(e.url), key);
      LookupOptional("headers", NonEmptyRecord(e.headers), key);
      LookupConcat(u, h, key);
      middle := u + h;
    }
    LookupConcat(first, middle, key);
    LookupConcat(first + middle, Optional("tools", e.tools), key);
    LookupConcat(first + middle + Optional("tools", e.tools), Optional("timeout", timeout), key);
    assert ServerConfig(e).fields == first + middle + Optional("tools", e.tools) + Optional("timeout", timeout);
  }

  lemma TypeLookup(value: Json, key: string)
    ensures Lookup([Field("type", value)], key) == if key == "type" then Some(value) else None
  {
    assert [Field("type", value)][1..] == [];
  }

  /** What copilot finds of an entry: a local server's command line and environment, a remote one's address
      and headers, empty lists and records left out, and tools and timeout of either. */
  lemma EntryIsWritten(e: Entry)
    ensures ServerConfig(e).Obj?
    ensures var fields := ServerConfig(e).fields;
            && Lookup(fields, "type") == Some(Str(if IsLocal(e) then "local" else if e.transport == Some(Sse) then "sse" else "http"))
            && Lookup(fields, "command") == (if IsLocal(e) && e.command.Some? then Some(Str(e.command.value)) else None)
            && (Lookup(fields, "args").Some? <==> IsLocal(e) && e.args.Some? && e.args.value != [])
            && (Lookup(fields, "args").Some? ==> IsList(Lookup(fields, "args").value, e.args.value))
            && Lookup(fields, "env") == (if IsLocal(e) && e.env.Some? && e.env.value != [] then Some(Obj(e.env.value)) else None)
            && Lookup(fields, "url") == (if !IsLocal(e) && e.url.Some? then Some(Str(e.url.value)) else None)
            && Lookup(fields, "headers") == (if !IsLocal(e) && e.headers.Some? && e.headers.value != [] then Some(Obj(e.headers.value)) else None)
            && Lookup(fields, "tools") == e.tools
            && Lookup(fields, "timeout") == (if e.timeoutMs.Some? then Some(Num(e.timeoutMs.value)) else None)
  {
    ConfigLookup(e, "type");
    ConfigLookup(e, "command");
    ConfigLookup(e, "args");
    ConfigLookup(e, "env");
    ConfigLookup(e, "url");
    ConfigLookup(e, "headers");
    ConfigLookup(e, "tools");
    ConfigLookup(e, "timeout");
    if e.args.Some? { StringsIs(e.args.value); }
    hide Lookup, Strings, IsList;
  }

  lemma {:induction false} LookupHas(fields: seq<Field>, key: string)
    ensures HasField(Obj(fields), key) <==> Lookup(fields, key).Some?
  {
    if fields != [] {
      LookupHas(fields[1..], key);
      assert fields == [fields[0]] + fields[1..];
    }
  }

  /** A local server never carries a url or headers, a remote one never a command line. */
  lemma LocalOrRemote(e: Entry)
    ensures IsLocal(e) ==> !HasField(ServerConfig(e), "url") && !HasField(ServerConfig(e), "headers")
    ensures !IsLocal(e) ==> !HasField(ServerConfig(e), "command") && !HasField(ServerConfig(e), "args")
                            && !HasField(ServerConfig(e), "env")
    ensures HasField(ServerConfig(e), "command") <==> IsLocal(e) && e.command.Some?
  {
    EntryIsWritten(e);
    hide HasField, Lookup;
    var fields := ServerConfig(e).fields;
    LookupHas(fields, "url");
    LookupHas(fields, "headers");
    LookupHas(fields, "command");
    LookupHas(fields, "args");
    LookupHas(fields, "env");
  }

  // ----- names in order -----

  /** UTF-16 order of strings. */
  predicate Before(a: string, b: string)
    decreases |a|
  {
    a == "" || (b != "" && (a[0] < b[0] || (a[0] == b[0] && Before(a[1..], b[1..]))))
  }

  lemma {:induction false} BeforeTotal(a: string, b: string)
    ensures Before(a, b) || Before(b, a)
    ensures Before(a, b) && Before(b, a) ==> a == b
    decreases |a|
  {
    if a != "" && b != "" && a[0] == b[0] {
      BeforeTotal(a[1..], b[1..]);
      assert a == [a[0]] + a[1..] && b == [b[0]] + b[1..];
    }
  }

  lemma {:induction false} BeforeChains(a: string, b: string, c: string)
    requires Before(a, b) && Before(b, c)
    ensures Before(a, c)
    decreases |a|
  {
    if a != "" && a[0] == b[0] == c[0] {
      BeforeChains(a[1..], b[1..], c[1..]);
    }
  }

  function InsertName(names: seq<string>, name: string): seq<string> {
    if names == [] || Before(name, names[0]) then [name] + names else [names[0]] + InsertName(names[1..], name)
  }

  function SortNames(names: seq<string>): seq<string> {
    if names == [] then [] else InsertName(SortNames(names[1..]), names[0])
  }

  ghost predicate Ordered(names: seq<string>) {
    forall i, j :: 0 <= i < j < |names| ==> Before(names[i], names[j])
  }

  lemma {:induction false} InsertNameHolds(names: seq<string>, name: string)
    ensures multiset(InsertName(names, name)) == multiset(names) + multiset{name}
  {
    if names != [] && !Before(name, names[0]) {
      InsertNameHolds(names[1..], name);
      assert names == [names[0]] + names[1..];
    }
  }

  lemma OrderedCons(name: string, names: seq<string>)
    requires Ordered(names) && forall n :: n in names ==> Before(name, n)
    ensures Ordered([name] + names)
  {
  }

  lemma {:induction false} InsertNameOrders(names: seq<string>, name: string)
    requires Ordered(names)
    ensures Ordered(InsertName(names, name))
  {
    hide Before;
    if names == [] {
      OrderedCons(name, []);
    } else if Before(name, names[0]) {
      forall n | n in names ensures Before(name, n) {
        if n != names[0] { BeforeChains(name, names[0], n); }
      }
      OrderedCons(name, names);
    } else {
      InsertNameOrders(names[1..], name);
      BeforeTotal(name, names[0]);
      var rest := InsertName(names[1..], name);
      InsertNameHolds(names[1..], name);
      forall n | n in rest ensures Before(names[0], n) {
        assert n in multiset(rest);
        assert n == name || n in names[1..];
      }
      OrderedCons(names[0], rest);
    }
  }

  lemma {:induction false} SortNamesSorts(names: seq<string>)
    ensures Ordered(SortNames(names)) && multiset(SortNames(names)) == multiset(names)
  {
    if names != [] {
      SortNamesSorts(names[1..]);
      InsertNameOrders(SortNames(names[1..]), names[0]);
      InsertNameHolds(SortNames(names[1..]), names[0]);
      assert names == [names[0]] + names[1..];
    }
  }

  lemma {:induction false} OrderedUnique(a: seq<string>, b: seq<string>)
    requires Ordered(a) && Ordered(b) && multiset(a) == multiset(b)
    ensures a == b
  {
    hide Before;
    assert |multiset(a)| == |a| && |multiset(b)| == |b|;
    if a != [] {
      FirstBefore(a, b);
      FirstBefore(b, a);
      BeforeTotal(a[0], b[0]);
      OrderedTail(a);
      OrderedTail(b);
      OrderedUnique(a[1..], b[1..]);
    }
  }

  lemma OrderedTail(a: seq<string>)
    requires Ordered(a) && a != []
    ensures Ordered(a[1..]) && multiset(a[1..]) == multiset(a) - multiset{a[0]} && a == [a[0]] + a[1..]
  {
    hide Before;
    assert a == [a[0]] + a[1..];
  }

  lemma FirstBefore(a: seq<string>, b: seq<string>)
    requires Ordered(b) && multiset(a) == multiset(b) && a != [] && b != []
    ensures Before(b[0], a[0])
  {
    assert a[0] in multiset(b);
    var i :| 0 <= i < |b| && b[i] == a[0];
    BeforeTotal(b[0], b[0]);
  }

  /** Sorted lists agree exactly when the lists hold the same names equally often. */
  lemma SameSorted(a: seq<string>, b: seq<string>)
    ensures SortNames(a) == SortNames(b) <==> multiset(a) == multiset(b)
  {
    SortNamesSorts(a);
    SortNamesSorts(b);
    if multiset(a) == multiset(b) {
      OrderedUnique(SortNames(a), SortNames(b));
    }
  }

  // ----- the sync as a function -----

  function ManagedNames(marker: Marker): seq<string> {
    if marker.Names? then Present(marker.items) else []
  }

  function Present(items: seq<Option<string>>): seq<string> {
    if items == [] then [] else (if items[0].Some? then [items[0].value] else []) + Present(items[1..])
  }

  function Wrap(names: seq<string>): seq<Option<string>> {
    if names == [] then [] else [Some(names[0])] + Wrap(names[1..])
  }

  lemma {:induction false} PresentWrap(names: seq<string>)
    ensures Present(Wrap(names)) == names
  {
    if names != [] {
      PresentWrap(names[1..]);
      assert Wrap(names)[1..] == Wrap(names[1..]);
    }
  }

  function NamesOf(desired: seq<Entry>): seq<string> {
    if desired == [] then [] else NamesOf(desired[..|desired| - 1]) + [desired[|desired| - 1].name]
  }

  /** The distinct names, first occurrences in order: a JavaScript Set. */
  function Distinct(names: seq<string>): seq<string> {
    if names == [] then []
    else
      var n := |names| - 1;
      Distinct(names[..n]) + (if names[n] in names[..n] then [] else [names[n]])
  }

  /** What the loops have done so far. */
  datatype State = State(
    servers: map<string, Json>, added: seq<string>, updated: seq<string>, same: seq<string>,
    removed: seq<string>, skipped: seq<string>)

  function RemoveStale(servers: map<string, Json>, managed: seq<string>, wanted: seq<string>): State {
    if managed == [] then State(servers, [], [], [], [], [])
    else
      var n := |managed| - 1;
      var s := RemoveStale(servers, managed[..n], wanted);
      var name := managed[n];
      if name !in wanted && name in s.servers then s.(servers := s.servers - {name}, removed := s.removed + [name]) else s
  }

  function PlaceOne(s: State, managed: seq<string>, e: Entry): State {
    if e.name in s.servers && e.name !in managed then s.(skipped := s.skipped + [e.name])
    else if e.name !in s.servers then s.(servers := s.servers[e.name := ServerConfig(e)], added := s.added + [e.name])
    else if s.servers[e.name] != ServerConfig(e) then
      s.(servers := s.servers[e.name := ServerConfig(e)], updated := s.updated + [e.name])
    else s.(same := s.same + [e.name])
  }

  function Place(s: State, managed: seq<string>, desired: seq<Entry>): State {
    if desired == [] then s
    else PlaceOne(Place(s, managed, desired[..|desired| - 1]), managed, desired[|desired| - 1])
  }

  function Synced(servers: map<string, Json>, managed: seq<string>, desired: seq<Entry>): State {
    Place(RemoveStale(servers, managed, NamesOf(desired)), managed, desired)
  }

  function ServersOf(s: Servers): map<string, Json> { if s.Servers? then s.byName else map[] }

  function Failed(p: Problem): Plan { Plan(None, [], [], [], [], [], Some(p)) }

  /** planCopilotMcpServersSync. */
  function PlanSync(doc: Document, desired: seq<Entry>): Plan {
    match doc
    case Malformed => Failed(ParseError)
    case NotRecord => Failed(NeedsObject)
    case Blank => SyncRecord(NoMarker, Missing, map[], desired)
    case Document(marker, servers, rest) =>
      if servers.NotObject? then Failed(NeedsServerObject) else SyncRecord(marker, servers, rest, desired)
  }

  function MarkerFor(names: seq<string>): Marker { if names == [] then NoMarker else Names(Wrap(names)) }

  function SyncRecord(marker: Marker, servers: Servers, rest: map<string, Json>, desired: seq<Entry>): Plan {
    var managed := ManagedNames(marker);
    var s := Synced(ServersOf(servers), managed, desired);
    var next := SortNames(Distinct(NamesOf(desired)));
    var quiet := s.added == [] && s.updated == [] && s.removed == [] && SortNames(managed) == next;
    Plan(if quiet then None else Some(Document(MarkerFor(next), Servers(s.servers), rest)),
         s.added, s.updated, s.same, s.removed, s.skipped, None)
  }

  /** The document on disk after a plan was carried out. */
  function Apply(doc: Document, p: Plan): Document { if p.content.Some? then p.content.value else doc }

  /** planCopilotMcpServersRemoval. */
  function RemoveAll(servers: map<string, Json>, managed: seq<string>): State {
    if managed == [] then State(servers, [], [], [], [], [])
    else
      var n := |managed| - 1;
      var s := RemoveAll(servers, managed[..n]);
      if managed[n] in s.servers then s.(servers := s.servers - {managed[n]}, removed := s.removed + [managed[n]]) else s
  }

  function PlanRemoval(doc: Document): Plan {
    match doc
    case Malformed => Failed(ParseError)
    case Document(marker, servers, rest) =>
      var managed := ManagedNames(marker);
      if managed == [] then Plan(None, [], [], [], [], [], None)
      else
        var s := RemoveAll(ServersOf(servers), managed);
        Plan(Some(Document(NoMarker, if s.servers == map[] then Missing else Servers(s.servers), rest)),
             [], [], [], s.removed, [], None)
    case _ => Plan(None, [], [], [], [], [], None)
  }

  // ----- the planners' loops -----

  /** planCopilotMcpServersSync: `nextMcpServers` is edited entry by entry. */
  method SyncServers(doc: Document, desired: seq<Entry>) returns (plan: Plan)
    ensures plan == PlanSync(doc, desired)
  {
    if doc.Malformed? { return Failed(ParseError); }
    if doc.NotRecord? { return Failed(NeedsObject); }
    var marker := if doc.Document? then doc.marker else NoMarker;
    var current := if doc.Document? then doc.servers else Missing;
    var rest := if doc.Document? then doc.rest else map[];
    if current.NotObject? { return Failed(NeedsServerObject); }
    var managed := ManagedNames(marker);
    var next := ServersOf(current);
    var added, updated, same, removed, skipped := [], [], [], [], [];
    var wanted := NamesOf(desired);
    for i := 0 to |managed|
      invariant RemoveStale(ServersOf(current), managed[..i], wanted) == State(next, added, updated, same, removed, skipped)
    {
      var name := managed[i];
      assert managed[..i + 1][..i] == managed[..i];
      if name !in wanted && name in next {
        next := next - {name};
        removed := removed + [name];
      }
    }
    assert managed[..|managed|] == managed;
    ghost var cleaned := State(next, added, updated, same, removed, skipped);
    for i := 0 to |desired|
      invariant Place(cleaned, managed, desired[..i]) == State(next, added, updated, same, removed, skipped)
    {
      var entry := desired[i];
      assert desired[..i + 1][..i] == desired[..i];
      var config := ServerConfig(entry);
      if entry.name in next && entry.name !in managed {
        skipped := skipped + [entry.name];
        continue;
      }
      if entry.name !in next {
        next := next[entry.name := config];
        added := added + [entry.name];
      } else if next[entry.name] != config {
        next := next[entry.name := config];
        updated := updated + [entry.name];
      } else {
        same := same + [entry.name];
      }
    }
    assert desired[..|desired|] == desired;
    var nextManaged := SortNames(Distinct(wanted));
    if added == [] && updated == [] && removed == [] && SortNames(managed) == nextManaged {
      return Plan(None, added, updated, same, removed, skipped, None);
    }
    plan := Plan(Some(Document(MarkerFor(nextManaged), Servers(next), rest)), added, updated, same, removed, skipped, None);
  }

  method RemoveServers(doc: Document) returns (plan: Plan)
    ensures plan == PlanRemoval(doc)
  {
    if doc.Malformed? { return Failed(ParseError); }
    if !doc.Document? { return Plan(None, [], [], [], [], [], None); }
    var managed := ManagedNames(doc.marker);
    if managed == [] { return Plan(None, [], [], [], [], [], None); }
    var next := ServersOf(doc.servers);
    var removed := [];
    for i := 0 to |managed|
      invariant RemoveAll(ServersOf(doc.servers), managed[..i]) == State(next, [], [], [], removed, [])
    {
      assert managed[..i + 1][..i] == managed[..i];
      if managed[i] in next {
        next := next - {managed[i]};
        removed := removed + [managed[i]];
      }
    }
    assert managed[..|managed|] == managed;
    plan := Plan(Some(Document(NoMarker, if next == map[] then Missing else Servers(next), doc.rest)), [], [], [], removed, [], None);
  }
}

/** What a sync guarantees. */
module McpSync {
  import opened McpRegistry

  predicate LeavesAlone(p: Plan) {
    p.content == None && p.added == [] && p.updated == [] && p.same == [] && p.removed == [] && p.skipped == []
  }

  /** Files that cannot be worked on are left alone, and the plan says why; all others have no problem. */
  lemma ProblemsAre(doc: Document, desired: seq<Entry>)
    ensures var sync, removal := PlanSync(doc, desired), PlanRemoval(doc);
            && (doc == Malformed ==> LeavesAlone(sync) && sync.problem == Some(ParseError) && LeavesAlone(removal) && removal.problem == Some(ParseError))
            && (doc == NotRecord ==> LeavesAlone(sync) && sync.problem == Some(NeedsObject) && LeavesAlone(removal) && removal.problem == None)
            && (doc == Blank ==> sync.problem == None && LeavesAlone(removal) && removal.problem == None)
            && (doc.Document? ==> removal.problem == None)
            && (doc.Document? && doc.servers == NotObject ==> LeavesAlone(sync) && sync.problem == Some(NeedsServerObject))
            && (doc.Document? && doc.servers != NotObject ==> sync.problem == None)
            && (doc.Document? && (doc.marker == NoMarker || doc.marker == NotArray) ==> LeavesAlone(removal))
  {
  }

  ghost predicate DistinctEntries(desired: seq<Entry>) {
    forall i, j :: 0 <= i < j < |desired| ==> desired[i].name != desired[j].name
  }

  lemma {:induction false} NamesOfIn(desired: seq<Entry>, name: string)
    ensures name in NamesOf(desired) <==> exists i :: 0 <= i < |desired| && desired[i].name == name
  {
    if desired != [] {
      var n := |desired| - 1;
      NamesOfIn(desired[..n], name);
      if i :| 0 <= i < |desired| && desired[i].name == name {
        assert i == n || desired[..n][i].name == name;
      }
      if i :| 0 <= i < n && desired[..n][i].name == name {
        assert desired[i].name == name;
      }
    }
  }

  // ----- one server at a time -----

  lemma {:induction false} StaleGo(servers: map<string, Json>, managed: seq<string>, wanted: seq<string>, name: string)
    ensures var s := RemoveStale(servers, managed, wanted);
            && (name in s.servers <==> name in servers && !(name in managed && name !in wanted))
            && (name in s.servers ==> s.servers[name] == servers[name])
            && (name in s.removed <==> name in servers && name in managed && name !in wanted)
            && s.added == [] && s.updated == [] && s.same == [] && s.skipped == []
  {
    if managed != [] {
      var n := |managed| - 1;
      StaleGo(servers, managed[..n], wanted, name);
      StaleGo(servers, managed[..n], wanted, managed[n]);
      assert managed == managed[..n] + [managed[n]];
    }
  }

  /** A name has the same place in both states. */
  ghost predicate SamePlace(s: State, p: State, name: string) {
    && (name in p.servers <==> name in s.servers) && (name in s.servers ==> p.servers[name] == s.servers[name])
    && (name in p.added <==> name in s.added) && (name in p.updated <==> name in s.updated)
    && (name in p.same <==> name in s.same) && (name in p.skipped <==> name in s.skipped)
  }

  lemma OneOther(s: State, managed: seq<string>, e: Entry, name: string)
    requires e.name != name
    ensures SamePlace(s, PlaceOne(s, managed, e), name)
  {
  }

  /** What placing the desired entries makes of one name: left alone unless some entry has it. */
  lemma {:induction false} PlaceOther(s: State, managed: seq<string>, desired: seq<Entry>, name: string)
    requires name !in NamesOf(desired)
    ensures SamePlace(s, Place(s, managed, desired), name) && Place(s, managed, desired).removed == s.removed
  {
    if desired != [] {
      var n := |desired| - 1;
      PlaceOther(s, managed, desired[..n], name);
      OneOther(Place(s, managed, desired[..n]), managed, desired[n], name);
    }
  }

  ghost predicate Untouched(s: State, name: string) {
    name !in s.added && name !in s.updated && name !in s.same && name !in s.skipped
  }

  /** The fate of one desired entry: it lands in exactly one list, and only a user's entry of the
      same name keeps its configuration out. */
  ghost predicate Fate(s: State, p: State, managed: seq<string>, e: Entry) {
    var there, ours := e.name in s.servers, e.name in managed;
    && e.name in p.servers
    && p.servers[e.name] == (if there && !ours then s.servers[e.name] else ServerConfig(e))
    && (e.name in p.skipped <==> there && !ours)
    && (e.name in p.added <==> !there)
    && (e.name in p.updated <==> there && ours && s.servers[e.name] != ServerConfig(e))
    && (e.name in p.same <==> there && ours && s.servers[e.name] == ServerConfig(e))
  }

  lemma OneFate(s: State, q: State, managed: seq<string>, e: Entry)
    requires SamePlace(s, q, e.name) && Untouched(s, e.name)
    ensures Fate(s, PlaceOne(q, managed, e), managed, e)
  {
    hide ServerConfig;
  }

  lemma FateStays(s: State, p: State, q: State, managed: seq<string>, e: Entry)
    requires Fate(s, p, managed, e) && SamePlace(p, q, e.name)
    ensures Fate(s, q, managed, e)
  {
  }

  lemma {:induction false} PlaceFate(s: State, managed: seq<string>, desired: seq<Entry>, i: nat)
    requires DistinctEntries(desired) && i < |desired| && Untouched(s, desired[i].name)
    ensures Fate(s, Place(s, managed, desired), managed, desired[i])
    decreases |desired|
  {
    hide Fate, SamePlace, PlaceOne, Untouched;
    var n := |desired| - 1;
    var e := desired[i];
    var before := Place(s, managed, desired[..n]);
    NamesOfIn(desired[..n], desired[n].name);
    if i == n {
      PlaceOther(s, managed, desired[..n], e.name);
      OneFate(s, before, managed, e);
    } else {
      PlaceFate(s, managed, desired[..n], i);
      OneOther(before, managed, desired[n], e.name);
      FateStays(s, before, PlaceOne(before, managed, desired[n]), managed, e);
    }
  }

  lemma {:induction false} PlaceCounts(s: State, managed: seq<string>, desired: seq<Entry>)
    ensures var p := Place(s, managed, desired);
            |p.added| + |p.updated| + |p.same| + |p.skipped|
            == |s.added| + |s.updated| + |s.same| + |s.skipped| + |desired|
  {
    if desired != [] {
      PlaceCounts(s, managed, desired[..|desired| - 1]);
    }
  }

  // ----- one sync -----

  /** Distinct desired names are split into added, updated, same and skipped, each decided by
      what the file held and what the marker claims. */
  lemma SyncPartitions(servers: map<string, Json>, managed: seq<string>, desired: seq<Entry>, i: nat)
    requires DistinctEntries(desired) && i < |desired|
    ensures var s := Synced(servers, managed, desired);
            var e := desired[i];
            var there, ours := e.name in servers, e.name in managed;
            && (e.name in s.added <==> !there)
            && (e.name in s.skipped <==> there && !ours)
            && (e.name in s.updated <==> there && ours && servers[e.name] != ServerConfig(e))
            && (e.name in s.same <==> there && ours && servers[e.name] == ServerConfig(e))
            && e.name in s.servers && e.name !in s.removed
            && s.servers[e.name] == (if there && !ours then servers[e.name] else ServerConfig(e))
    ensures var s := Synced(servers, managed, desired);
            |s.added| + |s.updated| + |s.same| + |s.skipped| == |desired|
  {
    var name := desired[i].name;
    NamesOfIn(desired, name);
    StaleGo(servers, managed, NamesOf(desired), name);
    var r := RemoveStale(servers, managed, NamesOf(desired));
    PlaceFate(r, managed, desired, i);
    PlaceCounts(r, managed, desired);
    PlaceRemoved(r, managed, desired);
  }

  lemma {:induction false} PlaceRemoved(s: State, managed: seq<string>, desired: seq<Entry>)
    ensures Place(s, managed, desired).removed == s.removed
  {
    if desired != [] {
      PlaceRemoved(s, managed, desired[..|desired| - 1]);
    }
  }

  /** A server that is neither marked nor desired keeps its place and its text; a marked one that is
      no longer desired goes. */
  lemma SyncPreserves(servers: map<string, Json>, managed: seq<string>, desired: seq<Entry>, name: string)
    requires name !in NamesOf(desired)
    ensures var s := Synced(servers, managed, desired);
            && (name in s.servers <==> name in servers && name !in managed)
            && (name in s.servers ==> s.servers[name] == servers[name])
            && (name in s.removed <==> name in servers && name in managed)
            && Untouched(s, name)
  {
    StaleGo(servers, managed, NamesOf(desired), name);
    PlaceOther(RemoveStale(servers, managed, NamesOf(desired)), managed, desired, name);
    PlaceRemoved(RemoveStale(servers, managed, NamesOf(desired)), managed, desired);
  }

  /** The other fields of the file are never touched. */
  lemma SyncKeepsRest(doc: Document, desired: seq<Entry>)
    requires PlanSync(doc, desired).content.Some? && doc.Document?
    ensures var next := PlanSync(doc, desired).content.value;
            next.Document? && next.rest == doc.rest && next.servers.Servers?
  {
  }

  // ----- repeated syncs -----

  lemma {:induction false} DistinctIs(desired: seq<Entry>)
    requires DistinctEntries(desired)
    ensures Distinct(NamesOf(desired)) == NamesOf(desired) && |NamesOf(desired)| == |desired|
  {
    if desired != [] {
      var n := |desired| - 1;
      DistinctIs(desired[..n]);
      NamesOfIn(desired[..n], desired[n].name);
      var names := NamesOf(desired);
      assert names[..n] == NamesOf(desired[..n]);
    }
  }

  /** The file carries the marker of these entries and holds each of them. */
  ghost predicate Adopted(doc: Document, desired: seq<Entry>) {
    && doc.Document? && doc.servers.Servers?
    && multiset(ManagedNames(doc.marker)) == multiset(NamesOf(desired))
    && forall i :: 0 <= i < |desired| ==> desired[i].name in doc.servers.byName
  }

  ghost predicate UpToDate(doc: Document, desired: seq<Entry>) {
    && Adopted(doc, desired)
    && forall i :: 0 <= i < |desired| ==> doc.servers.byName[desired[i].name] == ServerConfig(desired[i])
  }

  ghost predicate Usable(doc: Document) {
    doc.Blank? || (doc.Document? && !doc.servers.NotObject?)
  }

  function RecordOf(doc: Document): (Marker, Servers, map<string, Json>)
    requires !doc.Malformed? && !doc.NotRecord?
  {
    if doc.Document? then (doc.marker, doc.servers, doc.rest) else (NoMarker, Missing, map[])
  }

  function SyncState(doc: Document, desired: seq<Entry>): State
    requires !doc.Malformed? && !doc.NotRecord?
  {
    Synced(ServersOf(RecordOf(doc).1), ManagedNames(RecordOf(doc).0), desired)
  }

  lemma MarkerNames(desired: seq<Entry>)
    requires DistinctEntries(desired)
    ensures var next := SortNames(Distinct(NamesOf(desired)));
            && multiset(ManagedNames(MarkerFor(next))) == multiset(NamesOf(desired))
            && multiset(next) == multiset(NamesOf(desired))
  {
    DistinctIs(desired);
    SortNamesSorts(NamesOf(desired));
    var next := SortNames(Distinct(NamesOf(desired)));
    PresentWrap(next);
    if next == [] { assert multiset(next) == multiset([]); }
  }

  /** Nothing to write means nothing to do: the file is already adopted, or nothing is wanted. */
  lemma QuietSync(doc: Document, desired: seq<Entry>)
    requires Usable(doc) && DistinctEntries(desired) && PlanSync(doc, desired).content == None
    ensures multiset(ManagedNames(RecordOf(doc).0)) == multiset(NamesOf(desired))
    ensures var s := SyncState(doc, desired); s.added == [] && s.updated == [] && s.removed == []
  {
    hide Synced, SortNames;
    MarkerNames(desired);
    DistinctIs(desired);
    SameSorted(ManagedNames(RecordOf(doc).0), NamesOf(desired));
  }

  lemma InMultiset(a: seq<string>, b: seq<string>, name: string)
    ensures multiset(a) == multiset(b) ==> (name in a <==> name in b)
  {
    assert name in a <==> name in multiset(a);
    assert name in b <==> name in multiset(b);
  }

  /** After one sync the file is adopted, unless nothing is desired; entries skipped for a user's
      server are marked all the same, so that the next sync takes them over. */
  lemma FirstSyncAdopts(doc: Document, desired: seq<Entry>)
    requires Usable(doc) && DistinctEntries(desired) && desired != []
    ensures Adopted(Apply(doc, PlanSync(doc, desired)), desired)
  {
    hide Synced, SortNames, Distinct;
    var s := SyncState(doc, desired);
    forall i | 0 <= i < |desired| ensures desired[i].name in s.servers {
      SyncPartitions(ServersOf(RecordOf(doc).1), ManagedNames(RecordOf(doc).0), desired, i);
    }
    MarkerNames(desired);
    if PlanSync(doc, desired).content == None {
      QuietSync(doc, desired);
      QuietHolds(doc, desired);
    }
  }

  lemma QuietHolds(doc: Document, desired: seq<Entry>)
    requires Usable(doc) && DistinctEntries(desired) && desired != [] && PlanSync(doc, desired).content == None
    ensures doc.Document? && doc.servers.Servers?
    ensures forall i :: 0 <= i < |desired| ==> desired[i].name in doc.servers.byName
  {
    hide Synced, SortNames, Distinct;
    QuietSync(doc, desired);
    forall i | 0 <= i < |desired| ensures desired[i].name in ServersOf(RecordOf(doc).1) {
      SyncPartitions(ServersOf(RecordOf(doc).1), ManagedNames(RecordOf(doc).0), desired, i);
    }
    assert desired[0].name in ServersOf(RecordOf(doc).1);
  }

  /** What a sync makes of one entry of an adopted file. */
  lemma AdoptedEntry(servers: map<string, Json>, managed: seq<string>, desired: seq<Entry>, i: nat)
    requires DistinctEntries(desired) && i < |desired| && multiset(managed) == multiset(NamesOf(desired))
    requires desired[i].name in servers
    ensures var s := Synced(servers, managed, desired);
            && desired[i].name in s.servers && s.servers[desired[i].name] == ServerConfig(desired[i])
            && (desired[i].name in s.updated <==> servers[desired[i].name] != ServerConfig(desired[i]))
  {
    hide Synced, SortNames, Distinct;
    NamesOfIn(desired, desired[i].name);
    InMultiset(managed, NamesOf(desired), desired[i].name);
    SyncPartitions(servers, managed, desired, i);
  }

  /** In an adopted file a sync skips, adds and removes nothing and leaves every entry up to date. */
  lemma AdoptedSync(doc: Document, desired: seq<Entry>)
    requires DistinctEntries(desired) && Adopted(doc, desired)
    ensures UpToDate(Apply(doc, PlanSync(doc, desired)), desired)
    ensures PlanSync(doc, desired).content == None <==> UpToDate(doc, desired)
    ensures PlanSync(doc, desired).skipped == []
  {
    hide Synced, SortNames, Distinct, DistinctEntries, ServerConfig, NamesOf;
    var servers, managed := doc.servers.byName, ManagedNames(doc.marker);
    var s := Synced(servers, managed, desired);
    MarkerNames(desired);
    DistinctIs(desired);
    SameSorted(managed, NamesOf(desired));
    forall i | 0 <= i < |desired|
      ensures desired[i].name in s.servers && s.servers[desired[i].name] == ServerConfig(desired[i])
      ensures desired[i].name in s.updated <==> servers[desired[i].name] != ServerConfig(desired[i])
    {
      AdoptedEntry(servers, managed, desired, i);
    }
    AdoptedLists(servers, managed, desired);
    if s.updated != [] {
      var name := s.updated[0];
      assert name in s.updated;
      var i :| 0 <= i < |desired| && desired[i].name == name;
    }
  }

  /** The lists name desired entries only. */
  lemma AdoptedLists(servers: map<string, Json>, managed: seq<string>, desired: seq<Entry>)
    requires DistinctEntries(desired) && multiset(managed) == multiset(NamesOf(desired))
    requires forall i :: 0 <= i < |desired| ==> desired[i].name in servers
    ensures var s := Synced(servers, managed, desired);
            && s.added == [] && s.skipped == [] && s.removed == []
            && forall name :: name in s.updated ==> exists i :: 0 <= i < |desired| && desired[i].name == name
  {
    hide Synced, SortNames, Distinct;
    var s := Synced(servers, managed, desired);
    forall name ensures name !in s.added && name !in s.skipped && name !in s.removed
      ensures name in s.updated ==> exists i :: 0 <= i < |desired| && desired[i].name == name
    {
      NamesOfIn(desired, name);
      InMultiset(managed, NamesOf(desired), name);
      if name in NamesOf(desired) {
        var i :| 0 <= i < |desired| && desired[i].name == name;
        SyncPartitions(servers, managed, desired, i);
      } else {
        SyncPreserves(servers, managed, desired, name);
      }
    }
    EmptyOr(s.added);
    EmptyOr(s.skipped);
    EmptyOr(s.removed);
  }

  lemma EmptyOr(names: seq<string>)
    ensures names == [] || exists name :: name in names
  {
    if names != [] { assert names[0] in names; }
  }

  /** Two syncs reach a fixed point: a third has nothing to write. */
  lemma TwoSyncsSettle(doc: Document, desired: seq<Entry>)
    requires Usable(doc) && DistinctEntries(desired) && desired != []
    ensures var once := Apply(doc, PlanSync(doc, desired));
            var twice := Apply(once, PlanSync(once, desired));
            PlanSync(twice, desired).content == None && UpToDate(twice, desired)
  {
    hide PlanSync, Adopted, UpToDate;
    var once := Apply(doc, PlanSync(doc, desired));
    FirstSyncAdopts(doc, desired);
    AdoptedSync(once, desired);
    var twice := Apply(once, PlanSync(once, desired));
    UpToDateIsAdopted(twice, desired);
    AdoptedSync(twice, desired);
  }

  lemma UpToDateIsAdopted(doc: Document, desired: seq<Entry>)
    requires UpToDate(doc, desired)
    ensures Adopted(doc, desired)
  {
  }

  /** One sync is enough exactly when every entry it skipped was already as desired. */
  lemma OneSyncSettlesIff(doc: Document, desired: seq<Entry>)
    requires Usable(doc) && DistinctEntries(desired) && desired != []
    ensures var once := Apply(doc, PlanSync(doc, desired));
            var servers := ServersOf(RecordOf(doc).1);
            PlanSync(once, desired).content == None
            <==> forall i :: 0 <= i < |desired| && desired[i].name in PlanSync(doc, desired).skipped
                             ==> desired[i].name in servers && servers[desired[i].name] == ServerConfig(desired[i])
  {
    hide Synced, SortNames, Distinct;
    var once := Apply(doc, PlanSync(doc, desired));
    FirstSyncAdopts(doc, desired);
    AdoptedSync(once, desired);
    var servers, managed := ServersOf(RecordOf(doc).1), ManagedNames(RecordOf(doc).0);
    forall i | 0 <= i < |desired|
      ensures once.servers.byName[desired[i].name] == ServerConfig(desired[i])
              <==> (desired[i].name in PlanSync(doc, desired).skipped
                    ==> desired[i].name in servers && servers[desired[i].name] == ServerConfig(desired[i]))
    {
      SyncPartitions(servers, managed, desired, i);
      if PlanSync(doc, desired).content == None {
        QuietSync(doc, desired);
        QuietHolds(doc, desired);
      }
    }
  }

  /** Wanting nothing settles after one sync. */
  lemma EmptySyncSettles(doc: Document)
    requires Usable(doc)
    ensures var once := Apply(doc, PlanSync(doc, []));
            PlanSync(once, []).content == None
  {
    var once := Apply(doc, PlanSync(doc, []));
    var next := SortNames(Distinct(NamesOf([])));
    assert next == [];
    if PlanSync(doc, []).content.Some? {
      assert RecordOf(once).0 == NoMarker;
      assert Synced(ServersOf(RecordOf(once).1), [], []).removed == [];
    }
  }

  // ----- removal undoes a sync -----

  lemma {:induction false} RemoveAllIs(servers: map<string, Json>, managed: seq<string>, name: string)
    ensures var s := RemoveAll(servers, managed);
            && (name in s.servers <==> name in servers && name !in managed)
            && (name in s.servers ==> s.servers[name] == servers[name])
            && (name in s.removed <==> name in servers && name in managed)
  {
    if managed != [] {
      var n := |managed| - 1;
      RemoveAllIs(servers, managed[..n], name);
      RemoveAllIs(servers, managed[..n], managed[n]);
      assert managed == managed[..n] + [managed[n]];
    }
  }

  /** Removal takes out the marked servers and the marker, and nothing else. */
  lemma RemovalIs(doc: Document, name: string)
    requires doc.Document? && ManagedNames(doc.marker) != []
    ensures var next := PlanRemoval(doc).content;
            && next.Some? && next.value.marker == NoMarker && next.value.rest == doc.rest
            && (name in ServersOf(next.value.servers) <==> name in ServersOf(doc.servers) && name !in ManagedNames(doc.marker))
            && (name in ServersOf(next.value.servers) ==> ServersOf(next.value.servers)[name] == ServersOf(doc.servers)[name])
            && !next.value.servers.NotObject?
            && (next.value.servers.Missing? <==> ServersOf(next.value.servers) == map[])
  {
    RemoveAllIs(ServersOf(doc.servers), ManagedNames(doc.marker), name);
  }

  /** Without a marker and without collisions, removal after a sync gives back the servers and the
      other fields as they were, an empty mcpServers object aside. */
  lemma RemovalUndoesSync(doc: Document, desired: seq<Entry>)
    requires Usable(doc) && DistinctEntries(desired) && desired != []
    requires ManagedNames(RecordOf(doc).0) == []
    requires forall i :: 0 <= i < |desired| ==> desired[i].name !in ServersOf(RecordOf(doc).1)
    ensures var synced := Apply(doc, PlanSync(doc, desired));
            var back := Apply(synced, PlanRemoval(synced));
            && back.Document? && back.marker == NoMarker && back.rest == RecordOf(doc).2
            && !back.servers.NotObject? && ServersOf(back.servers) == ServersOf(RecordOf(doc).1)
            && (back.servers.Missing? <==> ServersOf(RecordOf(doc).1) == map[])
  {
    hide Synced, SortNames, Distinct, RemoveAll;
    var synced := Apply(doc, PlanSync(doc, desired));
    FirstSyncAdopts(doc, desired);
    var before := ServersOf(RecordOf(doc).1);
    SyncWrites(doc, desired);
    MarkerNonEmpty(synced, desired);
    RemovalIs(synced, "");
    var back := Apply(synced, PlanRemoval(synced));
    forall name
      ensures name in ServersOf(back.servers) <==> name in before
      ensures name in before ==> name in ServersOf(back.servers) && ServersOf(back.servers)[name] == before[name]
    {
      RemovalIs(synced, name);
      NamesOfIn(desired, name);
      InMultiset(ManagedNames(synced.marker), NamesOf(desired), name);
      if name !in NamesOf(desired) {
        SyncPreserves(before, [], desired, name);
      }
    }
    assert ServersOf(back.servers) == before;
  }

  lemma MarkerNonEmpty(doc: Document, desired: seq<Entry>)
    requires Adopted(doc, desired) && desired != []
    ensures ManagedNames(doc.marker) != []
  {
    NamesOfIn(desired, desired[0].name);
    InMultiset(ManagedNames(doc.marker), NamesOf(desired), desired[0].name);
  }

  /** With nothing marked before, a sync of something always writes. */
  lemma SyncWrites(doc: Document, desired: seq<Entry>)
    requires Usable(doc) && DistinctEntries(desired) && desired != [] && ManagedNames(RecordOf(doc).0) == []
    ensures PlanSync(doc, desired).content.Some?
    ensures PlanSync(doc, desired).content.value.rest == RecordOf(doc).2
    ensures PlanSync(doc, desired).content.value.servers == Servers(Synced(ServersOf(RecordOf(doc).1), [], desired).servers)
  {
    hide Synced, SortNames, Distinct;
    NamesOfIn(desired, desired[0].name);
    InMultiset([], NamesOf(desired), desired[0].name);
    if PlanSync(doc, desired).content == None {
      QuietSync(doc, desired);
    }
  }
}
