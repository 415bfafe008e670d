/** The managed hooks in hooks.json, src/config/codex-hooks.ts: merged in by setup, taken out by
    uninstall. JSON text and key order stay outside the model. */
module CodexHooks {
  datatype Option<T> = None | Some(value: T)

  /** JSON the hook functions only pass on. */
  type Opaque = string

  /** A command hook is an object of type "command" with a string command. */
  datatype Hook = Command(command: string, rest: map<string, Opaque>) | OtherHook(json: Opaque)

  /** A group is an object whose `hooks` is an array. */
  datatype Entry = Group(rest: map<string, Opaque>, hooks: seq<Hook>) | OtherEntry(json: Opaque)

  datatype EventValue = Entries(list: seq<Entry>) | NotArray(json: Opaque)

  /** The `hooks` field: absent, not an object, or an object of events. */
  datatype HooksField = NoHooks | BadHooks(json: Opaque) | Events(byEvent: map<string, EventValue>)

  /** The file: missing, not a JSON object, or an object. */
  datatype HooksFile = NoFile | NotRecord(text: Opaque) | HooksFile(root: map<string, Opaque>, hooks: HooksField)

  const EventNames := ["SessionStart", "PreToolUse", "PostToolUse", "UserPromptSubmit", "Stop", "ErrorOccurred"]

  /** The command test, and the entry setup writes for an event. */
  datatype Managed = Managed(isOurs: string -> bool, entryFor: string -> Entry)

  /** Each written entry holds one hook, and the command test recognises it. */
  ghost predicate ManagedOk(m: Managed) {
    forall event :: event in EventNames ==>
                      m.entryFor(event).Group? && |m.entryFor(event).hooks| == 1 && Ours(m, m.entryFor(event).hooks[0])
  }

  predicate Ours(m: Managed, h: Hook) { h.Command? && m.isOurs(h.command) }

  // ----- one entry -----

  function Unmanaged(m: Managed, hooks: seq<Hook>): seq<Hook> {
    if hooks == [] then []
    else
      var n := |hooks| - 1;
      Unmanaged(m, hooks[..n]) + (if Ours(m, hooks[n]) then [] else [hooks[n]])
  }

  function CountOurs(m: Managed, hooks: seq<Hook>): nat {
    if hooks == [] then 0
    else
      var n := |hooks| - 1;
      CountOurs(m, hooks[..n]) + (if Ours(m, hooks[n]) then 1 else 0)
  }

  /** countManagedHooksInEntry. */
  function CountInEntry(m: Managed, e: Entry): nat { if e.Group? then CountOurs(m, e.hooks) else 0 }

  /** stripManagedHooksFromEntry: the entry goes when managed hooks were all it held. */
  function StripEntry(m: Managed, e: Entry): Option<Entry> {
    if e.OtherEntry? then Some(e)
    else
      var next := Unmanaged(m, e.hooks);
      if |next| == |e.hooks| then Some(e)
      else if next == [] then None
      else Some(e.(hooks := next))
  }

  lemma HooksSnoc(m: Managed, front: seq<Hook>, h: Hook)
    ensures Unmanaged(m, front + [h]) == Unmanaged(m, front) + (if Ours(m, h) then [] else [h])
    ensures CountOurs(m, front + [h]) == CountOurs(m, front) + (if Ours(m, h) then 1 else 0)
  {
    assert (front + [h])[..|front|] == front;
  }

  lemma {:induction false} UnmanagedCounts(m: Managed, hooks: seq<Hook>)
    ensures |Unmanaged(m, hooks)| + CountOurs(m, hooks) == |hooks|
    ensures CountOurs(m, hooks) == 0 ==> Unmanaged(m, hooks) == hooks
    ensures CountOurs(m, Unmanaged(m, hooks)) == 0
  {
    if hooks != [] {
      hide Ours, Unmanaged, CountOurs;
      var front, h := hooks[..|hooks| - 1], hooks[|hooks| - 1];
      assert hooks == front + [h];
      UnmanagedCounts(m, front);
      HooksSnoc(m, front, h);
      HooksSnoc(m, Unmanaged(m, front), h);
      assert Unmanaged(m, front) + [] == Unmanaged(m, front);
    }
  }

  lemma UnmanagedTwice(m: Managed, hooks: seq<Hook>)
    ensures Unmanaged(m, Unmanaged(m, hooks)) == Unmanaged(m, hooks)
  {
    UnmanagedCounts(m, hooks);
    UnmanagedCounts(m, Unmanaged(m, hooks));
  }

  // ----- one event -----

  function StripAll(m: Managed, entries: seq<Entry>): seq<Entry> {
    if entries == [] then []
    else
      var n := |entries| - 1;
      var stripped := StripEntry(m, entries[n]);
      StripAll(m, entries[..n]) + (if stripped.Some? then [stripped.value] else [])
  }

  function CountAll(m: Managed, entries: seq<Entry>): nat {
    if entries == [] then 0
    else CountAll(m, entries[..|entries| - 1]) + CountInEntry(m, entries[|entries| - 1])
  }

  /** All unmanaged hooks of an event, in order. */
  function UserHooks(m: Managed, entries: seq<Entry>): seq<Hook> {
    if entries == [] then []
    else
      var n := |entries| - 1;
      UserHooks(m, entries[..n]) + (if entries[n].Group? then Unmanaged(m, entries[n].hooks) else [])
  }

  lemma StripEntryIs(m: Managed, e: Entry)
    ensures var s := StripEntry(m, e);
            && (s.None? ==> e.Group? && Unmanaged(m, e.hooks) == [] && CountInEntry(m, e) == |e.hooks| > 0)
            && (s.Some? ==> CountInEntry(m, s.value) == 0 && StripEntry(m, s.value) == s
                            && s.value.Group? == e.Group?
                            && (e.Group? ==> Unmanaged(m, s.value.hooks) == Unmanaged(m, e.hooks) && s.value.rest == e.rest))
            && (CountInEntry(m, e) == 0 ==> s == Some(e))
  {
    hide Unmanaged, CountOurs;
    if e.Group? {
      UnmanagedCounts(m, e.hooks);
      UnmanagedTwice(m, e.hooks);
    }
  }

  /** Stripping leaves no managed hook, keeps the unmanaged ones in order, and is idempotent. */
  lemma {:induction false} StripAllIs(m: Managed, entries: seq<Entry>)
    ensures CountAll(m, StripAll(m, entries)) == 0
    ensures UserHooks(m, StripAll(m, entries)) == UserHooks(m, entries)
    ensures StripAll(m, StripAll(m, entries)) == StripAll(m, entries)
    ensures CountAll(m, entries) == 0 ==> StripAll(m, entries) == entries
  {
    if entries != [] {
      var n := |entries| - 1;
      StripAllIs(m, entries[..n]);
      StripEntryIs(m, entries[n]);
      assert entries == entries[..n] + [entries[n]];
      var s, front := StripEntry(m, entries[n]), StripAll(m, entries[..n]);
      if s.Some? {
        assert StripAll(m, entries) == front + [s.value];
        assert (front + [s.value])[..|front|] == front;
      } else {
        assert StripAll(m, entries) == front;
      }
    }
  }

  lemma StripAllSnoc(m: Managed, front: seq<Entry>, e: Entry)
    ensures StripAll(m, front + [e]) == StripAll(m, front) + (if StripEntry(m, e).Some? then [StripEntry(m, e).value] else [])
    ensures CountAll(m, front + [e]) == CountAll(m, front) + CountInEntry(m, e)
    ensures UserHooks(m, front + [e]) == UserHooks(m, front) + (if e.Group? then Unmanaged(m, e.hooks) else [])
  {
    assert (front + [e])[..|front|] == front;
  }

  // ----- merging -----

  function EntriesOf(events: map<string, EventValue>, event: string): seq<Entry> {
    if event in events && events[event].Entries? then events[event].list else []
  }

  function MergedEntries(m: Managed, events: map<string, EventValue>, event: string): EventValue {
    Entries(StripAll(m, EntriesOf(events, event)) + [m.entryFor(event)])
  }

  function MergeEvents(m: Managed, events: map<string, EventValue>, names: seq<string>): map<string, EventValue> {
    if names == [] then events
    else
      var n := |names| - 1;
      MergeEvents(m, events, names[..n])[names[n] := MergedEntries(m, MergeEvents(m, events, names[..n]), names[n])]
  }

  function EventsOf(f: HooksFile): map<string, EventValue> {
    if f.HooksFile? && f.hooks.Events? then f.hooks.byEvent else map[]
  }

  function RootOf(f: HooksFile): map<string, Opaque> { if f.HooksFile? then f.root else map[] }

  /** mergeManagedCodexHooksConfig. */
  function Merge(m: Managed, f: HooksFile): HooksFile {
    HooksFile(RootOf(f), Events(MergeEvents(m, EventsOf(f), EventNames)))
  }

  /** The loop over the entries of one event, in both directions. */
  method StripEntries(m: Managed, entries: seq<Entry>) returns (preserved: seq<Entry>, count: nat)
    ensures preserved == StripAll(m, entries) && count == CountAll(m, entries)
  {
    hide StripEntry, CountInEntry;
    preserved, count := [], 0;
    for k := 0 to |entries|
      invariant preserved == StripAll(m, entries[..k]) && count == CountAll(m, entries[..k])
    {
      var stripped := StripEntry(m, entries[k]);
      assert entries[..k + 1] == entries[..k] + [entries[k]];
      StripAllSnoc(m, entries[..k], entries[k]);
      count := count + CountInEntry(m, entries[k]);
      if stripped.Some? { preserved := preserved + [stripped.value]; }
    }
    assert entries[..|entries|] == entries;
  }

  method MergeHooks(m: Managed, f: HooksFile) returns (next: HooksFile)
    ensures next == Merge(m, f)
  {
    hide StripAll, CountAll, EventNames;
    var nextHooks := EventsOf(f);
    for i := 0 to |EventNames|
      invariant nextHooks == MergeEvents(m, EventsOf(f), EventNames[..i])
    {
      var event := EventNames[i];
      var preserved, count := StripEntries(m, EntriesOf(nextHooks, event));
      nextHooks := nextHooks[event := Entries(preserved + [m.entryFor(event)])];
      assert EventNames[..i + 1][..i] == EventNames[..i];
    }
    assert EventNames[..|EventNames|] == EventNames;
    next := HooksFile(RootOf(f), Events(nextHooks));
  }

  // ----- removing -----

  function RemovedEvent(m: Managed, v: EventValue): Option<EventValue> {
    if v.NotArray? then Some(v)
    else if StripAll(m, v.list) == [] then None
    else Some(Entries(StripAll(m, v.list)))
  }

  function CountEvent(m: Managed, v: EventValue): nat { if v.Entries? then CountAll(m, v.list) else 0 }

  /** The events in the order they are visited. */
  function CountEvents(m: Managed, events: map<string, EventValue>, order: seq<string>): nat
    requires forall e :: e in order ==> e in events
  {
    if order == [] then 0
    else
      var n := |order| - 1;
      CountEvents(m, events, order[..n]) + CountEvent(m, events[order[n]])
  }

  function RemoveEvents(m: Managed, events: map<string, EventValue>): map<string, EventValue> {
    map e | e in events && RemovedEvent(m, events[e]).Some? :: RemovedEvent(m, events[e]).value
  }

  /** The file afterwards, `None` when nothing is left of it. */
  function Remaining(m: Managed, f: HooksFile): Option<HooksFile>
    requires f.HooksFile?
  {
    var events := RemoveEvents(m, EventsOf(f));
    if events == map[] && f.root == map[] then None
    else Some(HooksFile(f.root, if events == map[] then NoHooks else Events(events)))
  }

  ghost predicate Visits(order: seq<string>, events: map<string, EventValue>) {
    && (forall e :: e in order <==> e in events)
    && (forall i, j :: 0 <= i < j < |order| ==> order[i] != order[j])
  }

  /** The hooks object once the events in `done` were visited. */
  ghost predicate Halfway(m: Managed, events: map<string, EventValue>, done: seq<string>, next: map<string, EventValue>) {
    && (forall e :: e in next ==> e in events)
    && (forall e :: e in events && e !in done ==> e in next && next[e] == events[e])
    && (forall e :: e in events && e in done ==>
                      (e in next <==> RemovedEvent(m, events[e]).Some?)
                      && (e in next ==> next[e] == RemovedEvent(m, events[e]).value))
  }

  /** `nextHooks` after one more event. */
  function AfterEvent(m: Managed, event: string, v: EventValue, next: map<string, EventValue>): map<string, EventValue> {
    var removed := RemovedEvent(m, v);
    if removed.Some? then next[event := removed.value] else next - {event}
  }

  lemma HalfwayStep(m: Managed, events: map<string, EventValue>, done: seq<string>, next: map<string, EventValue>, event: string)
    requires Halfway(m, events, done, next) && event in events && event !in done
    ensures Halfway(m, events, done + [event], AfterEvent(m, event, events[event], next))
  {
    hide RemovedEvent;
  }

  lemma HalfwayEnds(m: Managed, events: map<string, EventValue>, order: seq<string>, next: map<string, EventValue>)
    requires Halfway(m, events, order, next) && forall e :: e in events ==> e in order
    ensures next == RemoveEvents(m, events)
  {
    hide RemovedEvent;
  }

  lemma CountSnoc(m: Managed, events: map<string, EventValue>, done: seq<string>, event: string)
    requires event in events && forall e :: e in done ==> e in events
    ensures CountEvents(m, events, done + [event]) == CountEvents(m, events, done) + CountEvent(m, events[event])
  {
    hide CountEvent;
    assert (done + [event])[..|done|] == done;
  }

  lemma NoEvents(order: seq<string>)
    ensures order == [] || exists e :: e in order
  {
    if order != [] { assert order[0] in order; }
  }

  /** removeManagedCodexHooks; `order` is the key order of the hooks object. */
  method RemoveHooks(m: Managed, f: HooksFile, order: seq<string>) returns (next: Option<HooksFile>, removedCount: nat)
    requires Visits(order, EventsOf(f))
    ensures removedCount == CountEvents(m, EventsOf(f), order)
    ensures !f.HooksFile? ==> removedCount == 0
    ensures next == if removedCount == 0 || !f.HooksFile? then Some(f) else Remaining(m, f)
  {
    hide StripAll, CountAll, Halfway, CountEvents, RemoveEvents;
    removedCount := 0;
    if !f.HooksFile? {
      NoEvents(order);
      NothingCounted(m, EventsOf(f));
      return Some(f), 0;
    }
    var events := EventsOf(f);
    var nextHooks := events;
    HalfwayStarts(m, events);
    NothingCounted(m, events);
    for i := 0 to |order|
      invariant forall e :: e in order[..i] ==> e in events
      invariant removedCount == CountEvents(m, events, order[..i])
      invariant Halfway(m, events, order[..i], nextHooks)
    {
      var event := order[i];
      assert event in order && event !in order[..i];
      assert order[..i + 1] == order[..i] + [event];
      CountSnoc(m, events, order[..i], event);
      HalfwayStep(m, events, order[..i], nextHooks, event);
      var value := events[event];
      if value.NotArray? {
        HalfwayKeeps(m, events, order[..i], nextHooks, event);
        continue;
      }
      var preserved, count := StripEntries(m, value.list);
      removedCount := removedCount + count;
      if |preserved| > 0 {
        nextHooks := nextHooks[event := Entries(preserved)];
      } else {
        nextHooks := nextHooks - {event};
      }
    }
    assert order[..|order|] == order;
    if removedCount == 0 { return Some(f), 0; }
    HalfwayEnds(m, events, order, nextHooks);
    if nextHooks == map[] && f.root == map[] { return None, removedCount; }
    next := Some(HooksFile(f.root, if nextHooks == map[] then NoHooks else Events(nextHooks)));
  }

  lemma HalfwayStarts(m: Managed, events: map<string, EventValue>)
    ensures Halfway(m, events, [], events)
  {
  }

  /** A value that is not an array stays as it is. */
  lemma HalfwayKeeps(m: Managed, events: map<string, EventValue>, done: seq<string>, next: map<string, EventValue>, event: string)
    requires Halfway(m, events, done, next) && event in events && event !in done && events[event].NotArray?
    ensures AfterEvent(m, event, events[event], next) == next
  {
  }

  lemma NothingCounted(m: Managed, events: map<string, EventValue>)
    ensures CountEvents(m, events, []) == 0
  {
  }

  // ----- which events lack a managed hook -----

  /** getMissingManagedCodexHookEvents. */
  function MissingFrom(m: Managed, events: map<string, EventValue>, names: seq<string>): seq<string> {
    if names == [] then []
    else
      var n := |names| - 1;
      MissingFrom(m, events, names[..n]) + (if CountAll(m, EntriesOf(events, names[n])) > 0 then [] else [names[n]])
  }

  lemma {:induction false} MissingIs(m: Managed, events: map<string, EventValue>, names: seq<string>, event: string)
    ensures event in MissingFrom(m, events, names) <==> event in names && CountAll(m, EntriesOf(events, event)) == 0
  {
    if names != [] {
      var n := |names| - 1;
      MissingIs(m, events, names[..n], event);
      assert names == names[..n] + [names[n]];
    }
  }

  // ----- what a merge guarantees -----

  lemma EventsDistinct()
    ensures |EventNames| == 6 && forall i, j :: 0 <= i < j < |EventNames| ==> EventNames[i] != EventNames[j]
  {
    assert |EventNames[0]| == 12 && |EventNames[1]| == 10 && |EventNames[2]| == 11 && |EventNames[3]| == 16
           && |EventNames[4]| == 4 && |EventNames[5]| == 13;
  }

  ghost predicate DistinctNames(names: seq<string>) {
    forall i, j :: 0 <= i < j < |names| ==> names[i] != names[j]
  }

  lemma {:induction false} MergeEventsIs(m: Managed, events: map<string, EventValue>, names: seq<string>, event: string)
    requires DistinctNames(names)
    ensures var r := MergeEvents(m, events, names);
            && (event in names ==> event in r && r[event] == MergedEntries(m, events, event))
            && (event !in names ==> (event in r <==> event in events) && (event in events ==> r[event] == events[event]))
  {
    if names != [] {
      var n := |names| - 1;
      MergeEventsIs(m, events, names[..n], event);
      MergeEventsIs(m, events, names[..n], names[n]);
      assert names == names[..n] + [names[n]];
      assert names[n] !in names[..n];
    }
  }

  /** After a merge each of the six events has exactly one managed hook, its unmanaged hooks in the
      old order, and every other event is as it was. */
  lemma MergeIs(m: Managed, f: HooksFile, event: string)
    requires ManagedOk(m)
    ensures var events := EventsOf(Merge(m, f));
            && (event in EventNames ==>
                  CountAll(m, EntriesOf(events, event)) == 1
                  && UserHooks(m, EntriesOf(events, event)) == UserHooks(m, EntriesOf(EventsOf(f), event))
                  && event !in MissingFrom(m, events, EventNames))
            && (event !in EventNames ==>
                  (event in events <==> event in EventsOf(f)) && (event in events ==> events[event] == EventsOf(f)[event]))
    ensures RootOf(Merge(m, f)) == RootOf(f)
  {
    hide StripAll, UserHooks, EventNames, CountAll, MergeEvents, MissingFrom, CountInEntry;
    EventsDistinct();
    MergeEventsIs(m, EventsOf(f), EventNames, event);
    MissingIs(m, EventsOf(Merge(m, f)), EventNames, event);
    if event in EventNames {
      var entries := EntriesOf(EventsOf(f), event);
      StripAllIs(m, entries);
      StripAllSnoc(m, StripAll(m, entries), m.entryFor(event));
      OneHook(m, m.entryFor(event));
    }
  }

  lemma OneHook(m: Managed, e: Entry)
    requires e.Group? && |e.hooks| == 1 && Ours(m, e.hooks[0])
    ensures CountInEntry(m, e) == 1 && Unmanaged(m, e.hooks) == [] && StripEntry(m, e) == None
  {
    var h := e.hooks[0];
    assert e.hooks == [] + [h];
    HooksSnoc(m, [], h);
  }

  /** Merging twice is merging once. */
  lemma MergeTwice(m: Managed, f: HooksFile)
    requires ManagedOk(m)
    ensures Merge(m, Merge(m, f)) == Merge(m, f)
  {
    hide StripAll, EventNames, MergeEvents;
    EventsDistinct();
    var once, twice := EventsOf(Merge(m, f)), EventsOf(Merge(m, Merge(m, f)));
    forall event
      ensures event in twice <==> event in once
      ensures event in once ==> event in twice && twice[event] == once[event]
    {
      MergeEventsIs(m, EventsOf(f), EventNames, event);
      MergeEventsIs(m, once, EventNames, event);
      if event in EventNames {
        var entries := EntriesOf(EventsOf(f), event);
        StripAllIs(m, entries);
        StripAllSnoc(m, StripAll(m, entries), m.entryFor(event));
        OneHook(m, m.entryFor(event));
      }
    }
    assert twice == once;
  }

  // ----- removal undoes a merge -----

  ghost predicate NoneManaged(m: Managed, f: HooksFile) {
    forall e :: e in EventsOf(f) ==> CountEvent(m, EventsOf(f)[e]) == 0
  }

  /** The events that survive: everything but empty arrays. */
  function NonEmptyEvents(events: map<string, EventValue>): map<string, EventValue> {
    map e | e in events && events[e] != Entries([]) :: events[e]
  }

  ghost predicate ArraysOnly(f: HooksFile) {
    forall e :: e in EventNames && e in EventsOf(f) ==> EventsOf(f)[e].Entries?
  }

  lemma {:induction false} CountEventsSplit(m: Managed, events: map<string, EventValue>, order: seq<string>, ours: seq<string>)
    requires forall e :: e in order ==> e in events
    requires DistinctNames(order) && DistinctNames(ours) && forall e :: e in ours ==> e in order
    requires forall e :: e in order ==> CountEvent(m, events[e]) == if e in ours then 1 else 0
    ensures CountEvents(m, events, order) == |ours|
    decreases |order|
  {
    NoEvents(ours);
    if order != [] {
      var n := |order| - 1;
      assert order == order[..n] + [order[n]];
      var last := order[n];
      assert last in order && last !in order[..n];
      if last in ours {
        var i :| 0 <= i < |ours| && ours[i] == last;
        var rest := ours[..i] + ours[i + 1..];
        DropOne(ours, i);
        CountEventsSplit(m, events, order[..n], rest);
      } else {
        CountEventsSplit(m, events, order[..n], ours);
      }
    }
  }

  lemma DropOne(names: seq<string>, i: nat)
    requires DistinctNames(names) && i < |names|
    ensures var rest := names[..i] + names[i + 1..];
            DistinctNames(rest) && |rest| == |names| - 1 && names[i] !in rest
            && forall e :: e in names <==> e in rest || e == names[i]
  {
    var rest := names[..i] + names[i + 1..];
    forall e | e in names && e != names[i] ensures e in rest {
      var k :| 0 <= k < |names| && names[k] == e;
      assert if k < i then rest[k] == e else rest[k - 1] == e;
    }
  }

  /** Uninstall after setup on a file without managed hooks reports exactly six removals and gives the
      file back, empty arrays and an empty hooks object aside. */
  lemma RemovalUndoesMerge(m: Managed, f: HooksFile, order: seq<string>)
    requires ManagedOk(m) && f.HooksFile? && NoneManaged(m, f) && ArraysOnly(f)
    requires Visits(order, EventsOf(Merge(m, f)))
    ensures CountEvents(m, EventsOf(Merge(m, f)), order) == 6
    ensures RemoveEvents(m, EventsOf(Merge(m, f))) == NonEmptyEvents(EventsOf(f))
    ensures Remaining(m, Merge(m, f)) ==
            if NonEmptyEvents(EventsOf(f)) == map[] && f.root == map[] then None
            else Some(HooksFile(f.root, if NonEmptyEvents(EventsOf(f)) == map[] then NoHooks else Events(NonEmptyEvents(EventsOf(f)))))
  {
    hide StripAll, EventNames, MergeEvents, CountAll;
    EventsDistinct();
    var merged := EventsOf(Merge(m, f));
    forall e | e in order ensures CountEvent(m, merged[e]) == if e in EventNames then 1 else 0 {
      MergeIs(m, f, e);
      MergeEventsIs(m, EventsOf(f), EventNames, e);
    }
    forall e | e in EventNames ensures e in order {
      MergeEventsIs(m, EventsOf(f), EventNames, e);
    }
    CountEventsSplit(m, merged, order, EventNames);
    forall e
      ensures e in RemoveEvents(m, merged) <==> e in NonEmptyEvents(EventsOf(f))
      ensures e in RemoveEvents(m, merged) ==> RemoveEvents(m, merged)[e] == EventsOf(f)[e]
    {
      MergeEventsIs(m, EventsOf(f), EventNames, e);
      RemovedIs(m, f, e);
    }
    assert RemoveEvents(m, merged) == NonEmptyEvents(EventsOf(f));
  }

  /** The events come back exactly when the six hold nothing but arrays: anything else under their
      names is overwritten by the merge. */
  lemma EventsRestoredIff(m: Managed, f: HooksFile)
    requires ManagedOk(m) && f.HooksFile? && NoneManaged(m, f)
    ensures RemoveEvents(m, EventsOf(Merge(m, f))) == NonEmptyEvents(EventsOf(f)) <==> ArraysOnly(f)
  {
    hide StripAll, EventNames, MergeEvents, CountAll;
    EventsDistinct();
    var merged := EventsOf(Merge(m, f));
    if ArraysOnly(f) {
      forall e
        ensures e in RemoveEvents(m, merged) <==> e in NonEmptyEvents(EventsOf(f))
        ensures e in RemoveEvents(m, merged) ==> RemoveEvents(m, merged)[e] == EventsOf(f)[e]
      {
        MergeEventsIs(m, EventsOf(f), EventNames, e);
        RemovedIs(m, f, e);
      }
      assert RemoveEvents(m, merged) == NonEmptyEvents(EventsOf(f));
    } else {
      var e :| e in EventNames && e in EventsOf(f) && !EventsOf(f)[e].Entries?;
      MergeEventsIs(m, EventsOf(f), EventNames, e);
      OverwrittenGoes(m, e);
      assert e in NonEmptyEvents(EventsOf(f)) && e !in RemoveEvents(m, merged);
    }
  }

  lemma OverwrittenGoes(m: Managed, e: string)
    requires ManagedOk(m) && e in EventNames
    ensures RemovedEvent(m, Entries(StripAll(m, []) + [m.entryFor(e)])) == None
  {
    hide EventNames;
    StripAllSnoc(m, [], m.entryFor(e));
    OneHook(m, m.entryFor(e));
    assert StripAll(m, []) == [];
  }

  /** One event through merge and removal. */
  lemma RemovedIs(m: Managed, f: HooksFile, e: string)
    requires ManagedOk(m) && NoneManaged(m, f) && ArraysOnly(f)
    ensures e in EventNames ==>
              RemovedEvent(m, MergedEntries(m, EventsOf(f), e))
              == if e in EventsOf(f) && EventsOf(f)[e] != Entries([]) then Some(EventsOf(f)[e]) else None
    ensures e in EventsOf(f) ==>
              RemovedEvent(m, EventsOf(f)[e]) == if EventsOf(f)[e] != Entries([]) then Some(EventsOf(f)[e]) else None
  {
    hide StripAll, EventNames, CountAll;
    var entries := EntriesOf(EventsOf(f), e);
    NothingToCount(m);
    StripAllIs(m, entries);
    if e in EventNames {
      StripAllSnoc(m, StripAll(m, entries), m.entryFor(e));
      OneHook(m, m.entryFor(e));
      assert entries + [] == entries;
    }
  }

  lemma NothingToCount(m: Managed)
    ensures CountAll(m, []) == 0
  {
  }
}
