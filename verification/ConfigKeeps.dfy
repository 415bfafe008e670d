/** The lines of a file with the tables they stand in, and which steps of setup leave which of them
    alone. */
module ConfigKeeps {
  import opened Text
  import opened ConfigLines
  import opened ConfigSections
  import opened ConfigTui
  import opened ConfigMarkers
  import opened ConfigTimeouts
  import opened ConfigRoot
  import opened ConfigStable
  import opened ConfigMerge
  import opened ConfigSettled

  /** A trimmed line under the last line in front of it that opens with a bracket, "" at the root. Such a
      line itself stands under itself. */
  datatype Entry = Entry(table: string, line: string)

  /** The entries one looks for. */
  type Pick = Entry -> bool

  function TableOf(table: string, l: Line): string { if Opens(l) then Trim(l) else table }

  function EntryOf(table: string, l: Line): Entry { Entry(TableOf(table, l), Trim(l)) }

  function Picked(pick: Pick, table: string, lines: seq<Line>): seq<Entry>
    decreases |lines|
  {
    if lines == [] then []
    else
      var e := EntryOf(table, lines[0]);
      (if pick(e) then [e] else []) + Picked(pick, e.table, lines[1..])
  }

  function TableAfter(table: string, lines: seq<Line>): string
    decreases |lines|
  {
    if lines == [] then table else TableAfter(TableOf(table, lines[0]), lines[1..])
  }

  // ----- concatenation -----

  lemma {:induction false} PickedConcat(pick: Pick, table: string, a: seq<Line>, b: seq<Line>)
    ensures Picked(pick, table, a + b) == Picked(pick, table, a) + Picked(pick, TableAfter(table, a), b)
    ensures TableAfter(table, a + b) == TableAfter(TableAfter(table, a), b)
    decreases |a|
  {
    if a == [] {
      assert a + b == b;
    } else {
      PickedStep(pick, table, a);
      assert (a + b)[0] == a[0] && (a + b)[1..] == a[1..] + b;
      PickedStep(pick, table, a + b);
      hide KindOf, Trim, TableOf, Picked, TableAfter;
      var t := TableOf(table, a[0]);
      PickedConcat(pick, t, a[1..], b);
      EntriesAssoc(if pick(EntryOf(table, a[0])) then [EntryOf(table, a[0])] else [], Picked(pick, t, a[1..]),
                   Picked(pick, TableAfter(t, a[1..]), b));
    }
  }

  lemma PickedStep(pick: Pick, table: string, lines: seq<Line>)
    requires lines != []
    ensures var e, t := EntryOf(table, lines[0]), TableOf(table, lines[0]);
            && Picked(pick, table, lines) == (if pick(e) then [e] else []) + Picked(pick, t, lines[1..])
            && TableAfter(table, lines) == TableAfter(t, lines[1..])
  {
    hide KindOf, Trim;
  }

  lemma EntriesAssoc(a: seq<Entry>, b: seq<Entry>, c: seq<Entry>)
    ensures a + (b + c) == a + b + c
  {
  }

  lemma PickedOne(pick: Pick, table: string, l: Line)
    ensures Picked(pick, table, [l]) == if pick(EntryOf(table, l)) then [EntryOf(table, l)] else []
    ensures TableAfter(table, [l]) == TableOf(table, l)
  {
    hide KindOf, Trim, TableOf;
    assert [l][1..] == [];
  }

  lemma PickedCons(pick: Pick, table: string, l: Line, rest: seq<Line>)
    ensures Picked(pick, table, [l] + rest)
         == (if pick(EntryOf(table, l)) then [EntryOf(table, l)] else []) + Picked(pick, TableOf(table, l), rest)
  {
    hide KindOf, Trim, TableOf;
    assert ([l] + rest)[1..] == rest;
  }

  /** From a bracket line on, the table in front does not matter. */
  lemma PickedFromHeader(pick: Pick, t1: string, t2: string, lines: seq<Line>)
    requires lines == [] || Opens(lines[0])
    ensures Picked(pick, t1, lines) == Picked(pick, t2, lines)
  {
    hide KindOf, Trim;
  }

  lemma NoPicks(pick: Pick, table: string)
    ensures Picked(pick, table, []) == []
  {
  }

  lemma {:induction false} TableAfterNone(table: string, lines: seq<Line>)
    requires NoOpens(lines)
    ensures TableAfter(table, lines) == table
  {
    hide KindOf, Opens, Trim;
    if lines != [] {
      assert lines == [lines[0]] + lines[1..];
      assert lines[0] in lines;
      TableAfterNone(table, lines[1..]);
    }
  }

  lemma {:induction false} PickedNone(pick: Pick, table: string, lines: seq<Line>)
    requires forall l :: l in lines ==> !Opens(l) && !pick(Entry(table, Trim(l)))
    ensures Picked(pick, table, lines) == [] && TableAfter(table, lines) == table
  {
    hide KindOf, Opens, Trim;
    if lines != [] {
      assert lines == [lines[0]] + lines[1..];
      assert lines[0] in lines;
      PickedNone(pick, table, lines[1..]);
    }
  }

  /** Looking for less finds part of what was found. */
  function Filtered(pick: Pick, es: seq<Entry>): seq<Entry> {
    if es == [] then [] else (if pick(es[0]) then [es[0]] else []) + Filtered(pick, es[1..])
  }

  lemma FilteredCons(pick: Pick, e: Entry, es: seq<Entry>)
    ensures Filtered(pick, [e] + es) == (if pick(e) then [e] else []) + Filtered(pick, es)
  {
    assert ([e] + es)[1..] == es;
  }

  lemma {:induction false} FilteredConcat(pick: Pick, a: seq<Entry>, b: seq<Entry>)
    ensures Filtered(pick, a + b) == Filtered(pick, a) + Filtered(pick, b)
  {
    if a == [] {
      assert a + b == b;
    } else {
      hide Filtered;
      var rest := a[1..];
      assert a == [a[0]] + rest && a + b == [a[0]] + (rest + b);
      FilteredConcat(pick, rest, b);
      FilteredCons(pick, a[0], rest);
      FilteredCons(pick, a[0], rest + b);
      EntriesAssoc(if pick(a[0]) then [a[0]] else [], Filtered(pick, rest), Filtered(pick, b));
    }
  }

  ghost predicate Part(sub: Pick, pick: Pick) { forall e :: sub(e) ==> pick(e) }

  lemma {:induction false} PickedPart(sub: Pick, pick: Pick, table: string, lines: seq<Line>)
    requires Part(sub, pick)
    ensures Picked(sub, table, lines) == Filtered(sub, Picked(pick, table, lines))
    decreases |lines|
  {
    hide KindOf, Trim, TableOf;
    if lines != [] {
      var e := EntryOf(table, lines[0]);
      PickedPart(sub, pick, e.table, lines[1..]);
      var rest := Picked(pick, e.table, lines[1..]);
      FilteredCons(sub, e, rest);
      assert [] + rest == rest;
    }
  }

  // ----- blank lines and comments -----

  predicate Idle(l: Line) { KindOf(l).Empty? || KindOf(l).Remark? }

  /** Neither blank lines nor comments are looked for. */
  ghost predicate Quiet(pick: Pick) { forall e :: pick(e) ==> !Idle(e.line) }

  lemma IdleNotPicked(pick: Pick, table: string, l: Line)
    requires Quiet(pick) && Idle(l)
    ensures !Opens(l) && !pick(EntryOf(table, l)) && TableOf(table, l) == table
  {
    KindIgnoresTrim(l);
    hide KindOf, Trim;
  }

  lemma PickedIdle(pick: Pick, table: string, lines: seq<Line>)
    requires Quiet(pick) && forall l :: l in lines ==> Idle(l)
    ensures Picked(pick, table, lines) == [] && TableAfter(table, lines) == table
  {
    hide KindOf, Trim, Idle, Quiet;
    forall l | l in lines ensures !Opens(l) && !pick(Entry(table, Trim(l))) {
      IdleNotPicked(pick, table, l);
    }
    PickedNone(pick, table, lines);
  }

  lemma PickedBlanks(pick: Pick, table: string, lines: seq<Line>)
    requires Quiet(pick) && AllBlank(lines)
    ensures Picked(pick, table, lines) == [] && TableAfter(table, lines) == table
  {
    hide KindOf, Quiet;
    PickedIdle(pick, table, lines);
  }

  lemma TrimmedEntry(table: string, l: Line)
    ensures EntryOf(table, TrimEnd(l)) == EntryOf(table, l) == EntryOf(table, TrimStart(l)) == EntryOf(table, Trim(l))
    ensures Opens(TrimEnd(l)) == Opens(l) == Opens(TrimStart(l)) == Opens(Trim(l))
  {
    hide KindOf, TrimEnd, TrimStart;
    KindIgnoresTrim(l);
    TrimsSame(l);
    TrimTwice(l);
    hide Trim;
  }

  lemma {:induction false} PickedTrimEnd(pick: Pick, table: string, lines: seq<Line>)
    requires Quiet(pick)
    ensures Picked(pick, table, TrimEndLines(lines)) == Picked(pick, table, lines)
    ensures TableAfter(table, TrimEndLines(lines)) == TableAfter(table, lines)
    decreases |lines|
  {
    hide KindOf, TrimEnd, Trim, Picked, TableAfter, Quiet;
    if lines == [] {
    } else {
      var n := |lines| - 1;
      var front, l := lines[..n], lines[n];
      assert lines == front + [l];
      PickedConcat(pick, table, front, [l]);
      PickedOne(pick, TableAfter(table, front), l);
      if IsBlank(l) {
        PickedTrimEnd(pick, table, front);
        IdleNotPicked(pick, TableAfter(table, front), l);
        assert Picked(pick, table, front) + [] == Picked(pick, table, front);
      } else {
        PickedConcat(pick, table, front, [TrimEnd(l)]);
        PickedOne(pick, TableAfter(table, front), TrimEnd(l));
        TrimmedEntry(TableAfter(table, front), l);
      }
    }
  }

  lemma {:induction false} PickedTrimStart(pick: Pick, table: string, lines: seq<Line>)
    requires Quiet(pick)
    ensures Picked(pick, table, TrimStartLines(lines)) == Picked(pick, table, lines)
  {
    hide KindOf, TrimStart, Picked, Trim, Quiet;
    if lines != [] {
      var l, rest := lines[0], lines[1..];
      assert lines == [l] + rest;
      PickedCons(pick, table, l, rest);
      if IsBlank(l) {
        PickedTrimStart(pick, table, rest);
        IdleNotPicked(pick, table, l);
        assert [] + Picked(pick, table, rest) == Picked(pick, table, rest);
      } else {
        PickedCons(pick, table, TrimStart(l), rest);
        TrimmedEntry(table, l);
      }
    }
  }

  lemma {:induction false} PickedVisible(pick: Pick, table: string, lines: seq<Line>)
    requires Quiet(pick)
    ensures Picked(pick, table, Visible(lines)) == Picked(pick, table, lines)
    decreases |lines|
  {
    hide KindOf, Trim, Quiet, Picked, Visible;
    if lines == [] {
      EmptyVisible();
    } else {
      var l, rest := lines[0], lines[1..];
      assert lines == [l] + rest;
      VisibleConcat([l], rest);
      VisibleOne(l);
      PickedCons(pick, table, l, rest);
      PickedVisible(pick, TableOf(table, l), rest);
      if IsBlank(l) {
        IdleNotPicked(pick, table, l);
        assert [] + Visible(rest) == Visible(rest);
        assert [] + Picked(pick, table, rest) == Picked(pick, table, rest);
      } else {
        PickedCons(pick, table, l, Visible(rest));
      }
    }
  }

  // ----- root keys, notify lines and orphaned tables -----

  lemma {:induction false} PickedDropComment(pick: Pick, table: string, lines: seq<Line>)
    requires Quiet(pick)
    ensures Picked(pick, table, DropTopComment(lines)) == Picked(pick, table, lines)
    decreases |lines|
  {
    hide KindOf, IsTopComment, Trim, Picked, Quiet;
    if lines != [] {
      var l, rest := lines[0], lines[1..];
      assert lines == [l] + rest;
      PickedDropComment(pick, TableOf(table, l), rest);
      PickedCons(pick, table, l, rest);
      PickedCons(pick, table, l, DropTopComment(rest));
      if IsTopComment(l) {
        TopCommentIdle(l);
        IdleNotPicked(pick, table, l);
        assert DropTopComment(lines) == DropTopComment(rest);
        assert [] + Picked(pick, table, rest) == Picked(pick, table, rest);
      }
    }
  }

  lemma TopCommentIdle(l: Line)
    requires IsTopComment(l)
    ensures Idle(l)
  {
    TopCommentKind();
    KindIgnoresTrim(l);
    hide KindOf, Trim;
  }

  /** None of the root keys is looked for. */
  ghost predicate RootSkips(pick: Pick, keys: set<string>) {
    forall e :: pick(e) && e.table == "" ==> !SetsOneOf(e.line, keys)
  }

  lemma {:induction false} PickedDropRoot(pick: Pick, lines: seq<Line>, keys: set<string>)
    requires RootSkips(pick, keys)
    ensures Picked(pick, "", DropRootKeys(lines, keys)) == Picked(pick, "", lines)
    decreases |lines|
  {
    hide KindOf, Trim, Picked, RootSkips;
    if lines != [] && !Opens(lines[0]) {
      PickedDropRoot(pick, lines[1..], keys);
      DropRootKeysStep(lines, keys);
      hide DropRootKeys;
      PickedCons(pick, "", lines[0], lines[1..]);
      PickedCons(pick, "", lines[0], DropRootKeys(lines[1..], keys));
      RootKeySkipped(pick, lines[0], keys);
      assert [] + Picked(pick, "", lines[1..]) == Picked(pick, "", lines[1..]);
    }
  }

  lemma RootKeySkipped(pick: Pick, l: Line, keys: set<string>)
    requires RootSkips(pick, keys) && !Opens(l)
    ensures SetsOneOf(l, keys) ==> !pick(EntryOf("", l))
  {
    KindIgnoresTrim(l);
    hide KindOf, Trim;
  }

  lemma PickedStripRoot(pick: Pick, lines: seq<Line>, keys: set<string>, dropComment: bool)
    requires Quiet(pick) && RootSkips(pick, keys)
    ensures Picked(pick, "", StripRootKeys(lines, keys, dropComment)) == Picked(pick, "", lines)
  {
    hide KindOf, Picked, DropRootKeys, DropTopComment, Quiet, RootSkips;
    PickedDropRoot(pick, if dropComment then DropTopComment(lines) else lines, keys);
    if dropComment { PickedDropComment(pick, "", lines); }
  }

  ghost predicate NoNotify(pick: Pick) { forall e :: pick(e) ==> !IsNotifyLine(e.line) }

  lemma NotifyNotPicked(pick: Pick, table: string, l: Line)
    requires NoNotify(pick) && IsNotifyLine(l)
    ensures !Opens(l) && !pick(EntryOf(table, l)) && TableOf(table, l) == table
  {
    hide TrimStart, TrimEnd, IsHookList;
    KindIgnoresTrim(l);
    TrimTwice(l);
    NotifyOpensNothing(l);
    hide KindOf, Trim;
  }

  lemma {:induction false} PickedDropNotify(pick: Pick, result: seq<Line>, lines: seq<Line>)
    requires Quiet(pick) && NoNotify(pick)
    ensures Picked(pick, "", DropNotify(result, lines)) == Picked(pick, "", result + lines)
    decreases |lines|
  {
    hide KindOf, Trim, IsNotifyLine, Picked, PopBlanks, SkipBlanks, Quiet, NoNotify;
    if lines == [] {
      assert result + lines == result;
    } else if IsNotifyLine(lines[0]) {
      var rest := SkipBlanks(lines[1..]);
      NotifyGone(pick, result, lines);
      if rest != [] { PickedDropNotify(pick, PopBlanks(result), rest); }
    } else {
      PickedDropNotify(pick, result + [lines[0]], lines[1..]);
      assert (result + [lines[0]]) + lines[1..] == result + lines;
    }
  }

  lemma NotifyGone(pick: Pick, result: seq<Line>, lines: seq<Line>)
    requires Quiet(pick) && NoNotify(pick) && lines != [] && IsNotifyLine(lines[0])
    ensures Picked(pick, "", PopBlanks(result) + SkipBlanks(lines[1..])) == Picked(pick, "", result + lines)
    ensures SkipBlanks(lines[1..]) == [] ==> Picked(pick, "", PopBlanks(result) + [""]) == Picked(pick, "", result + lines)
  {
    hide KindOf, Trim, IsNotifyLine, Picked, TableAfter, PopBlanks, SkipBlanks, Quiet, NoNotify;
    PopBlanksIs(result);
    SkipBlanksIs(lines[1..]);
    var kept, rest := PopBlanks(result), SkipBlanks(lines[1..]);
    var gone, skipped := result[|kept|..], lines[1..][..|lines| - 1 - |rest|];
    assert result == kept + gone && lines == [lines[0]] + (skipped + rest);
    var t := TableAfter("", kept);
    PickedConcat(pick, "", result, lines);
    PickedConcat(pick, "", kept, gone);
    PickedBlanks(pick, t, gone);
    PickedCons(pick, t, lines[0], skipped + rest);
    NotifyNotPicked(pick, t, lines[0]);
    PickedConcat(pick, t, skipped, rest);
    PickedBlanks(pick, t, skipped);
    PickedConcat(pick, "", kept, rest);
    PickedConcat(pick, "", kept, [""]);
    OneBlank();
    PickedBlanks(pick, t, [""]);
    NoPicks(pick, t);
  }

  lemma OmcpCommentKind(l: Line)
    requires IsOmcpComment(l)
    ensures KindOf(l).Remark?
  {
    assert !IsSpace('#');
    TrimStartEndHead(l);
  }

  lemma PickedPop(pick: Pick, table: string, lines: seq<Line>)
    requires Quiet(pick)
    ensures Picked(pick, table, PopComments(lines)) == Picked(pick, table, lines)
    ensures TableAfter(table, PopComments(lines)) == TableAfter(table, lines)
  {
    hide KindOf, Picked, TableAfter, IsOmcpComment, Quiet, PopComments;
    PopCommentsIs(lines);
    var kept := PopComments(lines);
    var gone := lines[|kept|..];
    assert lines == kept + gone;
    PickedConcat(pick, table, kept, gone);
    forall l | l in gone ensures Idle(l) {
      if IsOmcpComment(l) { OmcpCommentKind(l); }
    }
    PickedIdle(pick, TableAfter(table, kept), gone);
    assert Picked(pick, table, kept) + [] == Picked(pick, table, kept);
  }

  /** Nothing in an orphaned table is looked for. */
  ghost predicate NoOrphans(pick: Pick, g: string -> bool) { forall e :: pick(e) ==> !IsOrphan(e.table, g) }

  lemma {:induction false} PickedSkip(pick: Pick, g: string -> bool, table: string, lines: seq<Line>)
    requires NoOrphans(pick, g) && IsOrphan(table, g)
    ensures Picked(pick, table, SkipToTable(lines)) == Picked(pick, table, lines)
    decreases |lines|
  {
    hide KindOf, Trim, IsOrphan;
    if lines != [] && !Opens(lines[0]) {
      PickedSkip(pick, g, table, lines[1..]);
      assert TableOf(table, lines[0]) == table;
    }
  }

  lemma {:induction false} PickedOrphans(pick: Pick, g: string -> bool, result: seq<Line>, lines: seq<Line>)
    requires Quiet(pick) && NoOrphans(pick, g)
    ensures Picked(pick, "", StripOrphans(result, lines, g)) == Picked(pick, "", result + lines)
    decreases |lines|
  {
    hide KindOf, Trim, IsOrphan, Picked, PopComments, SkipToTable, Quiet, NoOrphans;
    if lines == [] {
      assert result + lines == result;
    } else if IsOrphan(lines[0], g) {
      var popped, rest := PopComments(result), SkipToTable(lines[1..]);
      PickedOrphans(pick, g, popped, rest);
      OrphanGoes(pick, g, result, lines);
    } else {
      PickedOrphans(pick, g, result + [lines[0]], lines[1..]);
      assert (result + [lines[0]]) + lines[1..] == result + lines;
    }
  }

  lemma OrphanGoes(pick: Pick, g: string -> bool, result: seq<Line>, lines: seq<Line>)
    requires Quiet(pick) && NoOrphans(pick, g) && lines != [] && IsOrphan(lines[0], g)
    ensures Picked(pick, "", PopComments(result) + SkipToTable(lines[1..])) == Picked(pick, "", result + lines)
  {
    hide KindOf, Trim, IsOrphan, Picked, TableAfter, PopComments, SkipToTable, Quiet;
    var popped, rest := PopComments(result), SkipToTable(lines[1..]);
    PickedConcat(pick, "", popped, rest);
    PickedConcat(pick, "", result, lines);
    PickedPop(pick, "", result);
    SkipToTableIs(lines[1..]);
    OrphanTable(g, lines[0]);
    assert lines == [lines[0]] + lines[1..];
    var t := TableAfter("", result);
    PickedCons(pick, t, lines[0], lines[1..]);
    PickedSkip(pick, g, Trim(lines[0]), lines[1..]);
    PickedFromHeader(pick, t, Trim(lines[0]), rest);
    assert [] + Picked(pick, t, rest) == Picked(pick, t, rest);
  }

  lemma OrphanTable(g: string -> bool, l: Line)
    requires IsOrphan(l, g)
    ensures Opens(l) && IsOrphan(Trim(l), g)
  {
    KindIgnoresTrim(l);
    hide KindOf, Trim;
  }

  // ----- single keys of a section -----

  /** The key is looked for nowhere. */
  ghost predicate Skips(pick: Pick, key: string) { forall e :: pick(e) ==> !Sets(e.line, key) }

  lemma KeySkipped(pick: Pick, table: string, l: Line, key: string)
    requires Skips(pick, key) && Sets(l, key)
    ensures !Opens(l) && !pick(EntryOf(table, l)) && TableOf(table, l) == table
  {
    KindIgnoresTrim(l);
    hide KindOf, Trim;
  }

  lemma PickedSnoc(pick: Pick, table: string, front: seq<Line>, l: Line)
    ensures Picked(pick, table, front + [l])
         == Picked(pick, table, front) + (if pick(EntryOf(TableAfter(table, front), l)) then [EntryOf(TableAfter(table, front), l)] else [])
    ensures TableAfter(table, front + [l]) == TableOf(TableAfter(table, front), l)
  {
    hide KindOf, Trim, Picked, TableAfter;
    PickedConcat(pick, table, front, [l]);
    PickedOne(pick, TableAfter(table, front), l);
  }

  lemma SkippedEnd(pick: Pick, table: string, front: seq<Line>, l: Line, key: string)
    requires Skips(pick, key) && Sets(l, key)
    ensures Picked(pick, table, front + [l]) == Picked(pick, table, front)
    ensures TableAfter(table, front + [l]) == TableAfter(table, front)
  {
    hide KindOf, Trim, Picked, TableAfter, Skips;
    PickedSnoc(pick, table, front, l);
    KeySkipped(pick, TableAfter(table, front), l, key);
    assert Picked(pick, table, front) + [] == Picked(pick, table, front);
  }

  lemma {:induction false} PickedDropKey(pick: Pick, table: string, body: seq<Line>, key: string)
    requires Skips(pick, key)
    ensures Picked(pick, table, DropKey(body, key)) == Picked(pick, table, body)
    ensures TableAfter(table, DropKey(body, key)) == TableAfter(table, body)
    decreases |body|
  {
    hide KindOf, Trim, Picked, TableAfter, Skips;
    if body != [] {
      var n := |body| - 1;
      assert body == body[..n] + [body[n]];
      PickedDropKey(pick, table, body[..n], key);
      PickedSnoc(pick, table, body[..n], body[n]);
      PickedSnoc(pick, table, DropKey(body[..n], key), body[n]);
      if Sets(body[n], key) {
        SkippedEnd(pick, table, body[..n], body[n], key);
        assert DropKey(body, key) == DropKey(body[..n], key);
      }
    }
  }

  lemma {:induction false} PickedReplace(pick: Pick, table: string, body: seq<Line>, key: string, line: Line)
    requires Skips(pick, key) && Sets(line, key)
    ensures Picked(pick, table, ReplaceLast(body, key, line)) == Picked(pick, table, body)
    ensures TableAfter(table, ReplaceLast(body, key, line)) == TableAfter(table, body)
    decreases |body|
  {
    hide KindOf, Trim, Picked, TableAfter, Skips;
    if body != [] {
      var n := |body| - 1;
      assert body == body[..n] + [body[n]];
      if Sets(body[n], key) {
        SkippedEnd(pick, table, body[..n], body[n], key);
        SkippedEnd(pick, table, body[..n], line, key);
      } else {
        PickedReplace(pick, table, body[..n], key, line);
        PickedSnoc(pick, table, body[..n], body[n]);
        PickedSnoc(pick, table, ReplaceLast(body[..n], key, line), body[n]);
      }
    }
  }

  lemma PickedSet(pick: Pick, table: string, body: seq<Line>, key: string, line: Line)
    requires Skips(pick, key) && Sets(line, key)
    ensures Picked(pick, table, SetLast(body, key, line)) == Picked(pick, table, body)
    ensures Picked(pick, table, Ensure(body, key, line)) == Picked(pick, table, body)
  {
    hide KindOf, Trim, Picked, TableAfter, Skips, HasKey, ReplaceLast;
    PickedReplace(pick, table, body, key, line);
    SkippedEnd(pick, table, body, line, key);
  }
}
