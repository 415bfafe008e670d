/** The lines outside the managed blocks of a file, found in one pass over the file, and that the
    stripping loops of src/config/generator.ts leave exactly those. */
module ConfigOutside {
  import opened Text
  import opened ConfigLines
  import opened ConfigSections
  import opened ConfigTui
  import opened ConfigMarkers
  import opened ConfigTimeouts
  import opened ConfigRoot
  import opened ConfigStable
  import opened ConfigMerge
  import opened ConfigSettled
  import opened ConfigFooter
  import opened ConfigKeeps

  // ----- one kind of block -----

  /** The marker, and behind it on the same line the end text. */
  predicate Closes(l: Line, b: Marks) {
    Contains(l, b.marker) && IndexOf(l, b.end, IndexOf(l, b.marker, 0)) >= 0
  }

  /** The lines outside the blocks, from outside or from `inside` one. */
  function Outside(lines: seq<Line>, b: Marks, inside: bool): seq<Line>
    decreases |lines|
  {
    if lines == [] then []
    else if inside then Outside(lines[1..], b, !Contains(lines[0], b.end))
    else if Contains(lines[0], b.marker) then Outside(lines[1..], b, !Closes(lines[0], b))
    else [lines[0]] + Outside(lines[1..], b, false)
  }

  lemma {:induction false} OutsideFree(a: seq<Line>, rest: seq<Line>, b: Marks)
    requires forall l :: l in a ==> !Contains(l, b.marker)
    ensures Outside(a + rest, b, false) == a + Outside(rest, b, false)
    decreases |a|
  {
    hide Contains, Closes;
    if a == [] {
      assert a + rest == rest;
    } else {
      assert a == [a[0]] + a[1..] && a[0] in a;
      assert (a + rest)[0] == a[0] && (a + rest)[1..] == a[1..] + rest;
      OutsideFree(a[1..], rest, b);
    }
  }

  lemma {:induction false} OutsideInside(lines: seq<Line>, b: Marks)
    ensures var j := MarkerAt(lines, b.end);
            Outside(lines, b, true) == if j < |lines| then Outside(lines[j + 1..], b, false) else []
    decreases |lines|
  {
    hide Contains, Closes;
    if lines != [] && !Contains(lines[0], b.end) {
      OutsideInside(lines[1..], b);
      var j := MarkerAt(lines, b.end);
      if j < |lines| { assert lines[1..][j..] == lines[j + 1..]; }
    }
  }

  /** A block from its marker line on goes to where `BlockStop` says. */
  lemma OutsideFrom(lines: seq<Line>, i: nat, b: Marks)
    requires i < |lines| && Contains(lines[i], b.marker)
    ensures Outside(lines[i..], b, false) == Outside(lines[BlockStop(lines, i, b)..], b, false)
  {
    hide Contains, MarkerAt, IndexOf;
    var later := lines[i + 1..];
    assert lines[i..][0] == lines[i] && lines[i..][1..] == later;
    assert Outside(lines[i..], b, false) == Outside(later, b, !Closes(lines[i], b));
    if !Closes(lines[i], b) {
      hide Outside;
      OutsideInside(later, b);
      var j := MarkerAt(later, b.end);
      if i + 1 + j < |lines| {
        assert later[j + 1..] == lines[i + 1 + j + 1..];
      } else {
        assert lines[|lines|..] == [];
        NoneOutside(b);
      }
    }
  }

  lemma NoneOutside(b: Marks)
    ensures Outside([], b, false) == []
  {
  }

  lemma OutsideBlock(lines: seq<Line>, b: Marks)
    requires MarkerAt(lines, b.marker) < |lines| && Contains(lines[MarkerAt(lines, b.marker)], b.marker)
    ensures var i := MarkerAt(lines, b.marker);
            Outside(lines, b, false) == lines[..i] + Outside(lines[BlockStop(lines, i, b)..], b, false)
  {
    hide Contains, MarkerAt, IndexOf, Outside, BlockStop;
    var i := MarkerAt(lines, b.marker);
    MarkerAtIs(lines, b.marker);
    assert lines == lines[..i] + lines[i..];
    forall l | l in lines[..i] ensures !Contains(l, b.marker) {
      var k :| 0 <= k < i && lines[..i][k] == l;
    }
    OutsideFree(lines[..i], lines[i..], b);
    OutsideFrom(lines, i, b);
  }

  // ----- blank lines, rules and outer spaces aside -----

  predicate Dropped(l: Line) { IsBlank(l) || IsRule(l) }

  function Bare(lines: seq<Line>): seq<Line> {
    if lines == [] then [] else (if Dropped(lines[0]) then [] else [Trim(lines[0])]) + Bare(lines[1..])
  }

  lemma {:induction false} BareConcat(a: seq<Line>, b: seq<Line>)
    ensures Bare(a + b) == Bare(a) + Bare(b)
  {
    hide Dropped, Trim;
    if a == [] {
      assert a + b == b;
    } else {
      assert (a + b)[0] == a[0] && (a + b)[1..] == a[1..] + b;
      BareConcat(a[1..], b);
    }
  }

  lemma BareOne(l: Line)
    ensures Bare([l]) == if Dropped(l) then [] else [Trim(l)]
  {
    hide Dropped, Trim;
    assert [l][1..] == [];
  }

  lemma {:induction false} BareIn(lines: seq<Line>, x: Line)
    ensures x in Bare(lines) ==> exists l :: l in lines && x == Trim(l)
  {
    hide Dropped, Trim;
    if lines != [] {
      BareIn(lines[1..], x);
      assert lines[0] in lines;
      forall l | l in lines[1..] ensures l in lines { }
    }
  }

  lemma DroppedTrims(l: Line)
    ensures Dropped(TrimEnd(l)) == Dropped(l) == Dropped(TrimStart(l)) == Dropped(Trim(l))
    ensures Trim(TrimEnd(l)) == Trim(l) == Trim(TrimStart(l)) == Trim(Trim(l))
  {
    hide KindOf, TrimEnd, TrimStart;
    KindIgnoresTrim(l);
    TrimsSame(l);
    TrimTwice(l);
    hide Trim;
  }

  lemma {:induction false} BareTrimEnd(lines: seq<Line>)
    ensures Bare(TrimEndLines(lines)) == Bare(lines)
  {
    hide KindOf, TrimEnd, Trim, Bare, IsRule;
    if lines != [] {
      var n := |lines| - 1;
      assert lines == lines[..n] + [lines[n]];
      BareConcat(lines[..n], [lines[n]]);
      BareOne(lines[n]);
      if IsBlank(lines[n]) {
        BareTrimEnd(lines[..n]);
        assert Bare(lines[..n]) + [] == Bare(lines[..n]);
      } else {
        BareConcat(lines[..n], [TrimEnd(lines[n])]);
        BareOne(TrimEnd(lines[n]));
        DroppedTrims(lines[n]);
      }
    }
  }

  lemma {:induction false} BareTrimStart(lines: seq<Line>)
    ensures Bare(TrimStartLines(lines)) == Bare(lines)
  {
    hide KindOf, TrimStart, Trim, IsRule;
    if lines != [] {
      if IsBlank(lines[0]) {
        BareTrimStart(lines[1..]);
      } else {
        DroppedTrims(lines[0]);
        assert ([TrimStart(lines[0])] + lines[1..])[1..] == lines[1..];
      }
    }
  }

  lemma BareJoin(before: seq<Line>, after: seq<Line>)
    ensures Bare(JoinParts(before, after)) == Bare(before) + Bare(after)
  {
    hide KindOf, Trim, IsRule, Bare;
    EmptyKind();
    BareOne("");
    BareConcat(before + [""], after);
    BareConcat(before, [""]);
    assert Bare(before) + [] == Bare(before);
    NoBare();
    assert [] + Bare(after) == Bare(after);
  }

  lemma NoBare()
    ensures Bare([]) == []
  {
  }

  // ----- texts that trimming cannot hide -----

  /** Begins and ends visibly, and holds what neither a blank line nor a rule holds. */
  predicate Findable(m: string) {
    m != "" && !IsSpace(m[0]) && !IsSpace(m[|m| - 1]) && exists c :: c in m && !IsSpace(c) && c != '#' && c != '='
  }

  predicate FindableMarks(b: Marks) { Findable(b.marker) && Findable(b.end) }

  lemma MarksFindable()
    ensures FindableMarks(OmcpMarks) && FindableMarks(RegistryMarks)
  {
    hide Findable;
    MarkerEnds();
    VisibleLetters();
    FindableBy(OmcpMarker, 0);
    FindableBy(RegistryMarker, 0);
    FindableBy(OmcpEnd, 2);
    FindableBy(RegistryEnd, 2);
  }

  lemma VisibleLetters()
    ensures !IsSpace('o') && !IsSpace('E') && !IsSpace('#') && !IsSpace('n') && !IsSpace('c') && !IsSpace('t')
  {
  }

  lemma FindableBy(m: string, i: nat)
    requires i < |m| && !IsSpace(m[0]) && !IsSpace(m[|m| - 1]) && !IsSpace(m[i]) && m[i] != '#' && m[i] != '='
    ensures Findable(m)
  {
    hide IsSpace;
    assert m[i] in m;
  }

  lemma MarkerEnds()
    ensures OmcpMarker[0] == 'o' && OmcpMarker[|OmcpMarker| - 1] == 'n'
    ensures RegistryMarker[0] == 'o' && RegistryMarker[|RegistryMarker| - 1] == 'c'
    ensures OmcpEnd[0] == '#' && OmcpEnd[2] == 'E' && OmcpEnd[|OmcpEnd| - 1] == 't'
    ensures RegistryEnd[0] == '#' && RegistryEnd[2] == 'E' && RegistryEnd[|RegistryEnd| - 1] == 'c'
  {
    assert RegistryMarker[|RegistryMarker| - 1] == "Shared MCP Registry Sync"[23];
    assert RegistryEnd[|RegistryEnd| - 1] == " shared MCP registry sync"[24];
  }

  /** Where the visible part of a line lies. */
  lemma TrimSpan(l: Line) returns (k: nat, n: nat)
    ensures k <= n <= |l| && Trim(l) == l[k..n] && Blank(l[..k]) && Blank(l[n..])
  {
    TrimEndCuts(l);
    n := |TrimEnd(l)|;
    var r := TrimEnd(l);
    TrimStartCuts(r);
    k := |r| - |TrimStart(r)|;
    assert r == l[..n];
    assert r[k..] == l[k..n] && r[..k] == l[..k];
  }

  lemma VisibleInside(l: Line, k: nat, n: nat, p: nat)
    requires k <= n <= |l| && Blank(l[..k]) && Blank(l[n..]) && p < |l| && !IsSpace(l[p])
    ensures k <= p < n
  {
    assert forall q :: 0 <= q < k ==> l[..k][q] == l[q];
    assert forall q :: n <= q < |l| ==> l[n..][q - n] == l[q];
  }

  /** An occurrence in the line is one in its visible part. */
  lemma OccursTrimmed(l: Line, k: nat, n: nat, m: string, i: int)
    requires k <= n <= |l| && Blank(l[..k]) && Blank(l[n..]) && Findable(m)
    ensures OccursAt(l, m, k + i) && 0 <= k + i <==> OccursAt(l[k..n], m, i) && 0 <= i
  {
    OccursInPart(l, k, n, m, i);
    if OccursAt(l, m, k + i) && 0 <= k + i {
      OccursChars(l, m, k + i, 0);
      OccursChars(l, m, k + i, |m| - 1);
      hide OccursAt, Blank;
      OccursBounds(l, m, k + i);
      VisibleInside(l, k, n, k + i);
      VisibleInside(l, k, n, k + i + |m| - 1);
    }
  }

  lemma OccursBounds(l: Line, m: string, i: int)
    requires OccursAt(l, m, i)
    ensures 0 <= i && i + |m| <= |l|
  {
  }

  lemma ContainsIff(l: Line, m: string)
    ensures Contains(l, m) <==> exists i :: OccursAt(l, m, i)
  {
    hide OccursAt;
    IndexOfFirst(l, m, 0);
    if i: int :| OccursAt(l, m, i) {
      OccursBounds(l, m, i);
    }
  }

  lemma ClosesIff(l: Line, b: Marks)
    ensures Closes(l, b) <==> exists i, j :: OccursAt(l, b.marker, i) && OccursAt(l, b.end, j) && i <= j
  {
    hide OccursAt;
    IndexOfFirst(l, b.marker, 0);
    var at := IndexOf(l, b.marker, 0);
    if at >= 0 { IndexOfFirst(l, b.end, at); }
    if i: int, j: int :| OccursAt(l, b.marker, i) && OccursAt(l, b.end, j) && i <= j {
      OccursBounds(l, b.marker, i);
    }
    if Closes(l, b) {
      assert OccursAt(l, b.marker, at) && OccursAt(l, b.end, IndexOf(l, b.end, at));
    }
  }

  lemma ContainsTrim(l: Line, m: string)
    requires Findable(m)
    ensures Contains(Trim(l), m) <==> Contains(l, m)
  {
    var k, n := TrimSpan(l);
    hide OccursAt, Contains, Trim;
    ContainsIff(l, m);
    ContainsIff(l[k..n], m);
    if i: int :| OccursAt(l, m, i) {
      OccursBounds(l, m, i);
      OccursTrimmed(l, k, n, m, i - k);
    }
    if i: int :| OccursAt(l[k..n], m, i) {
      OccursBounds(l[k..n], m, i);
      OccursTrimmed(l, k, n, m, i);
    }
  }

  lemma ClosesTrim(l: Line, b: Marks)
    requires FindableMarks(b)
    ensures Closes(Trim(l), b) <==> Closes(l, b)
  {
    var k, n := TrimSpan(l);
    hide OccursAt, Closes, Trim, Findable;
    ClosesIff(l, b);
    ClosesIff(l[k..n], b);
    if i: int, j: int :| OccursAt(l, b.marker, i) && OccursAt(l, b.end, j) && i <= j {
      OccursBounds(l, b.marker, i);
      OccursBounds(l, b.end, j);
      OccursTrimmed(l, k, n, b.marker, i - k);
      OccursTrimmed(l, k, n, b.end, j - k);
    }
    if i: int, j: int :| OccursAt(l[k..n], b.marker, i) && OccursAt(l[k..n], b.end, j) && i <= j {
      OccursBounds(l[k..n], b.marker, i);
      OccursBounds(l[k..n], b.end, j);
      OccursTrimmed(l, k, n, b.marker, i);
      OccursTrimmed(l, k, n, b.end, j);
    }
  }

  lemma DroppedHoldsNone(l: Line, m: string)
    requires Findable(m) && Dropped(l)
    ensures !Contains(l, m)
  {
    ContainsTrim(l, m);
    if IsBlank(l) {
      BlankHoldsNone(l, m);
    } else {
      var c :| c in m && !IsSpace(c) && c != '#' && c != '=';
      RuleChars(l, c);
      LacksChar(Trim(l), m, c);
    }
  }

  lemma BlankHoldsNone(l: Line, m: string)
    requires IsBlank(l) && m != ""
    ensures !Contains(Trim(l), m)
  {
    assert Trim(l) == "";
    EmptyHolds(m);
  }

  lemma RuleChars(l: Line, c: char)
    requires IsRule(l) && !IsSpace(c) && c != '#' && c != '='
    ensures c !in Trim(l)
  {
    forall i | 0 <= i < |Trim(l)| ensures Trim(l)[i] != c {
    }
  }

  // ----- stripping is leaving out the blocks -----

  lemma {:induction false} OutsideBare(lines: seq<Line>, b: Marks, inside: bool)
    requires FindableMarks(b)
    ensures Outside(Bare(lines), b, inside) == Bare(Outside(lines, b, inside))
    decreases |lines|
  {
    hide Contains, Closes, Dropped, Trim, Findable;
    if lines != [] {
      var l, rest := lines[0], lines[1..];
      if Dropped(l) {
        DroppedHoldsNone(l, b.marker);
        DroppedHoldsNone(l, b.end);
        OutsideBare(rest, b, inside);
        assert Bare(lines) == Bare(rest);
        if !inside {
          var kept := Outside(rest, b, false);
          BareConcat([l], kept);
          BareOne(l);
          assert [] + Bare(kept) == Bare(kept);
        }
      } else {
        ContainsTrim(l, b.marker);
        ContainsTrim(l, b.end);
        ClosesTrim(l, b);
        assert Bare(lines)[0] == Trim(l) && Bare(lines)[1..] == Bare(rest);
        OutsideBare(rest, b, if inside then !Contains(l, b.end) else Contains(l, b.marker) && !Closes(l, b));
        if !inside && !Contains(l, b.marker) {
          assert ([l] + Outside(rest, b, false))[1..] == Outside(rest, b, false);
        }
      }
    }
  }

  lemma BareFront(lines: seq<Line>, i: nat)
    requires i < |lines|
    ensures Bare(lines[..BlockStart(lines, i)]) == Bare(lines[..i])
  {
    hide KindOf, Trim, IsRule, Bare;
    if BlockStart(lines, i) < i {
      assert lines[..i] == lines[..i - 1] + [lines[i - 1]];
      BareConcat(lines[..i - 1], [lines[i - 1]]);
      BareOne(lines[i - 1]);
      assert Bare(lines[..i - 1]) + [] == Bare(lines[..i - 1]);
    }
  }

  lemma BareFree(lines: seq<Line>, m: string)
    requires Findable(m) && forall l :: l in lines ==> !Contains(l, m)
    ensures forall x :: x in Bare(lines) ==> !Contains(x, m)
  {
    hide Contains, Trim, Findable, Bare;
    forall x | x in Bare(lines) ensures !Contains(x, m) {
      BareIn(lines, x);
      var l :| l in lines && x == Trim(l);
      ContainsTrim(l, m);
    }
  }

  /** A round leaves the lines outside the blocks as they are. */
  lemma RoundBare(lines: seq<Line>, b: Marks)
    requires FindableMarks(b) && MarkerAt(lines, b.marker) < |lines|
    ensures Outside(Bare(StripRound(lines, b)), b, false) == Outside(Bare(lines), b, false)
  {
    hide Contains, Trim, Findable, Bare, MarkerAt, Outside, BlockStart, BlockStop, TrimEndLines, TrimStartLines, JoinParts;
    MarkerAtIs(lines, b.marker);
    var i := MarkerAt(lines, b.marker);
    BlockBounds(lines, i, b);
    var start, stop := BlockStart(lines, i), BlockStop(lines, i, b);
    var before, after := TrimEndLines(lines[..start]), TrimStartLines(lines[stop..]);
    BareJoin(before, after);
    BareTrimEnd(lines[..start]);
    BareTrimStart(lines[stop..]);
    BareFront(lines, i);
    forall l | l in lines[..i] ensures !Contains(l, b.marker) {
      var k :| 0 <= k < i && lines[..i][k] == l;
    }
    BareFree(lines[..i], b.marker);
    OutsideFree(Bare(lines[..i]), Bare(lines[stop..]), b);
    OutsideBare(lines[stop..], b, false);
    OutsideBlock(lines, b);
    OutsideBare(lines, b, false);
    BareConcat(lines[..i], Outside(lines[stop..], b, false));
  }

  /** All rounds together leave, blank lines, rules and outer spaces aside, exactly the lines outside
      the blocks, in order. */
  lemma {:induction false} StripIsOutside(lines: seq<Line>, b: Marks)
    requires b.marker != "" && FindableMarks(b)
    ensures Bare(StripBlocks(lines, b)) == Bare(Outside(lines, b, false))
    decreases MarkerLines(lines, b.marker)
  {
    hide Contains, Trim, Findable, Bare, MarkerAt, Outside, StripRound, MarkerLines;
    OutsideBare(lines, b, false);
    if MarkerAt(lines, b.marker) < |lines| {
      RoundLowersLines(lines, b);
      StripIsOutside(StripRound(lines, b), b);
      RoundBare(lines, b);
      OutsideBare(StripRound(lines, b), b, false);
    } else {
      NoMarkerLines(lines, b.marker);
      OutsideFree(lines, [], b);
      NoneOutside(b);
      assert lines + [] == lines;
    }
  }

  // ----- both kinds of blocks in one pass -----

  /** Whether the pass is inside an OMCP block, and inside a registry block. */
  datatype Where = Where(omcp: bool, registry: bool)

  predicate IsManaged(w: Where, l: Line) {
    w.omcp || Contains(l, OmcpMarker) || w.registry || Contains(l, RegistryMarker)
  }

  function Next(w: Where, l: Line): Where {
    if w.omcp then w.(omcp := !Contains(l, OmcpEnd))
    else if Contains(l, OmcpMarker) then w.(omcp := !Closes(l, OmcpMarks))
    else if w.registry then w.(registry := !Contains(l, RegistryEnd))
    else if Contains(l, RegistryMarker) then w.(registry := !Closes(l, RegistryMarks))
    else w
  }

  const Nowhere := Where(false, false)

  /** The lines of the user. */
  function UserLines(lines: seq<Line>, w: Where): seq<Line>
    decreases |lines|
  {
    if lines == [] then []
    else (if IsManaged(w, lines[0]) then [] else [lines[0]]) + UserLines(lines[1..], Next(w, lines[0]))
  }

  lemma {:induction false} OnePass(lines: seq<Line>, w: Where)
    ensures UserLines(lines, w) == Outside(Outside(lines, OmcpMarks, w.omcp), RegistryMarks, w.registry)
    decreases |lines|
  {
    hide Contains, Closes, OmcpMarker, OmcpEnd, RegistryMarker, RegistryEnd;
    if lines != [] {
      var l, rest := lines[0], lines[1..];
      OnePass(rest, Next(w, l));
      if !w.omcp && !Contains(l, OmcpMarker) {
        assert Outside(lines, OmcpMarks, false)[0] == l && Outside(lines, OmcpMarks, false)[1..] == Outside(rest, OmcpMarks, false);
      }
    }
  }

  /** What the two stripping loops leave are the lines of the user. */
  lemma UnmarkedIs(config: seq<Line>)
    ensures Bare(Unmarked(config)) == Bare(UserLines(config, Nowhere))
  {
    hide Bare, Outside, StripBlocks, FindableMarks;
    NonEmptyMarkers();
    MarksFindable();
    assert OmcpMarks.marker != "" && RegistryMarks.marker != "";
    hide OmcpMarks, RegistryMarks;
    var once, out := StripBlocks(config, OmcpMarks), Outside(config, OmcpMarks, false);
    StripIsOutside(config, OmcpMarks);
    StripIsOutside(once, RegistryMarks);
    OutsideBare(once, RegistryMarks, false);
    OutsideBare(out, RegistryMarks, false);
    OnePass(config, Nowhere);
  }

  lemma RuleIdle(l: Line)
    requires Dropped(l)
    ensures Idle(l)
  {
  }

  lemma {:induction false} PickedBare(pick: Pick, table: string, lines: seq<Line>)
    requires Quiet(pick)
    ensures Picked(pick, table, Bare(lines)) == Picked(pick, table, lines)
    decreases |lines|
  {
    hide KindOf, Trim, Picked, Quiet, Dropped, TableOf;
    if lines != [] {
      var l, rest := lines[0], lines[1..];
      assert lines == [l] + rest;
      PickedCons(pick, table, l, rest);
      PickedBare(pick, TableOf(table, l), rest);
      if Dropped(l) {
        RuleIdle(l);
        IdleNotPicked(pick, table, l);
        assert [] + Bare(rest) == Bare(rest);
        assert [] + Picked(pick, table, rest) == Picked(pick, table, rest);
      } else {
        PickedCons(pick, table, Trim(l), Bare(rest));
        SameEntry(table, l);
      }
    }
  }

  lemma SameEntry(table: string, l: Line)
    ensures EntryOf(table, Trim(l)) == EntryOf(table, l) && TableOf(table, Trim(l)) == TableOf(table, l)
  {
    TrimmedEntry(table, l);
    hide KindOf, Trim;
  }

  lemma PickedUnmarked(pick: Pick, config: seq<Line>)
    requires Quiet(pick)
    ensures Picked(pick, "", Unmarked(config)) == Picked(pick, "", UserLines(config, Nowhere))
  {
    hide Bare, Unmarked, UserLines, Picked, Quiet;
    UnmarkedIs(config);
    PickedBare(pick, "", Unmarked(config));
    PickedBare(pick, "", UserLines(config, Nowhere));
  }

  // ----- the user's lines with the tables they have in the whole file -----

  function UserEntries(pick: Pick, table: string, lines: seq<Line>, w: Where): seq<Entry>
    decreases |lines|
  {
    if lines == [] then []
    else
      var e := EntryOf(table, lines[0]);
      (if !IsManaged(w, lines[0]) && pick(e) then [e] else []) + UserEntries(pick, e.table, lines[1..], Next(w, lines[0]))
  }

  /** The text behind each block begins with a bracket line, blank lines and comments aside; `behind`: a
      block was passed and no such line since. */
  predicate HeadedBlocks(lines: seq<Line>, w: Where, behind: bool)
    decreases |lines|
  {
    if lines == [] then true
    else
      var l := lines[0];
      if IsManaged(w, l) then HeadedBlocks(lines[1..], Next(w, l), true)
      else (Opens(l) || Idle(l) || !behind) && HeadedBlocks(lines[1..], Next(w, l), behind && !Opens(l))
  }

  /** Then each line of the user has the same table with the blocks and without them. */
  lemma {:induction false} HeadedTables(pick: Pick, t1: string, t2: string, lines: seq<Line>, w: Where, behind: bool)
    requires Quiet(pick) && HeadedBlocks(lines, w, behind) && (behind || t1 == t2)
    ensures UserEntries(pick, t1, lines, w) == Picked(pick, t2, UserLines(lines, w))
    decreases |lines|
  {
    hide KindOf, Trim, Quiet, IsManaged, Next, Opens, Idle, Picked;
    if lines == [] {
      NoPicks(pick, t2);
    } else {
      var l, rest := lines[0], lines[1..];
      var u := Next(w, l);
      if IsManaged(w, l) {
        HeadedTables(pick, TableOf(t1, l), t2, rest, u, true);
        assert [] + UserLines(rest, u) == UserLines(rest, u);
      } else {
        PickedCons(pick, t2, l, UserLines(rest, u));
        if Idle(l) {
          IdleNotPicked(pick, t1, l);
          IdleNotPicked(pick, t2, l);
        }
        HeadedTables(pick, TableOf(t1, l), TableOf(t2, l), rest, u, behind && !Opens(l));
      }
    }
  }
}
