/** Running setup on its own output: the blocks come off, the user's part is as it was left, and the
    same lines go around it again. */
module ConfigIdempotence {
  import opened Text
  import opened ConfigLines
  import opened ConfigSections
  import opened ConfigTui
  import opened ConfigMarkers
  import opened ConfigTimeouts
  import opened ConfigRoot
  import opened ConfigStable
  import opened ConfigMerge
  import opened ConfigSettled
  import opened ConfigRepaired
  import opened ConfigFooter

  // ----- the registry block -----

  lemma {:induction false} NewServersAre(servers: seq<Shared>, existing: seq<Line>, x: Shared)
    ensures x in NewServers(servers, existing) ==> x in servers
  {
    if servers != [] {
      NewServersAre(servers[1..], existing, x);
    }
  }

  ghost predicate ServersOk(servers: seq<Shared>) {
    forall x :: x in servers ==> PlainLines(x.lines) && HasHeader(x.lines) && NoOpeners(x.lines)
  }

  lemma {:induction false} ServerLinesOk(servers: seq<Shared>)
    requires ServersOk(servers)
    ensures PlainLines(ServerLines(servers)) && NoOpeners(ServerLines(servers))
    ensures servers != [] ==> HasHeader(ServerLines(servers))
  {
    hide KindOf, Plain;
    if servers != [] {
      assert servers[0] in servers;
      ServerLinesOk(servers[1..]);
      var h :| h in servers[0].lines && IsHeader(h);
      assert h in ServerLines(servers);
    }
  }

  lemma RegistryOk(s: Setup, servers: seq<Shared>)
    requires PlainLines(s.source) && NoOpens(s.source) && ServersOk(servers) && servers != []
    ensures BlockOk(Registry(s, servers)) && PlainLines(RegistryMiddle(s, servers))
  {
    hide KindOf, Plain, Opens, ServerLines;
    FixedRemarks();
    RemarkKind(RuleLine);
    RemarkKind("# " + RegistryMarker);
    RemarkKind(RegistryNote);
    EmptyKind();
    RulePlain();
    NotesPlain();
    ServerLinesOk(servers);
    OpenersOpen();
    HeaderNotRemark(RegistryNote);
    hide RuleLine, RegistryNote, RegistryMarker, IsHeader;
    MiddleShape(s, servers);
  }

  lemma MiddleShape(s: Setup, servers: seq<Shared>)
    requires HasHeader(ServerLines(servers))
    ensures var m := RegistryMiddle(s, servers);
            && m != [] && m[0] == RegistryNote && HasHeader(m)
            && forall l :: l in m <==> l == RegistryNote || l in s.source || l == RuleLine || l == "" || l in ServerLines(servers)
  {
    hide RuleLine, RegistryNote, IsHeader, ServerLines, KindOf;
    var h :| h in ServerLines(servers) && IsHeader(h);
    assert h in RegistryMiddle(s, servers);
  }

  lemma HeaderNotRemark(l: Line)
    requires KindOf(l).Remark?
    ensures !IsHeader(l)
  {
  }

  lemma OpenersOpen()
    ensures forall l :: KindOf(l).Opener? ==> Opens(l)
  {
  }

  /** The registry block behind a section that may have been left open, repaired inside. */
  function RegistryBehind(s: Setup, servers: seq<Shared>, open: seq<Line>): Written {
    var w := Registry(s, servers);
    var n := BodyLength(w.middle);
    w.(middle := (if open != [] && s.needs(open + BlockGap(w)) then InsertIn(w.middle[..n]) else w.middle[..n])
                 + AddInside(w.middle[n..], s.needs))
  }

  lemma RegistryAdded(s: Setup, servers: seq<Shared>, front: seq<Line>)
    requires PlainLines(s.source) && NoOpens(s.source) && ServersOk(servers) && servers != []
    ensures AddInside(front + WrittenLines(Registry(s, servers)), s.needs)
         == AddInside(front, s.needs) + WrittenLines(RegistryBehind(s, servers, OpenSection(front)))
  {
    hide KindOf, Plain, BodyLength, AddTimeouts, AddInside, OpenSection, WrittenLines, BlockGap, BlockRest, NoOpens, HasVisible, StartsSection, BlockOk, AddedGap, RegistryBehind, RegistryMiddle;
    var w := Registry(s, servers);
    RegistryOk(s, servers);
    BlockParts(w);
    GapOk(w);
    Assoc(front, BlockGap(w), BlockRest(w));
    AddConcat(front + BlockGap(w), BlockRest(w), s.needs);
    AddGap(front, BlockGap(w), s.needs);
    Assoc(AddInside(front, s.needs), AddedGap(OpenSection(front), BlockGap(w), s.needs), AddInside(BlockRest(w), s.needs));
    RegistryRest(s, servers, OpenSection(front));
  }

  lemma RegistryRest(s: Setup, servers: seq<Shared>, open: seq<Line>)
    requires BlockOk(Registry(s, servers))
    ensures var w := Registry(s, servers);
            (AddedGap(open, BlockGap(w), s.needs) + AddInside(BlockRest(w), s.needs)
             == WrittenLines(RegistryBehind(s, servers, open)))
  {
    var w := Registry(s, servers);
    GapOk(w);
    hide KindOf, BodyLength, InsertIn, NoOpeners, HasHeader, RegistryMiddle, AddInside;
    var n := BodyLength(w.middle);
    var head := [""] + [w.rule] + [w.marker];
    var g := w.middle[..n];
    InsertInConcat(head, g);
    var g2 := if open != [] && s.needs(open + BlockGap(w)) then InsertIn(g) else g;
    assert AddedGap(open, BlockGap(w), s.needs) == head + g2;
    EndIsGap();
    assert BlockRest(w) == w.middle[n..] + [w.end];
    InsideGap(w.middle[n..], [w.end], s.needs);
    BlockAssoc(head, g2, AddInside(w.middle[n..], s.needs), [w.end], []);
    assert AddInside(w.middle[n..], s.needs) + [w.end] + [] == AddInside(w.middle[n..], s.needs) + [w.end];
  }

  lemma EndIsGap()
    ensures NoOpens([RegistryEnd]) && HasVisible([RegistryEnd]) && EndsTrimmed([RegistryEnd])
  {
    FixedRemarks();
    RemarkKind(RegistryEnd);
    assert RegistryEnd[|RegistryEnd| - 1] == " shared MCP registry sync"[24];
    assert !IsSpace('c') && !IsSpace('#');
    TrimVisible(RegistryEnd);
    hide KindOf, TrimEnd;
    assert RegistryEnd in [RegistryEnd];
  }

  lemma RegistryBehindLines(s: Setup, servers: seq<Shared>, open: seq<Line>, l: Line)
    ensures l in RegistryBehind(s, servers, open).middle ==> l in RegistryMiddle(s, servers) || l == TimeoutLine
  {
    hide BodyLength, KindOf, AddInside, InsertIn, RegistryMiddle;
    var m := RegistryMiddle(s, servers);
    var n := BodyLength(m);
    InsertInLines(m[..n], l);
    InsideLines(m[n..], s.needs, l);
  }

  lemma RegistryWritten(s: Setup, servers: seq<Shared>, open: seq<Line>)
    requires PlainLines(s.source) && NoOpens(s.source) && ServersOk(servers) && servers != []
    ensures IsWritten(RegistryBehind(s, servers, open), RegistryMarks)
    ensures forall l :: l in WrittenLines(RegistryBehind(s, servers, open)) ==> !Contains(l, OmcpMarker)
  {
    hide KindOf, Contains, RegistryMiddle, IndexOf, IsRule, BlockOk, RegistryBehind, Opens, NoOpens;
    RegistryOk(s, servers);
    var w := RegistryBehind(s, servers, open);
    RegistryShape(s, servers, open);
    forall l | l in w.middle ensures Plain(l) {
      RegistryBehindLines(s, servers, open, l);
      TuiLinesPlain();
    }
    RulePlain();
    NotesPlain();
    RegistryMarkerLine();
    NeverFoundAt("# " + RegistryMarker, RegistryEnd, RegistryMarker);
    EndLines();
    assert AllBlank([]);
  }

  lemma RegistryShape(s: Setup, servers: seq<Shared>, open: seq<Line>)
    ensures var w := RegistryBehind(s, servers, open);
            w.rule == RuleLine && w.marker == "# " + RegistryMarker && w.end == RegistryEnd && w.tail == []
  {
  }

  // ----- taking the blocks off -----

  lemma InsideEndsTrimmed(front: seq<Line>, needs: Needs)
    requires EndsTrimmed(front)
    ensures EndsTrimmed(AddInside(front, needs))
  {
    hide KindOf, TrimEnd, AddInside;
    if front != [] {
      InsideLast(front, needs);
    } else {
      NothingInside(needs);
    }
  }

  predicate NoMarkers(lines: seq<Line>) {
    forall l :: l in lines ==> !Contains(l, OmcpMarker) && !Contains(l, RegistryMarker)
  }

  lemma InsideNoMarkers(front: seq<Line>, needs: Needs)
    requires NoMarkers(front)
    ensures NoMarkers(AddInside(front, needs))
  {
    hide Contains, AddInside;
    TuiLinesPlain();
    forall l | l in AddInside(front, needs) ensures !Contains(l, OmcpMarker) && !Contains(l, RegistryMarker) {
      InsideLines(front, needs, l);
    }
  }

  /** Both blocks come off again, and what was in front of them is left as the repair made it. */
  lemma FooterComesOff(s: Setup, front: seq<Line>, existing: seq<Line>, withTui: bool)
    requires SetupOk(s) && NoMarkers(front) && EndsTrimmed(front)
    ensures Unmarked(AddTimeouts(front + Footer(s, existing, withTui), s.needs)) == AddInside(front, s.needs)
  {
    hide KindOf, Contains, AddTimeouts, AddInside, OpenSection, WrittenLines, EndsTrimmed, NoMarkers, ManagedOk, SharedOk, Sensible, TopOk, NotifyOk, AgentsOk, StripBlocks, Tables, TablesBehind, RegistryLines, IsWritten;
    NonEmptyMarkers();
    var reg, tables := RegistryLines(s, existing), WrittenLines(Tables(s, withTui));
    var longer := front + reg;
    Assoc(front, reg, tables);
    TablesAdded(s, withTui, longer);
    TablesWritten(s, withTui, OpenSection(longer));
    RegistryComesOff(s, front, existing);
    var w := TablesBehind(s, withTui, OpenSection(longer));
    var inside := AddInside(longer, s.needs);
    StripRemovesWritten(inside, w, OmcpMarks);
  }

  /** The same for the registry block, when there is one. */
  lemma RegistryComesOff(s: Setup, front: seq<Line>, existing: seq<Line>)
    requires SetupOk(s) && NoMarkers(front) && EndsTrimmed(front)
    ensures RegistryMarker != ""
    ensures var inside := AddInside(front + RegistryLines(s, existing), s.needs);
            && (forall l :: l in inside ==> !Contains(l, OmcpMarker))
            && EndsTrimmed(inside)
            && StripBlocks(inside, RegistryMarks) == AddInside(front, s.needs)
  {
    hide KindOf, Contains, AddTimeouts, AddInside, OpenSection, WrittenLines, EndsTrimmed, ManagedOk, Sensible, TopOk, NotifyOk, AgentsOk, StripBlocks, RegistryBehind, IsWritten, Registry, NewServers, Plain, HasHeader, NoOpeners, Opens;
    NonEmptyMarkers();
    InsideNoMarkers(front, s.needs);
    InsideEndsTrimmed(front, s.needs);
    var servers := NewServers(s.shared, existing);
    if servers == [] {
      assert front + [] == front;
      StripBlocksIsClean(AddInside(front, s.needs), RegistryMarks);
    } else {
      forall x | x in servers ensures x in s.shared { NewServersAre(s.shared, existing, x); }
      RegistryAdded(s, servers, front);
      var w := RegistryBehind(s, servers, OpenSection(front));
      RegistryWritten(s, servers, OpenSection(front));
      RegistryShape(s, servers, OpenSection(front));
      StripRemovesWritten(AddInside(front, s.needs), w, RegistryMarks);
      WrittenEnds(AddInside(front, s.needs), w);
    }
  }

  lemma WrittenEnds(front: seq<Line>, w: Written)
    requires w.end == RegistryEnd && w.tail == []
    ensures EndsTrimmed(front + WrittenLines(w))
  {
    hide KindOf, TrimEnd;
    EndIsGap();
    var whole := front + WrittenLines(w);
    assert whole[|whole| - 1] == w.end;
  }
}
