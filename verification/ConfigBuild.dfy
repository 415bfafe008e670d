/** buildMergedConfig and the timeout repair as they rewrite the line array step by step. */
module ConfigBuild {
  import opened Text
  import opened ConfigLines
  import opened ConfigSections
  import opened ConfigTui
  import opened ConfigMarkers
  import opened ConfigTimeouts
  import opened ConfigRoot
  import opened ConfigMerge
  import Edits = ConfigEdits
  import TuiEdits = ConfigTuiEdits

  // ----- the timeout repair -----

  /** The lines with a timeout spliced in at each of the ascending positions. */
  function Spliced(lines: seq<Line>, targets: seq<nat>): seq<Line>
    requires Ascending(targets) && (targets != [] ==> targets[|targets| - 1] <= |lines|)
    decreases |targets|
  {
    if targets == [] then lines
    else
      var t := targets[|targets| - 1];
      LastBelow(targets);
      Spliced(lines[..t], targets[..|targets| - 1]) + [TimeoutLine] + lines[t..]
  }

  predicate Ascending(targets: seq<nat>) {
    forall i, j :: 0 <= i < j < |targets| ==> targets[i] < targets[j]
  }

  lemma LastBelow(targets: seq<nat>)
    requires Ascending(targets) && targets != []
    ensures var front := targets[..|targets| - 1];
            Ascending(front) && (front != [] ==> front[|front| - 1] < targets[|targets| - 1])
  {
  }

  lemma SplicedExtend(a: seq<Line>, b: seq<Line>, targets: seq<nat>)
    requires Ascending(targets) && (targets != [] ==> targets[|targets| - 1] <= |a|)
    ensures Spliced(a + b, targets) == Spliced(a, targets) + b
  {
    if targets != [] {
      var t := targets[|targets| - 1];
      LastBelow(targets);
      assert (a + b)[..t] == a[..t] && (a + b)[t..] == a[t..] + b;
    }
  }

  lemma {:induction false} WithTimeoutAt(section: seq<Line>, k: nat)
    requires 0 < k <= |section| && (k == 1 || !IsBlank(section[k - 1]))
    requires forall i :: k <= i < |section| ==> IsBlank(section[i])
    ensures WithTimeout(section) == section[..k] + [TimeoutLine] + section[k..]
    decreases |section|
  {
    hide KindOf;
    if |section| > 1 {
      var n := |section| - 1;
      if IsBlank(section[n]) {
        if k == |section| {
          assert false;
        } else {
          WithTimeoutAt(section[..n], k);
          assert section[..n][..k] == section[..k] && section[k..] == section[..n][k..] + [section[n]];
        }
      } else {
        assert k == |section|;
        assert section[..k] == section && section[k..] == [];
      }
    } else {
      assert section[..k] == section && section[k..] == [];
    }
  }

  /** `targets` are the repairs of the sections in front of line `start`. */
  ghost predicate Found(lines: seq<Line>, needs: Needs, targets: seq<nat>, start: nat) {
    && start <= |lines| && Ascending(targets) && (targets != [] ==> targets[|targets| - 1] <= start)
    && Spliced(lines[..start], targets) + AddTimeouts(lines[start..], needs) == AddTimeouts(lines, needs)
  }

  lemma FoundStarts(lines: seq<Line>, needs: Needs)
    ensures Found(lines, needs, [], 0)
  {
    hide AddTimeouts;
    assert lines[0..] == lines && lines[..0] == [];
    assert [] + AddTimeouts(lines, needs) == AddTimeouts(lines, needs);
  }

  lemma FoundAll(lines: seq<Line>, needs: Needs, targets: seq<nat>)
    requires Found(lines, needs, targets, |lines|)
    ensures Ascending(targets) && (targets != [] ==> targets[|targets| - 1] <= |lines|)
    ensures Spliced(lines, targets) == AddTimeouts(lines, needs)
  {
    hide Spliced, AddTimeouts;
    assert lines[..|lines|] == lines && lines[|lines|..] == [];
    NothingAdded(needs);
  }

  /** A section that is not repaired, or a line outside all sections. */
  lemma FoundNext(lines: seq<Line>, needs: Needs, targets: seq<nat>, start: nat, end: nat)
    requires Found(lines, needs, targets, start) && start < |lines|
    requires end == start + FirstPart(lines[start..]) && PartAdded(lines[start..end], needs) == lines[start..end]
    ensures Found(lines, needs, targets, end)
  {
    hide Spliced, AddTimeouts, FirstPart, PartAdded, IsPart, Ascending;
    FoundStep(lines, needs, targets, start, end);
    SplicedExtend(lines[..start], lines[start..end], targets);
    assert lines[..start] + lines[start..end] == lines[..end];
  }

  lemma FoundStep(lines: seq<Line>, needs: Needs, targets: seq<nat>, start: nat, end: nat)
    requires Found(lines, needs, targets, start) && start < |lines|
    requires end == start + FirstPart(lines[start..])
    ensures (Spliced(lines[..start], targets) + PartAdded(lines[start..end], needs)) + AddTimeouts(lines[end..], needs)
         == AddTimeouts(lines, needs)
  {
    hide Spliced, AddTimeouts, FirstPart, PartAdded, IsPart, Ascending;
    PartHere(lines, start, end);
    AddPart(lines[start..end], lines[end..], needs);
    Assoc(Spliced(lines[..start], targets), PartAdded(lines[start..end], needs), AddTimeouts(lines[end..], needs));
  }

  /** A section repaired at `at`. */
  lemma FoundRepair(lines: seq<Line>, needs: Needs, targets: seq<nat>, start: nat, end: nat, at: nat)
    requires Found(lines, needs, targets, start) && start < at <= end
    requires start < |lines| && end == start + FirstPart(lines[start..]) && StartsMcp(lines[start]) && needs(lines[start..end])
    requires forall i :: at <= i < end ==> IsBlank(lines[i])
    requires at == start + 1 || !IsBlank(lines[at - 1])
    ensures Found(lines, needs, targets + [at], end)
  {
    hide Spliced, AddTimeouts, FirstPart, KindOf, StartsMcp, IsPart, Ascending, PartAdded;
    FoundStep(lines, needs, targets, start, end);
    RepairedPart(lines, needs, start, end, at);
    SpliceOne(lines, start, end, at, targets);
  }

  lemma RepairedPart(lines: seq<Line>, needs: Needs, start: nat, end: nat, at: nat)
    requires start < at <= end <= |lines| && StartsMcp(lines[start]) && needs(lines[start..end])
    requires forall i :: at <= i < end ==> IsBlank(lines[i])
    requires at == start + 1 || !IsBlank(lines[at - 1])
    ensures var section := lines[start..end];
            PartAdded(section, needs) == section[..at - start] + [TimeoutLine] + section[at - start..]
  {
    hide KindOf, StartsMcp, WithTimeout;
    WithTimeoutAt(lines[start..end], at - start);
  }

  /** Where timeouts are missing. */
  method FindRepairTargets(lines: seq<Line>, needs: Needs) returns (targets: seq<nat>)
    ensures Ascending(targets) && (targets != [] ==> targets[|targets| - 1] <= |lines|)
    ensures Spliced(lines, targets) == AddTimeouts(lines, needs)
  {
    hide KindOf, StartsMcp, Found, SectionLength, Ascending, Spliced;
    targets := [];
    var start := 0;
    FoundStarts(lines, needs);
    while start < |lines|
      invariant 0 <= start <= |lines| && Found(lines, needs, targets, start)
    {
      if !StartsMcp(lines[start]) {
        FoundNext(lines, needs, targets, start, start + 1);
        start := start + 1;
        continue;
      }
      var end := FindEnd(lines, start);
      if needs(lines[start..end]) {
        var insertAt := end;
        while insertAt > start + 1 && IsBlank(lines[insertAt - 1])
          invariant start + 1 <= insertAt <= end
          invariant forall i :: insertAt <= i < end ==> IsBlank(lines[i])
        {
          insertAt := insertAt - 1;
        }
        FoundRepair(lines, needs, targets, start, end, insertAt);
        targets := targets + [insertAt];
      } else {
        FoundNext(lines, needs, targets, start, end);
      }
      start := end;
    }
    FoundAll(lines, needs, targets);
  }

  method FindEnd(lines: seq<Line>, start: nat) returns (end: nat)
    requires start < |lines|
    ensures end == start + SectionLength(lines[start..]) <= |lines|
  {
    hide KindOf;
    end := start + 1;
    ghost var rest := lines[start..][1..];
    assert rest == lines[start + 1..];
    while end < |lines| && !IsHeader(lines[end])
      invariant start < end <= |lines|
      invariant BodyLength(rest) == (end - start - 1) + BodyLength(lines[end..])
    {
      end := end + 1;
    }
  }

  lemma PartHere(lines: seq<Line>, start: nat, end: nat)
    requires start < end <= |lines|
    requires end == start + FirstPart(lines[start..])
    ensures IsPart(lines[start..end], lines[end..]) && lines[start..] == lines[start..end] + lines[end..]
  {
    hide KindOf, StartsMcp, FirstPart, IsPart;
    PartOf(lines[start..]);
    assert lines[start..][..end - start] == lines[start..end] && lines[start..][end - start..] == lines[end..];
  }

  lemma SpliceOne(lines: seq<Line>, start: nat, end: nat, at: nat, targets: seq<nat>)
    requires start < at <= end <= |lines|
    requires Ascending(targets) && (targets != [] ==> targets[|targets| - 1] <= start)
    ensures Ascending(targets + [at])
    ensures Spliced(lines[..end], targets + [at])
         == Spliced(lines[..start], targets) + (lines[start..end][..at - start] + [TimeoutLine] + lines[start..end][at - start..])
  {
    hide Spliced, Ascending;
    AscendingSnoc(targets, at);
    SplicedSnoc(lines[..end], targets, at);
    SliceSplit(lines, start, end, at);
    var a, b, c := lines[..start], lines[start..end][..at - start], lines[start..end][at - start..];
    SplicedExtend(a, b, targets);
    var done := Spliced(a, targets);
    Assoc(done, b, [TimeoutLine]);
    Assoc(done, b + [TimeoutLine], c);
  }

  lemma AscendingSnoc(targets: seq<nat>, at: nat)
    requires Ascending(targets) && (targets != [] ==> targets[|targets| - 1] < at)
    ensures Ascending(targets + [at])
  {
  }

  lemma SplicedSnoc(lines: seq<Line>, targets: seq<nat>, at: nat)
    requires Ascending(targets) && (targets != [] ==> targets[|targets| - 1] < at) && at <= |lines|
    requires Ascending(targets + [at])
    ensures Spliced(lines, targets + [at]) == Spliced(lines[..at], targets) + [TimeoutLine] + lines[at..]
  {
    assert (targets + [at])[..|targets|] == targets;
  }

  lemma SliceSplit(lines: seq<Line>, start: nat, end: nat, at: nat)
    requires start < at <= end <= |lines|
    ensures lines[..end][..at] == lines[..start] + lines[start..end][..at - start]
    ensures lines[..end][at..] == lines[start..end][at - start..]
  {
  }

  /** addDefaultLauncherMcpStartupTimeouts: the splices go in from the last one up. */
  method AddDefaultTimeouts(config: seq<Line>, needs: Needs) returns (lines: seq<Line>)
    ensures lines == AddTimeouts(config, needs)
  {
    hide AddTimeouts, SettingLine;
    var targets := FindRepairTargets(config, needs);
    if targets == [] {
      return config;
    }
    lines := config;
    var i := |targets|;
    assert targets[..i] == targets;
    ghost var tail: seq<Line> := [];
    ghost var front := config;
    assert front + tail == lines;
    while i > 0
      invariant 0 <= i <= |targets|
      invariant lines == front + tail
      invariant i > 0 ==> targets[i - 1] <= |front|
      invariant Ascending(targets[..i])
      invariant Spliced(front, targets[..i]) + tail == Spliced(config, targets)
    {
      i := i - 1;
      var t := targets[i];
      LastBelow(targets[..i + 1]);
      assert targets[..i + 1][..i] == targets[..i];
      ghost var rest := [TimeoutLine] + front[t..];
      Assoc(Spliced(front[..t], targets[..i]), [TimeoutLine], front[t..]);
      Assoc(Spliced(front[..t], targets[..i]), rest, tail);
      SpliceIn(front, tail, t);
      lines := lines[..t] + [TimeoutLine] + lines[t..];
      tail := rest + tail;
      front := front[..t];
    }
    assert targets[..0] == [];
  }

  lemma SpliceIn(front: seq<Line>, tail: seq<Line>, t: nat)
    requires t <= |front|
    ensures var lines := front + tail;
            lines[..t] + [TimeoutLine] + lines[t..] == front[..t] + (([TimeoutLine] + front[t..]) + tail)
  {
    var lines := front + tail;
    assert lines[..t] == front[..t] && lines[t..] == front[t..] + tail;
  }

  // ----- buildMergedConfig -----

  method BuildMergedConfig(s: Setup, config: seq<Line>) returns (merged: seq<Line>)
    ensures merged == Merge(s, config)
  {
    hide KindOf, StripBlocks, StripRootKeys, StripOrphans, Upsert, FoldTui, AddTimeouts, TopLines, RegistryLines, WrittenLines, Tables, TrimEndLines, HasTitle, TuiTitle;
    NonEmptyMarkers();
    var existing, removed := StripMarkerBlocks(config, OmcpMarks);
    existing, removed := StripMarkerBlocks(existing, RegistryMarks);
    existing := StripRootLevelKeys(existing, TopKeys, true);
    existing := s.dropNotify(existing);
    if Overrides(s.top) {
      existing := StripRootLevelKeys(existing, {ModelKey}, false);
    }
    existing := StripOrphanedSections(existing, s.legacyAgent);
    assert existing == Cleared(s, Unmarked(config));
    existing := Edits.UpsertFeatureFlags(existing);
    existing := Edits.UpsertEnvSettings(existing);
    existing := Edits.UpsertAgentsSettings(existing);
    var hadExistingTui := false;
    if s.includeTui {
      existing, hadExistingTui := TuiEdits.UpsertTuiStatusLine(existing);
    }
    assert existing == Existing(s, Unmarked(config));
    var withTui := s.includeTui && !hadExistingTui;
    var top := TopLines(s.top, existing);
    var body := TrimEndLines(existing);
    var registry := RegistryLines(s, existing);
    Assoc(top + [""] + body, registry, WrittenLines(Tables(s, withTui)));
    merged := AddDefaultTimeouts(top + [""] + body + registry + WrittenLines(Tables(s, withTui)), s.needs);
  }
}
