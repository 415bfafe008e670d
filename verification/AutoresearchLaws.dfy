/** What every run of the supervisor keeps: the ledger is a chain, the results table follows it,
    scores only improve, and HEAD is at the last kept commit after an evaluated candidate. */
module AutoresearchLaws {
  import opened AutoresearchTypes
  import opened AutoresearchTurn

  // ----- reading a ledger -----

  function KeptAfter(origin: Commit, ledger: seq<Entry>): Commit {
    if ledger == [] then origin else ledger[|ledger| - 1].kept
  }

  function LastIteration(ledger: seq<Entry>): int {
    if ledger == [] then -1 else ledger[|ledger| - 1].iteration
  }

  /** The score the next candidate has to beat. */
  function ScoreAfter(ledger: seq<Entry>): Option<real> {
    if ledger == [] then None
    else
      var e := ledger[|ledger| - 1];
      if e.isBaseline then (if PassOf(e.evaluation) == Some(true) then ScoreOf(e.evaluation) else None)
      else if e.decision == Keep && ScoreOf(e.evaluation).Some? then ScoreOf(e.evaluation)
      else ScoreAfter(ledger[..|ledger| - 1])
  }

  /** What an entry owes the ledger before it. */
  predicate Follows(e: Entry, origin: Commit, policy: KeepPolicy, before: seq<Entry>) {
    && e.keepPolicy == policy
    && LastIteration(before) < e.iteration
    && (e.isBaseline ==> before == [] && e.decision != Keep)
    && (!e.isBaseline && e.decision != Error ==> e.base == KeptAfter(origin, before))
    && (e.kept != KeptAfter(origin, before) ==> e.decision == Keep)
    && (e.decision == Keep ==> PassOf(e.evaluation) == Some(true))
    && (e.decision == Keep && policy == ScoreImprovement ==> Improves(ScoreAfter(before), ScoreOf(e.evaluation)))
  }

  predicate Chained(origin: Commit, policy: KeepPolicy, ledger: seq<Entry>) {
    ledger == []
    || (var n := |ledger| - 1;
        Chained(origin, policy, ledger[..n]) && Follows(ledger[n], origin, policy, ledger[..n]))
  }

  predicate RowFor(r: Row, e: Entry) {
    r.iteration == e.iteration && r.status == e.decision && r.pass == PassOf(e.evaluation) && r.score == ScoreOf(e.evaluation)
  }

  /** After the rows of earlier runs, one row per entry, in order. */
  predicate RowsMatch(earlier: seq<Row>, results: seq<Row>, ledger: seq<Entry>) {
    if ledger == [] then results == earlier
    else |results| > 0 && RowFor(results[|results| - 1], ledger[|ledger| - 1])
         && RowsMatch(earlier, results[..|results| - 1], ledger[..|ledger| - 1])
  }

  /** The files of one run agree with each other. */
  predicate FilesAgree(origin: Commit, earlier: seq<Row>, s: RunState) {
    && Chained(origin, s.disk.keepPolicy, s.ledger)
    && RowsMatch(earlier, s.results, s.ledger)
    && s.disk.lastKept == KeptAfter(origin, s.ledger)
    && s.disk.lastScore == ScoreAfter(s.ledger)
    && LastIteration(s.ledger) <= s.disk.iteration && 0 <= s.disk.iteration
  }

  /** The manifest in memory belongs to the run and is not behind the one on disk. */
  predicate SameRun(s: RunState) {
    && s.mem.runId == s.disk.runId && s.mem.keepPolicy == s.disk.keepPolicy
    && s.disk.iteration <= s.mem.iteration
  }

  /** Memory and disk agree on what was last kept. */
  predicate Synced(s: RunState) {
    s.mem.lastKept == s.disk.lastKept && s.mem.lastScore == s.disk.lastScore
  }

  // ----- one turn -----

  lemma AppendEntry(origin: Commit, earlier: seq<Row>, s: RunState, e: Entry, commit: string)
    requires FilesAgree(origin, earlier, s)
    requires Follows(e, origin, s.disk.keepPolicy, s.ledger)
    ensures var after := Logged(s, e, commit);
            && Chained(origin, s.disk.keepPolicy, after.ledger)
            && RowsMatch(earlier, after.results, after.ledger)
            && KeptAfter(origin, after.ledger) == e.kept
            && LastIteration(after.ledger) == e.iteration
            && after.ledger[..|s.ledger|] == s.ledger
  {
    var after := Logged(s, e, commit);
    assert after.ledger[..|after.ledger| - 1] == s.ledger;
    assert after.results[..|after.results| - 1] == s.results;
  }

  lemma ScoreAfterUnkept(ledger: seq<Entry>, e: Entry)
    requires !e.isBaseline && e.decision != Keep
    ensures ScoreAfter(ledger + [e]) == ScoreAfter(ledger)
  {
    assert (ledger + [e])[..|ledger|] == ledger;
  }

  lemma ScoreAfterKept(ledger: seq<Entry>, e: Entry)
    requires !e.isBaseline && e.decision == Keep
    ensures ScoreAfter(ledger + [e]) == if ScoreOf(e.evaluation).Some? then ScoreOf(e.evaluation) else ScoreAfter(ledger)
  {
    assert (ledger + [e])[..|ledger|] == ledger;
  }

  /** A turn in progress: the iteration was counted in memory, the files are as they were. */
  predicate Begun(origin: Commit, earlier: seq<Row>, s: RunState) {
    FilesAgree(origin, earlier, s) && SameRun(s) && Synced(s) && s.disk.iteration < s.mem.iteration
  }

  predicate Good(origin: Commit, earlier: seq<Row>, s: RunState) {
    FilesAgree(origin, earlier, s) && SameRun(s)
  }

  lemma FailKeeps(origin: Commit, earlier: seq<Row>, s: RunState, t: Turn, reason: string, a: Option<Artifact>)
    requires Begun(origin, earlier, s)
    ensures Good(origin, earlier, Fail(s, t, reason, a).run)
    ensures Synced(Fail(s, t, reason, a).run) && s.ledger <= Fail(s, t, reason, a).run.ledger
  {
    hide FilesAgree;
    var after := Fail(s, t, reason, a).run;
    var e := after.ledger[|s.ledger|];
    assert after.ledger == s.ledger + [e];
    FailFiles(origin, earlier, s, after, e, if t.shortReadable then t.short(s.head) else s.mem.baselineCommit);
  }

  /** An entry that keeps nothing, followed by a write of the manifest. */
  lemma FailFiles(origin: Commit, earlier: seq<Row>, s: RunState, after: RunState, e: Entry, commit: string)
    requires FilesAgree(origin, earlier, s) && SameRun(s) && Synced(s) && s.disk.iteration < s.mem.iteration
    requires after == Logged(s, e, commit).(mem := after.mem, disk := after.mem, head := after.head)
    requires Manifests(s.mem, after.mem)
    requires !e.isBaseline && e.decision != Keep && e.kept == s.mem.lastKept
    requires e.iteration == s.mem.iteration && e.keepPolicy == s.mem.keepPolicy
    requires e.decision != Error ==> e.base == s.mem.lastKept
    ensures FilesAgree(origin, earlier, after)
  {
    assert Follows(e, origin, s.disk.keepPolicy, s.ledger) by { hide Chained, RowsMatch, ScoreAfter; }
    AppendEntry(origin, earlier, s, e, commit);
    ScoreAfterUnkept(s.ledger, e);
    hide Chained, RowsMatch, ScoreAfter, Follows;
  }

  /** The later manifest differs at most in status, stop reason and latest candidate. */
  predicate Manifests(m: Manifest, later: Manifest) {
    later == m.(status := later.status, stopReason := later.stopReason, latestCandidate := later.latestCandidate)
  }

  lemma NonEvaluatedKeeps(origin: Commit, earlier: seq<Row>, s: RunState, t: Turn, a: Artifact)
    requires Begun(origin, earlier, s) && a.status != Candidate && a.baseCommit == s.mem.lastKept
    ensures var after := NonEvaluated(s, t, a).run;
            Good(origin, earlier, after) && Synced(after) && s.ledger <= after.ledger
  {
    var after := NonEvaluated(s, t, a).run;
    if after.ledger != s.ledger {
      var e := after.ledger[|s.ledger|];
      assert after.ledger == s.ledger + [e];
      FailFiles(origin, earlier, s, after, e, t.short(s.head)) by { hide FilesAgree; }
    } else {
      hide Chained, RowsMatch, ScoreAfter;
    }
  }

  lemma EvaluatedKeeps(origin: Commit, earlier: seq<Row>, s: RunState, t: Turn, a: Artifact)
    requires Begun(origin, earlier, s) && a.status == Candidate && a.baseCommit == s.mem.lastKept
    ensures var after := Evaluated(s, t, a).run;
            Good(origin, earlier, after) && s.ledger <= after.ledger
  {
    var after := Evaluated(s, t, a).run;
    if after.ledger != s.ledger {
      var e := after.ledger[|s.ledger|];
      assert after.ledger == s.ledger + [e];
      if e.decision == Keep {
        KeptFiles(origin, earlier, s, after, e, t.short(after.head)) by { hide FilesAgree; }
      } else {
        FailFiles(origin, earlier, s, after, e, t.short(after.head)) by { hide FilesAgree; }
      }
    } else {
      hide Chained, RowsMatch, ScoreAfter;
    }
  }

  lemma KeptFiles(origin: Commit, earlier: seq<Row>, s: RunState, after: RunState, e: Entry, commit: string)
    requires FilesAgree(origin, earlier, s) && SameRun(s) && Synced(s) && s.disk.iteration < s.mem.iteration
    requires after == Logged(s, e, commit).(mem := after.mem, disk := after.mem, head := after.head)
    requires after.mem == s.mem.(lastKept := e.kept,
                                 lastScore := if ScoreOf(e.evaluation).Some? then ScoreOf(e.evaluation) else s.mem.lastScore)
    requires !e.isBaseline && e.decision == Keep && e.base == s.mem.lastKept
    requires e.iteration == s.mem.iteration && e.keepPolicy == s.mem.keepPolicy
    requires PassOf(e.evaluation) == Some(true)
    requires s.mem.keepPolicy == PassOnly || Improves(s.mem.lastScore, ScoreOf(e.evaluation))
    ensures FilesAgree(origin, earlier, after)
  {
    assert Follows(e, origin, s.disk.keepPolicy, s.ledger) by { hide Chained, RowsMatch, ScoreAfter; }
    AppendEntry(origin, earlier, s, e, commit);
    ScoreAfterKept(s.ledger, e);
    hide Chained, RowsMatch, ScoreAfter, Follows;
  }

  /** A turn the supervisor starts in agreement with the disk keeps the files agreeing, whatever
      the candidate, git and the evaluator do, and appends to the ledger at most. */
  lemma ProcessKeepsFiles(origin: Commit, earlier: seq<Row>, s: RunState, t: Turn)
    requires Good(origin, earlier, s) && Synced(s)
    ensures Good(origin, earlier, Process(s, t).run)
    ensures s.ledger <= Process(s, t).run.ledger
  {
    hide FilesAgree, Fail, NonEvaluated, Evaluated;
    var begun := s.(mem := s.mem.(iteration := s.mem.iteration + 1), head := t.head);
    SameFiles(origin, earlier, s, begun);
    if t.artifact.None? {
      FailKeeps(origin, earlier, begun, t, t.parseError, None);
    } else {
      match ValidateCandidate(s.mem.lastKept, t.artifact.value, t)
      case GitFailed =>
        assert Process(s, t).run == begun;
      case Rejected(reason) => FailKeeps(origin, earlier, begun, t, reason, t.artifact);
      case Valid(a) =>
        var accepted := begun.(mem := begun.mem.(latestCandidate := a.candidateCommit));
        SameFiles(origin, earlier, s, accepted);
        if a.status != Candidate {
          NonEvaluatedKeeps(origin, earlier, accepted, t, a);
        } else {
          EvaluatedKeeps(origin, earlier, accepted, t, a);
        }
    }
  }

  lemma SameFiles(origin: Commit, earlier: seq<Row>, s: RunState, u: RunState)
    requires FilesAgree(origin, earlier, s) && u.disk == s.disk && u.ledger == s.ledger && u.results == s.results
    ensures FilesAgree(origin, earlier, u)
  {
  }

  /** The one way a turn leaves memory and disk disagreeing on what was kept: the candidate was
      kept under a new commit or score, and HEAD could not be read for the results row. */
  predicate LostKeep(s: RunState, t: Turn) {
    && t.artifact.Some? && ValidateCandidate(s.mem.lastKept, t.artifact.value, t).Valid?
    && t.artifact.value.status == Candidate
    && DecideOutcome(s.mem.keepPolicy, s.mem.lastScore, Candidate, Some(t.evaluation)).keep
    && t.keptReadable && !t.shortReadable && MovesKept(s, t)
  }

  predicate MovesKept(s: RunState, t: Turn) {
    t.evaluatedHead != s.mem.lastKept
    || (ScoreOf(Some(t.evaluation)).Some? && ScoreOf(Some(t.evaluation)) != s.mem.lastScore)
  }

  lemma FailStaysSynced(s: RunState, t: Turn, reason: string, a: Option<Artifact>)
    requires Synced(s)
    ensures Synced(Fail(s, t, reason, a).run)
  {
  }

  lemma FailOutcome(s: RunState, t: Turn, reason: string, a: Option<Artifact>)
    ensures Fail(s, t, reason, a).outcome in {Threw, Returned(Error)}
  {
  }

  lemma NonEvaluatedStaysSynced(s: RunState, t: Turn, a: Artifact)
    requires Synced(s) && a.status != Candidate
    ensures Synced(NonEvaluated(s, t, a).run)
  {
  }

  lemma NonEvaluatedDecides(s: RunState, t: Turn, a: Artifact)
    requires a.status != Candidate
    ensures NonEvaluated(s, t, a).outcome in {Threw, Returned(Error), Returned(AbortSeen), Returned(InterruptSeen), Returned(NoopSeen)}
  {
  }

  lemma EvaluatedSync(s: RunState, t: Turn, a: Artifact)
    requires Synced(s) && a.status == Candidate
    ensures Synced(Evaluated(s, t, a).run)
            <==> !(DecideOutcome(s.mem.keepPolicy, s.mem.lastScore, Candidate, Some(t.evaluation)).keep
                   && t.keptReadable && !t.shortReadable && MovesKept(s, t))
  {
    hide DecideOutcome;
  }

  lemma SyncLostExactly(s: RunState, t: Turn)
    requires Synced(s)
    ensures Synced(Process(s, t).run) <==> !LostKeep(s, t)
  {
    hide Fail, NonEvaluated, Evaluated, DecideOutcome, ValidateCandidate;
    var begun := s.(mem := s.mem.(iteration := s.mem.iteration + 1), head := t.head);
    if t.artifact.None? {
      FailStaysSynced(begun, t, t.parseError, None);
    } else {
      match ValidateCandidate(s.mem.lastKept, t.artifact.value, t)
      case GitFailed =>
        assert Process(s, t).run == begun;
      case Rejected(reason) => FailStaysSynced(begun, t, reason, t.artifact);
      case Valid(a) =>
        var accepted := begun.(mem := begun.mem.(latestCandidate := a.candidateCommit));
        if a.status != Candidate {
          NonEvaluatedStaysSynced(accepted, t, a);
        } else {
          EvaluatedSync(accepted, t, a);
        }
    }
  }

  lemma EvaluatedHead(s: RunState, t: Turn, a: Artifact)
    requires a.status == Candidate && Evaluated(s, t, a).outcome.Returned?
    ensures var after := Evaluated(s, t, a).run;
            && after.head == after.mem.lastKept && after.disk == after.mem
            && Evaluated(s, t, a).outcome.decision in {Keep, Discard, Ambiguous}
            && (after.mem.lastKept == s.mem.lastKept || Evaluated(s, t, a).outcome.decision == Keep)
  {
    hide DecideOutcome;
  }

  /** HEAD is at the last kept commit after every evaluated candidate that returns normally. */
  lemma HeadIsLastKept(s: RunState, t: Turn)
    requires Process(s, t).outcome.Returned?
    requires Process(s, t).outcome.decision in {Keep, Discard, Ambiguous}
    ensures var after := Process(s, t).run;
            && after.head == after.mem.lastKept == after.disk.lastKept
            && after.disk == after.mem
            && (after.mem.lastKept == s.mem.lastKept || Process(s, t).outcome.decision == Keep)
  {
    hide Fail, NonEvaluated, Evaluated, DecideOutcome, ValidateCandidate, Synced;
    var begun := s.(mem := s.mem.(iteration := s.mem.iteration + 1), head := t.head);
    if t.artifact.None? {
      FailOutcome(begun, t, t.parseError, None);
    } else {
      match ValidateCandidate(s.mem.lastKept, t.artifact.value, t)
      case GitFailed =>
      case Rejected(reason) => FailOutcome(begun, t, reason, t.artifact);
      case Valid(a) =>
        var accepted := begun.(mem := begun.mem.(latestCandidate := a.candidateCommit));
        if a.status != Candidate {
          NonEvaluatedDecides(accepted, t, a);
        } else {
          EvaluatedHead(accepted, t, a);
        }
    }
  }

  /** If the evaluator leaves HEAD alone, what is kept is the commit the candidate named. */
  lemma KeptIsTheCandidate(s: RunState, t: Turn)
    requires Process(s, t).outcome == Returned(Keep) && t.evaluatedHead == t.head
    ensures var after := Process(s, t).run;
            && after.ledger != [] && after.ledger[|after.ledger| - 1].kept == t.head
            && after.ledger[|after.ledger| - 1].candidateCommit.Some?
            && after.ledger[|after.ledger| - 1].candidateCommit.value == t.head
  {
    hide Fail, NonEvaluated, Evaluated, DecideOutcome, ValidateCandidate;
    var begun := s.(mem := s.mem.(iteration := s.mem.iteration + 1), head := t.head);
    if t.artifact.None? {
      FailOutcome(begun, t, t.parseError, None);
    } else {
      match ValidateCandidate(s.mem.lastKept, t.artifact.value, t)
      case GitFailed =>
      case Rejected(reason) => FailOutcome(begun, t, reason, t.artifact);
      case Valid(a) =>
        var accepted := begun.(mem := begun.mem.(latestCandidate := a.candidateCommit));
        if a.status != Candidate {
          NonEvaluatedDecides(accepted, t, a);
        } else {
          EvaluatedKeepsHead(accepted, t, a);
        }
    }
  }

  lemma EvaluatedKeepsHead(s: RunState, t: Turn, a: Artifact)
    requires a.status == Candidate && Evaluated(s, t, a).outcome == Returned(Keep)
    ensures var after := Evaluated(s, t, a).run;
            && after.ledger != [] && after.ledger[|after.ledger| - 1].kept == t.evaluatedHead
            && after.ledger[|after.ledger| - 1].candidateCommit == a.candidateCommit
  {
    hide DecideOutcome;
  }

  // ----- the chain is needed and is enough -----

  /** A noop turn naming `base`, in a repository whose refs all resolve to themselves. */
  function NoopTurn(base: Commit): Turn {
    Turn(Some(Artifact(Noop, None, base, "")), "", base, c => Some(c), c => c, true, Errored, base, true, true, true, true, true)
  }

  /** The manifest does not ask for less than the ledger's best score. */
  predicate AsksEnough(m: Manifest, ledger: seq<Entry>) {
    m.keepPolicy == PassOnly || m.lastScore.None?
    || (ScoreAfter(ledger).Some? && ScoreAfter(ledger).value <= m.lastScore.value)
  }

  /** Every turn keeps the ledger a chain exactly when the manifest it starts from agrees with the
      ledger on the last kept commit and asks for no lower score than the ledger does. */
  lemma ChainKeptExactly(origin: Commit, earlier: seq<Row>, s: RunState)
    requires Good(origin, earlier, s)
    ensures (forall t :: Chained(origin, s.disk.keepPolicy, Process(s, t).run.ledger))
            <==> s.mem.lastKept == KeptAfter(origin, s.ledger) && AsksEnough(s.mem, s.ledger)
  {
    if s.mem.lastKept != KeptAfter(origin, s.ledger) {
      ForeignBase(origin, s);
    } else if !AsksEnough(s.mem, s.ledger) {
      LowBar(origin, s);
    } else {
      forall t ensures Chained(origin, s.disk.keepPolicy, Process(s, t).run.ledger) {
        ProcessChains(origin, earlier, s, t);
      }
    }
  }

  lemma ForeignBase(origin: Commit, s: RunState)
    requires SameRun(s) && s.mem.lastKept != KeptAfter(origin, s.ledger)
    ensures exists t :: !Chained(origin, s.disk.keepPolicy, Process(s, t).run.ledger)
  {
    var t := NoopTurn(s.mem.lastKept);
    hide Process;
    NoopIsLogged(s);
    var after := Process(s, t).run;
    assert !Follows(after.ledger[|s.ledger|], origin, s.disk.keepPolicy, s.ledger);
    assert !Chained(origin, s.disk.keepPolicy, Process(s, t).run.ledger);
  }

  /** A candidate at `head`, built on `base` and passing with `score`, with nothing going wrong. */
  function KeepTurn(base: Commit, head: Commit, score: real): Turn {
    Turn(Some(Artifact(Candidate, Some(head), base, "")), "", head, c => Some(c), c => c,
         true, Scored(true, Some(score)), head, true, true, true, true, true)
  }

  lemma KeepTurnKeeps(s: RunState, score: real)
    requires s.mem.keepPolicy == ScoreImprovement && s.mem.lastScore.Some? && s.mem.lastScore.value < score
    ensures var after := Process(s, KeepTurn(s.mem.lastKept, "c", score)).run;
            && |after.ledger| == |s.ledger| + 1 && after.ledger[..|s.ledger|] == s.ledger
            && after.ledger[|s.ledger|].decision == Keep
            && after.ledger[|s.ledger|].evaluation == Some(Scored(true, Some(score)))
  {
    var t := KeepTurn(s.mem.lastKept, "c", score);
    assert NamesHead(t.artifact.value, t);
    assert ValidateCandidate(s.mem.lastKept, t.artifact.value, t).Valid?;
    assert DecideOutcome(s.mem.keepPolicy, s.mem.lastScore, Candidate, Some(t.evaluation)).keep;
    hide DecideOutcome, ValidateCandidate;
  }

  lemma LowBar(origin: Commit, s: RunState)
    requires SameRun(s) && !AsksEnough(s.mem, s.ledger)
    ensures exists t :: !Chained(origin, s.disk.keepPolicy, Process(s, t).run.ledger)
  {
    var score := if ScoreAfter(s.ledger).Some? then ScoreAfter(s.ledger).value else s.mem.lastScore.value + 1.0;
    var t := KeepTurn(s.mem.lastKept, "c", score);
    KeepTurnKeeps(s, score);
    var after := Process(s, t).run;
    assert !Follows(after.ledger[|s.ledger|], origin, s.disk.keepPolicy, s.ledger);
    hide Process;
    assert !Chained(origin, s.disk.keepPolicy, Process(s, t).run.ledger);
  }

  predicate ReadyToChain(origin: Commit, policy: KeepPolicy, s: RunState) {
    && s.mem.keepPolicy == policy && s.mem.lastKept == KeptAfter(origin, s.ledger) && AsksEnough(s.mem, s.ledger)
    && Chained(origin, policy, s.ledger) && LastIteration(s.ledger) < s.mem.iteration
  }

  lemma ReadyAppend(origin: Commit, policy: KeepPolicy, s: RunState, e: Entry)
    requires ReadyToChain(origin, policy, s)
    requires e.iteration == s.mem.iteration && e.keepPolicy == policy && !e.isBaseline
    requires e.decision != Error ==> e.base == s.mem.lastKept
    requires e.kept == s.mem.lastKept || e.decision == Keep
    requires e.decision == Keep ==> PassOf(e.evaluation) == Some(true)
                                    && (policy == PassOnly || Improves(s.mem.lastScore, ScoreOf(e.evaluation)))
    ensures Chained(origin, policy, s.ledger + [e])
  {
    assert (s.ledger + [e])[..|s.ledger|] == s.ledger;
    assert Follows(e, origin, policy, s.ledger) by { hide Chained, ScoreAfter; }
  }

  lemma ProcessChains(origin: Commit, earlier: seq<Row>, s: RunState, t: Turn)
    requires Good(origin, earlier, s) && s.mem.lastKept == KeptAfter(origin, s.ledger) && AsksEnough(s.mem, s.ledger)
    ensures Chained(origin, s.disk.keepPolicy, Process(s, t).run.ledger)
  {
    hide Fail, NonEvaluated, Evaluated, DecideOutcome, ValidateCandidate, Chained, RowsMatch, ScoreAfter;
    var policy := s.disk.keepPolicy;
    var begun := s.(mem := s.mem.(iteration := s.mem.iteration + 1), head := t.head);
    if t.artifact.None? {
      FailChains(origin, policy, begun, t, t.parseError, None);
    } else {
      match ValidateCandidate(s.mem.lastKept, t.artifact.value, t)
      case GitFailed =>
        assert Process(s, t).run == begun;
      case Rejected(reason) => FailChains(origin, policy, begun, t, reason, t.artifact);
      case Valid(a) =>
        var accepted := begun.(mem := begun.mem.(latestCandidate := a.candidateCommit));
        ValidChains(origin, policy, accepted, t, a);
    }
  }

  lemma FailChains(origin: Commit, policy: KeepPolicy, s: RunState, t: Turn, reason: string, a: Option<Artifact>)
    requires ReadyToChain(origin, policy, s)
    ensures Chained(origin, policy, Fail(s, t, reason, a).run.ledger)
  {
    hide Chained, ScoreAfter;
    var after := Fail(s, t, reason, a).run;
    var e := after.ledger[|s.ledger|];
    assert after.ledger == s.ledger + [e];
    ReadyAppend(origin, policy, s, e);
  }

  lemma ValidChains(origin: Commit, policy: KeepPolicy, s: RunState, t: Turn, a: Artifact)
    requires ReadyToChain(origin, policy, s) && a.baseCommit == s.mem.lastKept
    ensures Chained(origin, policy, (if a.status != Candidate then NonEvaluated(s, t, a) else Evaluated(s, t, a)).run.ledger)
  {
    hide Chained, ScoreAfter;
    var after := (if a.status != Candidate then NonEvaluated(s, t, a) else Evaluated(s, t, a)).run;
    if after.ledger != s.ledger {
      var e := after.ledger[|s.ledger|];
      assert after.ledger == s.ledger + [e];
      ReadyAppend(origin, policy, s, e);
    }
  }

  /** The concrete run that breaks it: a keep whose row could not be written, then a turn without
      re-reading the manifest. */
  lemma LostKeepBreaksChain(s: RunState)
    requires s.ledger == [] && s.mem.lastKept == "a" && s.mem.keepPolicy == PassOnly
    ensures var t1 := Turn(Some(Artifact(Candidate, Some("b"), "a", "")), "", "b", c => Some(c), c => c,
                           true, Scored(true, None), "b", true, true, true, false, true);
            var s1 := Process(s, t1).run;
            Process(s, t1).outcome == Threw && !Chained("a", PassOnly, Process(s1, NoopTurn("b")).run.ledger)
  {
    var t1 := Turn(Some(Artifact(Candidate, Some("b"), "a", "")), "", "b", c => Some(c), c => c,
                   true, Scored(true, None), "b", true, true, true, false, true);
    var s1 := Process(s, t1).run;
    KeepIsLost(s, t1);
    hide Process;
    NoopFromElsewhere(s1, "b", "a");
  }

  /** A passing candidate kept in memory only. */
  lemma KeepIsLost(s: RunState, t: Turn)
    requires s.ledger == [] && s.mem.lastKept == "a" && s.mem.keepPolicy == PassOnly
    requires t.artifact == Some(Artifact(Candidate, Some("b"), "a", "")) && t.resolve("a") == Some("a") && t.resolve("b") == Some("b")
    requires t.head == "b" && t.evaluatedHead == "b" && t.headReadable && t.keptReadable && !t.shortReadable
    requires t.evaluation == Scored(true, None)
    ensures Process(s, t).outcome == Threw
    ensures Process(s, t).run.mem.lastKept == "b" && Process(s, t).run.ledger == [] && Process(s, t).run.mem.keepPolicy == PassOnly
  {
    var a := t.artifact.value;
    assert NamesHead(a, t);
    assert ValidateCandidate("a", a, t).Valid?;
    assert DecideOutcome(PassOnly, s.mem.lastScore, Candidate, Some(t.evaluation)).keep;
    hide ValidateCandidate, DecideOutcome;
  }

  lemma NoopFromElsewhere(s: RunState, base: Commit, origin: Commit)
    requires s.ledger == [] && s.mem.lastKept == base && base != origin
    ensures !Chained(origin, PassOnly, Process(s, NoopTurn(base)).run.ledger)
  {
    hide Process;
    NoopIsLogged(s);
    var after := Process(s, NoopTurn(base)).run.ledger;
    assert after[..0] == [] && |after| == 1;
    assert !Follows(after[0], origin, PassOnly, []);
  }

  /** A noop turn from the last kept commit appends one entry with that base. */
  lemma NoopIsLogged(s: RunState)
    ensures var after := Process(s, NoopTurn(s.mem.lastKept)).run.ledger;
            && |after| == |s.ledger| + 1 && after[..|s.ledger|] == s.ledger
            && !after[|s.ledger|].isBaseline && after[|s.ledger|].decision == NoopSeen
            && after[|s.ledger|].base == s.mem.lastKept
  {
    hide Fail, Evaluated, Finalize;
    var t := NoopTurn(s.mem.lastKept);
    assert t.resolve(s.mem.lastKept) == Some(s.mem.lastKept);
    assert ValidateCandidate(s.mem.lastKept, t.artifact.value, t).Valid?;
    hide ValidateCandidate;
  }

  // ----- what a chain means -----

  lemma {:induction false} ChainedPrefix(origin: Commit, policy: KeepPolicy, ledger: seq<Entry>, n: nat)
    requires Chained(origin, policy, ledger) && n <= |ledger|
    ensures Chained(origin, policy, ledger[..n])
    decreases |ledger|
  {
    if n < |ledger| {
      var m := |ledger| - 1;
      ChainedPrefix(origin, policy, ledger[..m], n);
      assert ledger[..m][..n] == ledger[..n];
    } else {
      assert ledger[..n] == ledger;
    }
  }

  lemma ChainedAt(origin: Commit, policy: KeepPolicy, ledger: seq<Entry>, i: nat)
    requires Chained(origin, policy, ledger) && i < |ledger|
    ensures Follows(ledger[i], origin, policy, ledger[..i])
  {
    ChainedPrefix(origin, policy, ledger, i + 1);
    assert ledger[..i + 1][..i] == ledger[..i];
  }

  /** Neighbours: a non-error entry starts from what the entry before it kept. */
  lemma NeighboursLink(origin: Commit, policy: KeepPolicy, ledger: seq<Entry>, i: nat)
    requires Chained(origin, policy, ledger) && 0 < i < |ledger|
    ensures !ledger[i].isBaseline && ledger[i - 1].iteration < ledger[i].iteration
    ensures ledger[i].decision != Error ==> ledger[i].base == ledger[i - 1].kept
    ensures ledger[i].kept != ledger[i - 1].kept ==> ledger[i].decision == Keep
  {
    ChainedAt(origin, policy, ledger, i);
  }

  lemma {:induction false} IterationsIncrease(origin: Commit, policy: KeepPolicy, ledger: seq<Entry>, i: nat, j: nat)
    requires Chained(origin, policy, ledger) && i < j < |ledger|
    ensures ledger[i].iteration < ledger[j].iteration
    decreases j
  {
    NeighboursLink(origin, policy, ledger, j);
    if i < j - 1 {
      IterationsIncrease(origin, policy, ledger, i, j - 1);
    }
  }

  /** Between keeps the kept commit does not move. */
  lemma {:induction false} KeptIsStable(origin: Commit, policy: KeepPolicy, ledger: seq<Entry>, i: nat, j: nat)
    requires Chained(origin, policy, ledger) && i <= j < |ledger|
    requires forall k :: i < k <= j ==> ledger[k].decision != Keep
    ensures ledger[j].kept == ledger[i].kept
    decreases j
  {
    if i < j {
      NeighboursLink(origin, policy, ledger, j);
      KeptIsStable(origin, policy, ledger, i, j - 1);
    }
  }

  /** The score to beat never drops while score_improvement is in force. */
  lemma {:induction false} ScoreNeverDrops(origin: Commit, ledger: seq<Entry>, i: nat, j: nat)
    requires Chained(origin, ScoreImprovement, ledger) && 0 < i <= j <= |ledger|
    ensures ScoreAfter(ledger[..i]).None? ==> ScoreAfter(ledger[..j]).None?
    ensures ScoreAfter(ledger[..i]).Some? ==> ScoreAfter(ledger[..j]).Some?
                                              && ScoreAfter(ledger[..i]).value <= ScoreAfter(ledger[..j]).value
    decreases j
  {
    if i < j {
      ScoreNeverDrops(origin, ledger, i, j - 1);
      ChainedAt(origin, ScoreImprovement, ledger, j - 1);
      assert ledger[..j][..j - 1] == ledger[..j - 1];
    }
  }

  /** Each keep is strictly better than every keep before it. */
  lemma KeptScoresIncrease(origin: Commit, ledger: seq<Entry>, i: nat, j: nat)
    requires Chained(origin, ScoreImprovement, ledger) && i < j < |ledger|
    requires ledger[i].decision == Keep && ledger[j].decision == Keep
    ensures ScoreOf(ledger[i].evaluation).Some? && ScoreOf(ledger[j].evaluation).Some?
    ensures ScoreOf(ledger[i].evaluation).value < ScoreOf(ledger[j].evaluation).value
  {
    ChainedAt(origin, ScoreImprovement, ledger, i);
    ChainedAt(origin, ScoreImprovement, ledger, j);
    assert ledger[..i + 1][..i] == ledger[..i];
    assert ScoreAfter(ledger[..i + 1]) == ScoreOf(ledger[i].evaluation);
    ScoreNeverDrops(origin, ledger, i + 1, j);
  }

  /** A baseline that fails, errors or has no score means that nothing is ever kept. */
  lemma NullBaselineKeepsNothing(origin: Commit, ledger: seq<Entry>, j: nat)
    requires Chained(origin, ScoreImprovement, ledger) && j < |ledger|
    requires ScoreAfter(ledger[..1]).None?
    ensures ledger[j].decision != Keep && ledger[j].kept == KeptAfter(origin, ledger[..1])
  {
    forall k: nat | k < |ledger| ensures ledger[k].decision != Keep {
      ChainedAt(origin, ScoreImprovement, ledger, k);
      if k > 0 {
        ScoreNeverDrops(origin, ledger, 1, k);
      }
    }
    KeptIsStable(origin, ScoreImprovement, ledger, 0, j);
  }

  lemma {:induction false} RowsMatchAt(earlier: seq<Row>, results: seq<Row>, ledger: seq<Entry>, i: nat)
    requires RowsMatch(earlier, results, ledger)
    ensures |results| == |earlier| + |ledger|
    ensures results[..|earlier|] == earlier
    ensures i < |ledger| ==> RowFor(results[|earlier| + i], ledger[i])
    decreases |ledger|
  {
    if ledger != [] {
      var r, n := |results| - 1, |ledger| - 1;
      RowsMatchAt(earlier, results[..r], ledger[..n], i);
      assert results[..r][..|earlier|] == results[..|earlier|];
    }
  }

  // ----- the baseline -----

  /** Seeding starts the chain: one entry, kept commit and score as the manifest has them. */
  lemma SeedStarts(earlier: seq<Row>, s: RunState, t: Turn)
    requires s.ledger == [] && s.results == earlier && s.mem == s.disk
    requires s.mem.iteration == 0 && s.mem.lastScore == None
    ensures var after := Seed(s, t).run;
            Good(s.mem.lastKept, earlier, after) && Synced(after) && after.mem == after.disk
    ensures Seed(s, t).outcome.Returned? <==> |Seed(s, t).run.ledger| == 1
  {
    var after := Seed(s, t).run;
    var origin := s.mem.lastKept;
    assert Chained(origin, s.disk.keepPolicy, []) && RowsMatch(earlier, earlier, []);
    if t.shortReadable {
      var e := after.ledger[0];
      assert after.ledger == [] + [e] && after.ledger[..0] == [];
      assert Follows(e, origin, s.disk.keepPolicy, []);
      assert after.results[..|after.results| - 1] == earlier;
      SeedScore(after.ledger, e);
    }
  }

  lemma SeedScore(ledger: seq<Entry>, e: Entry)
    requires ledger == [e] && e.isBaseline
    ensures ScoreAfter(ledger) == if PassOf(e.evaluation) == Some(true) then ScoreOf(e.evaluation) else None
  {
  }
}
