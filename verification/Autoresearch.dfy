/** The keep/discard supervisor of src/autoresearch/runtime.ts: what one candidate does to the
    manifest, the ledger, the results table and HEAD. Git, the evaluator and the candidate file are
    inputs of each turn. */
module AutoresearchTypes {
  datatype Option<T> = None | Some(value: T)

  type Commit = string
  type RunId = string

  datatype CandidateStatus = Candidate | Noop | Abort | Interrupted
  datatype Decision = Baseline | Keep | Discard | Ambiguous | NoopSeen | AbortSeen | InterruptSeen | Error
  datatype RunStatus = Running | Stopped | Completed | Failed
  datatype KeepPolicy = ScoreImprovement | PassOnly

  /** An evaluator error carries neither a pass flag nor a score. */
  datatype Evaluation = Errored | Scored(pass: bool, score: Option<real>)

  datatype Artifact = Artifact(
    status: CandidateStatus, candidateCommit: Option<Commit>, baseCommit: Commit, description: string)

  datatype Manifest = Manifest(
    runId: RunId, baselineCommit: Commit, lastKept: Commit, lastScore: Option<real>,
    latestCandidate: Option<Commit>, keepPolicy: KeepPolicy, status: RunStatus,
    stopReason: Option<string>, iteration: int)

  datatype Entry = Entry(
    iteration: int, isBaseline: bool, decision: Decision, reason: string,
    base: Commit, candidateCommit: Option<Commit>, kept: Commit, keepPolicy: KeepPolicy,
    evaluation: Option<Evaluation>, description: string)

  datatype Row = Row(
    iteration: int, commit: string, pass: Option<bool>, score: Option<real>,
    status: Decision, description: string)

  /** What the outside world does during one turn. */
  datatype Turn = Turn(
    artifact: Option<Artifact>, parseError: string, // the candidate file, or why it is unreadable
    head: Commit,                                   // HEAD as the candidate session left it
    resolve: Commit -> Option<Commit>,              // git rev-parse --verify
    short: Commit -> string,                        // git rev-parse --short=7
    headReadable: bool,                             // HEAD can be read when the candidate is validated
    evaluation: Evaluation,
    evaluatedHead: Commit,                          // HEAD as the evaluator left it
    keptReadable: bool,                             // HEAD can be read when the candidate is kept
    clean: bool,                                    // the worktree is safe to reset
    resetWorks: bool,
    shortReadable: bool,                            // HEAD can be read when the row is written
    modeWritable: bool)                             // the mode state file can be updated

  /** A thrown error leaves the caller without a decision. */
  datatype Outcome = Returned(decision: Decision) | Threw

  datatype Judgement = Judgement(decision: Decision, reason: string, keep: bool)

  function PassOf(e: Option<Evaluation>): Option<bool> {
    if e.Some? && e.value.Scored? then Some(e.value.pass) else None
  }

  function ScoreOf(e: Option<Evaluation>): Option<real> {
    if e.Some? && e.value.Scored? then e.value.score else None
  }

  /** Strictly better than what was kept, both scores being known. */
  predicate Improves(previous: Option<real>, next: Option<real>) {
    previous.Some? && next.Some? && next.value > previous.value
  }

  /** decideAutoresearchOutcome. */
  function DecideOutcome(policy: KeepPolicy, lastScore: Option<real>, status: CandidateStatus, evaluation: Option<Evaluation>): (d: Judgement)
    ensures d.keep <==> status == Candidate && PassOf(evaluation) == Some(true)
                        && (policy == PassOnly || Improves(lastScore, ScoreOf(evaluation)))
    ensures d.keep <==> d.decision == Keep
    ensures d.decision == Ambiguous <==> status == Candidate && PassOf(evaluation) == Some(true)
                                         && policy.ScoreImprovement? && (lastScore.None? || ScoreOf(evaluation).None?)
    ensures status == Candidate ==> d.decision in {Keep, Ambiguous, Discard}
    ensures status != Candidate ==> d.decision == match status case Noop => NoopSeen case Abort => AbortSeen case _ => InterruptSeen
  {
    if status == Abort then Judgement(AbortSeen, "candidate requested abort", false)
    else if status == Noop then Judgement(NoopSeen, "candidate reported noop", false)
    else if status == Interrupted then Judgement(InterruptSeen, "candidate session was interrupted", false)
    else if evaluation.None? || evaluation.value.Errored? then Judgement(Discard, "evaluator error", false)
    else if !evaluation.value.pass then Judgement(Discard, "evaluator reported failure", false)
    else if policy.PassOnly? then
      Judgement(Keep, "pass_only keep policy accepted evaluator pass=true", true)
    else if lastScore.None? || evaluation.value.score.None? then
      Judgement(Ambiguous, "evaluator pass without comparable score", false)
    else if evaluation.value.score.value > lastScore.value then
      Judgement(Keep, "score improved over last kept score", true)
    else Judgement(Discard, "score did not improve", false)
  }

  datatype Validation = Valid(artifact: Artifact) | Rejected(reason: string) | GitFailed

  /** The candidate commit an accepted candidate must name: a non-empty ref that resolves to HEAD. */
  predicate NamesHead(a: Artifact, t: Turn) {
    && a.candidateCommit.Some? && a.candidateCommit.value != ""
    && t.resolve(a.candidateCommit.value).Some? && t.resolve(a.candidateCommit.value).value == t.head
  }

  /** validateAutoresearchCandidate. */
  function ValidateCandidate(lastKept: Commit, a: Artifact, t: Turn): (v: Validation)
    ensures v.Valid? <==> t.resolve(a.baseCommit).Some? && t.resolve(a.baseCommit).value == lastKept
                          && (a.status != Candidate || (t.headReadable && NamesHead(a, t)))
    ensures v.Valid? ==> v.artifact.baseCommit == lastKept && v.artifact.status == a.status
                         && v.artifact.description == a.description
    ensures v.Valid? && a.status == Candidate ==> v.artifact.candidateCommit.Some? && v.artifact.candidateCommit.value == t.head
    ensures v.Valid? && a.status != Candidate ==> v.artifact.candidateCommit == a.candidateCommit
    ensures v.GitFailed? ==> a.status == Candidate && !t.headReadable
  {
    var base := t.resolve(a.baseCommit);
    if base.None? then Rejected("candidate base_commit does not resolve in git: " + a.baseCommit)
    else if base.value != lastKept then
      Rejected("candidate base_commit " + base.value + " does not match last kept commit " + lastKept)
    else if a.status != Candidate then Valid(a.(baseCommit := base.value))
    else if a.candidateCommit.None? || a.candidateCommit.value == "" then
      Rejected("candidate status requires a non-null candidate_commit")
    else
      var commit := t.resolve(a.candidateCommit.value);
      if commit.None? then Rejected("candidate_commit does not resolve in git: " + a.candidateCommit.value)
      else if !t.headReadable then GitFailed
      else if commit.value != t.head then
        Rejected("candidate_commit " + commit.value + " does not match worktree HEAD " + t.head)
      else Valid(a.(baseCommit := base.value, candidateCommit := commit))
  }
}

/** One turn as a function of the state before it. */
module AutoresearchTurn {
  import opened AutoresearchTypes

  /** The supervisor's manifest in memory, and everything a run keeps on disk. */
  datatype RunState = RunState(
    mem: Manifest, disk: Manifest, ledger: seq<Entry>, results: seq<Row>, head: Commit)

  /** `released`: the project's lock was given up on the way. */
  datatype After = After(run: RunState, outcome: Outcome, released: bool)

  function Finalize(s: RunState, t: Turn, status: RunStatus, reason: string, decision: Decision): After {
    var m := s.mem.(status := status, stopReason := Some(reason));
    After(s.(mem := m, disk := m), if t.modeWritable then Returned(decision) else Threw, t.modeWritable)
  }

  function Logged(s: RunState, e: Entry, commit: string): RunState {
    s.(ledger := s.ledger + [e],
       results := s.results + [Row(e.iteration, commit, PassOf(e.evaluation), ScoreOf(e.evaluation), e.decision, e.description)])
  }

  /** failAutoresearchIteration. */
  function Fail(s: RunState, t: Turn, reason: string, a: Option<Artifact>): After {
    var description := if a.Some? && a.value.description != "" then a.value.description else "candidate validation failed";
    var e := Entry(s.mem.iteration, false, Error, reason,
                   if a.Some? then a.value.baseCommit else s.mem.lastKept,
                   if a.Some? then a.value.candidateCommit else None,
                   s.mem.lastKept, s.mem.keepPolicy, None, description);
    Finalize(Logged(s, e, if t.shortReadable then t.short(s.head) else s.mem.baselineCommit), t, Failed, reason, Error)
  }

  function IterationEntry(m: Manifest, a: Artifact, decision: Decision, reason: string, evaluation: Option<Evaluation>): Entry {
    Entry(m.iteration, false, decision, reason, a.baseCommit, a.candidateCommit, m.lastKept, m.keepPolicy,
          evaluation, a.description)
  }

  /** recordNonEvaluatedCandidateStatus. */
  function NonEvaluated(s: RunState, t: Turn, a: Artifact): After
    requires a.status != Candidate
  {
    if a.status == Interrupted && !t.clean then
      Finalize(s, t, Failed, "interrupted dirty worktree requires operator intervention", Error)
    else if !t.shortReadable then After(s, Threw, false)
    else
      var commit := t.short(s.head);
      match a.status
      case Abort =>
        var logged := Logged(s, IterationEntry(s.mem, a, AbortSeen, "candidate requested abort", None), commit);
        Finalize(logged, t, Stopped, "candidate abort", AbortSeen)
      case Interrupted =>
        var logged := Logged(s, IterationEntry(s.mem, a, InterruptSeen, "candidate session interrupted cleanly", None), commit);
        After(logged.(disk := s.mem), Returned(InterruptSeen), false)
      case _ =>
        var logged := Logged(s, IterationEntry(s.mem, a, NoopSeen, "candidate reported noop", None), commit);
        After(logged.(disk := s.mem), Returned(NoopSeen), false)
  }

  /** The evaluated half of processAutoresearchCandidate. */
  function Evaluated(s: RunState, t: Turn, a: Artifact): After
    requires a.status == Candidate
  {
    var d := DecideOutcome(s.mem.keepPolicy, s.mem.lastScore, a.status, Some(t.evaluation));
    var moved := s.(head := t.evaluatedHead);
    if d.keep && !t.keptReadable then After(moved, Threw, false)
    else if !d.keep && !(t.clean && t.resetWorks) then After(moved, Threw, false)
    else
      var decided :=
        if d.keep then
          moved.(mem := s.mem.(lastKept := t.evaluatedHead,
                               lastScore := if ScoreOf(Some(t.evaluation)).Some? then ScoreOf(Some(t.evaluation)) else s.mem.lastScore))
        else moved.(head := s.mem.lastKept);
      if !t.shortReadable then After(decided, Threw, false)
      else
        var logged := Logged(decided, IterationEntry(decided.mem, a, d.decision, d.reason, Some(t.evaluation)), t.short(decided.head));
        After(logged.(disk := decided.mem), if t.modeWritable then Returned(d.decision) else Threw, false)
  }

  /** processAutoresearchCandidate. */
  function Process(s: RunState, t: Turn): After {
    var begun := s.(mem := s.mem.(iteration := s.mem.iteration + 1), head := t.head);
    if t.artifact.None? then Fail(begun, t, t.parseError, None)
    else
      match ValidateCandidate(s.mem.lastKept, t.artifact.value, t)
      case GitFailed => After(begun, Threw, false)
      case Rejected(reason) => Fail(begun, t, reason, t.artifact)
      case Valid(a) =>
        var accepted := begun.(mem := begun.mem.(latestCandidate := a.candidateCommit));
        if a.status != Candidate then NonEvaluated(accepted, t, a) else Evaluated(accepted, t, a)
  }

  /** seedBaseline, from a manifest just prepared. HEAD may be unreadable once the evaluator ran. */
  function Seed(s: RunState, t: Turn): After {
    var moved := s.(head := t.evaluatedHead);
    if !t.shortReadable then After(moved, Threw, false)
    else
      var decision := if t.evaluation.Errored? then Error else Baseline;
      var e := Entry(0, true, decision,
                     if t.evaluation.Errored? then "baseline evaluator error" else "baseline established",
                     s.mem.baselineCommit, None, s.mem.lastKept, s.mem.keepPolicy, Some(t.evaluation),
                     "initial baseline evaluation");
      var m := s.mem.(lastScore := if PassOf(Some(t.evaluation)) == Some(true) then ScoreOf(Some(t.evaluation)) else None);
      After(Logged(moved, e, t.short(t.evaluatedHead)).(mem := m, disk := m), Returned(decision), false)
  }

  /** The project's active-run file. */
  datatype Lock = Lock(active: bool, runId: Option<RunId>)

  function Deactivated(lock: Lock, runId: RunId): Lock {
    Lock(false, if lock.runId.Some? then lock.runId else Some(runId))
  }

  function LockAfter(lock: Lock, runId: RunId, a: After): Lock {
    if a.released then Deactivated(lock, runId) else lock
  }
}

/** The same operations as updates of a manifest object and of files. */
module AutoresearchSupervisor {
  import opened AutoresearchTypes
  import opened AutoresearchTurn

  class Supervisor {
    var manifest: Manifest
    var disk: Manifest
    var ledger: seq<Entry>
    var results: seq<Row>
    var head: Commit
    var lock: Lock

    ghost function State(): RunState
      reads this
    {
      RunState(manifest, disk, ledger, results, head)
    }

    /** prepareAutoresearchRuntime as far as the run's own files: a running manifest, an empty
        ledger, whatever rows the worktree's results table already had. */
    constructor (prepared: Manifest, earlier: seq<Row>, projectLock: Lock)
      ensures manifest == disk == prepared.(status := Running, stopReason := None, iteration := 0, lastScore := None, latestCandidate := None)
      ensures ledger == [] && results == earlier && head == prepared.lastKept && lock == projectLock
    {
      manifest := prepared.(status := Running, stopReason := None, iteration := 0, lastScore := None, latestCandidate := None);
      disk := prepared.(status := Running, stopReason := None, iteration := 0, lastScore := None, latestCandidate := None);
      ledger := [];
      results := earlier;
      head := prepared.lastKept;
      lock := projectLock;
    }

    method WriteRunManifest()
      modifies this`disk
      ensures disk == manifest
    {
      disk := manifest;
    }

    method AppendResultsRow(row: Row)
      modifies this`results
      ensures results == old(results) + [row]
    {
      results := results + [row];
    }

    method AppendLedgerEntry(entry: Entry)
      modifies this`ledger
      ensures ledger == old(ledger) + [entry]
    {
      ledger := ledger + [entry];
    }

    /** recordAutoresearchIteration: throws before it writes anything, or writes row and entry. */
    method RecordIteration(t: Turn, a: Artifact, decision: Decision, reason: string, evaluation: Option<Evaluation>) returns (threw: bool)
      modifies this`results, this`ledger
      ensures threw <==> !t.shortReadable
      ensures threw ==> State() == old(State())
      ensures !threw ==> State() == Logged(old(State()), IterationEntry(manifest, a, decision, reason, evaluation), t.short(head))
    {
      if !t.shortReadable { return true; }
      AppendResultsRow(Row(manifest.iteration, t.short(head), PassOf(evaluation), ScoreOf(evaluation), decision, a.description));
      AppendLedgerEntry(IterationEntry(manifest, a, decision, reason, evaluation));
      threw := false;
    }

    /** finalizeRun: the manifest is written before the mode state, and the lock is given up last. */
    method FinalizeRun(t: Turn, status: RunStatus, reason: string, decision: Decision) returns (outcome: Outcome)
      modifies this`manifest, this`disk, this`lock
      ensures var after := Finalize(old(State()), t, status, reason, decision);
              State() == after.run && outcome == after.outcome && lock == LockAfter(old(lock), manifest.runId, after)
      ensures manifest.runId == old(manifest.runId)
    {
      manifest := manifest.(status := status, stopReason := Some(reason));
      WriteRunManifest();
      if !t.modeWritable { return Threw; }
      lock := Deactivated(lock, manifest.runId);
      outcome := Returned(decision);
    }

    method FailIteration(t: Turn, reason: string, a: Option<Artifact>) returns (outcome: Outcome)
      modifies this
      ensures var after := Fail(old(State()), t, reason, a);
              State() == after.run && outcome == after.outcome && lock == LockAfter(old(lock), manifest.runId, after)
    {
      var commit := if t.shortReadable then t.short(head) else manifest.baselineCommit;
      var description := if a.Some? && a.value.description != "" then a.value.description else "candidate validation failed";
      AppendResultsRow(Row(manifest.iteration, commit, None, None, Error, description));
      AppendLedgerEntry(Entry(manifest.iteration, false, Error, reason,
                              if a.Some? then a.value.baseCommit else manifest.lastKept,
                              if a.Some? then a.value.candidateCommit else None,
                              manifest.lastKept, manifest.keepPolicy, None, description));
      outcome := FinalizeRun(t, Failed, reason, Error);
    }

    method RecordNonEvaluated(t: Turn, a: Artifact) returns (outcome: Outcome)
      requires a.status != Candidate
      modifies this
      ensures var after := NonEvaluated(old(State()), t, a);
              State() == after.run && outcome == after.outcome && lock == LockAfter(old(lock), manifest.runId, after)
    {
      if a.status == Abort {
        var threw := RecordIteration(t, a, AbortSeen, "candidate requested abort", None);
        if threw { return Threw; }
        outcome := FinalizeRun(t, Stopped, "candidate abort", AbortSeen);
        return;
      }
      if a.status == Interrupted {
        if !t.clean {
          outcome := FinalizeRun(t, Failed, "interrupted dirty worktree requires operator intervention", Error);
          return;
        }
        var threw := RecordIteration(t, a, InterruptSeen, "candidate session interrupted cleanly", None);
        if threw { return Threw; }
        WriteRunManifest();
        return Returned(InterruptSeen);
      }
      var threw := RecordIteration(t, a, NoopSeen, "candidate reported noop", None);
      if threw { return Threw; }
      WriteRunManifest();
      outcome := Returned(NoopSeen);
    }

    /** resetToLastKeptCommit. */
    method ResetToLastKept(t: Turn) returns (threw: bool)
      modifies this`head
      ensures threw <==> !(t.clean && t.resetWorks)
      ensures head == if threw then old(head) else manifest.lastKept
    {
      if !t.clean || !t.resetWorks { return true; }
      head := manifest.lastKept;
      threw := false;
    }

    method EvaluateCandidate(t: Turn, a: Artifact) returns (outcome: Outcome)
      requires a.status == Candidate
      modifies this
      ensures var after := Evaluated(old(State()), t, a);
              State() == after.run && outcome == after.outcome && lock == LockAfter(old(lock), manifest.runId, after)
    {
      head := t.evaluatedHead;
      var decision := DecideOutcome(manifest.keepPolicy, manifest.lastScore, a.status, Some(t.evaluation));
      if decision.keep {
        if !t.keptReadable { return Threw; }
        manifest := manifest.(lastKept := head);
        if t.evaluation.Scored? && t.evaluation.score.Some? {
          manifest := manifest.(lastScore := t.evaluation.score);
        }
      } else {
        var unsafe := ResetToLastKept(t);
        if unsafe { return Threw; }
      }
      var threw := RecordIteration(t, a, decision.decision, decision.reason, Some(t.evaluation));
      if threw { return Threw; }
      WriteRunManifest();
      outcome := if t.modeWritable then Returned(decision.decision) else Threw;
    }

    method ProcessCandidate(t: Turn) returns (outcome: Outcome)
      modifies this
      ensures var after := Process(old(State()), t);
              State() == after.run && outcome == after.outcome && lock == LockAfter(old(lock), manifest.runId, after)
    {
      hide Fail, NonEvaluated, Evaluated;
      manifest := manifest.(iteration := manifest.iteration + 1);
      head := t.head;
      if t.artifact.None? {
        outcome := FailIteration(t, t.parseError, None);
        return;
      }
      var validation := ValidateCandidate(manifest.lastKept, t.artifact.value, t);
      match validation {
        case GitFailed => return Threw;
        case Rejected(reason) =>
          outcome := FailIteration(t, reason, t.artifact);
        case Valid(a) =>
          manifest := manifest.(latestCandidate := a.candidateCommit);
          if a.status != Candidate {
            outcome := RecordNonEvaluated(t, a);
          } else {
            outcome := EvaluateCandidate(t, a);
          }
      }
    }

    method SeedBaseline(t: Turn) returns (outcome: Outcome)
      modifies this
      ensures var after := Seed(old(State()), t);
              State() == after.run && outcome == after.outcome && lock == old(lock)
    {
      head := t.evaluatedHead;
      if !t.shortReadable { return Threw; }
      var errored := t.evaluation.Errored?;
      var decision := if errored then Error else Baseline;
      AppendResultsRow(Row(0, t.short(head), PassOf(Some(t.evaluation)), ScoreOf(Some(t.evaluation)), decision, "initial baseline evaluation"));
      AppendLedgerEntry(Entry(0, true, decision, if errored then "baseline evaluator error" else "baseline established",
                              manifest.baselineCommit, None, manifest.lastKept, manifest.keepPolicy,
                              Some(t.evaluation), "initial baseline evaluation"));
      manifest := manifest.(lastScore := if PassOf(Some(t.evaluation)) == Some(true) then ScoreOf(Some(t.evaluation)) else None);
      WriteRunManifest();
      outcome := Returned(decision);
    }

    /** countTrailingAutoresearchNoops: the longest tail of noop iterations. */
    method CountTrailingNoops() returns (count: nat)
      ensures count <= |ledger|
      ensures forall i :: |ledger| - count <= i < |ledger| ==> IsNoop(ledger[i])
      ensures count < |ledger| ==> !IsNoop(ledger[|ledger| - 1 - count])
    {
      count := 0;
      while count < |ledger|
        invariant count <= |ledger|
        invariant forall i :: |ledger| - count <= i < |ledger| ==> IsNoop(ledger[i])
      {
        var entry := ledger[|ledger| - 1 - count];
        if entry.isBaseline || entry.decision != NoopSeen { break; }
        count := count + 1;
      }
    }
  }

  predicate IsNoop(e: Entry) { !e.isBaseline && e.decision == NoopSeen }
}
