/** All runs of one project and the lock they share: prepare, resume, turns, and stops by another
    process, in any order. */
module AutoresearchProject {
  import opened AutoresearchTypes
  import opened AutoresearchTurn
  import opened AutoresearchLaws

  /** `origin` and `earlier`: the kept commit and the results rows the run was prepared with. */
  datatype Run = Run(origin: Commit, earlier: seq<Row>, state: RunState)

  datatype Project = Project(runs: map<RunId, Run>, lock: Lock)

  /** `blocked` stands for the checks that throw before anything is written; `modeBusy` for a mode
      state that refuses the start after the manifest was written. */
  datatype Action =
    | Prepare(id: RunId, head: Commit, baseline: Commit, policy: KeepPolicy, rows: seq<Row>,
              blocked: bool, modeBusy: bool, seed: Turn)
    | Resume(id: RunId, blocked: bool)
    | TakeTurn(id: RunId, turn: Turn)
    | Reload(id: RunId)
    | FinalizeState(id: RunId, status: RunStatus, reason: string, modeWritable: bool)

  predicate LockHeld(lock: Lock) {
    lock.active && lock.runId.Some? && lock.runId.value != ""
  }

  function FreshRun(id: RunId, head: Commit, baseline: Commit, policy: KeepPolicy, rows: seq<Row>): Run {
    var m := Manifest(id, baseline, head, None, None, policy, Running, None, 0);
    Run(head, rows, RunState(m, m, [], rows, head))
  }

  function SetState(p: Project, id: RunId, s: RunState): Project
    requires id in p.runs
  {
    p.(runs := p.runs[id := p.runs[id].(state := s)])
  }

  function Step(p: Project, a: Action): Project {
    match a
    case Prepare(id, head, baseline, policy, rows, blocked, modeBusy, seed) =>
      if LockHeld(p.lock) || blocked then p
      else
        var run := FreshRun(id, head, baseline, policy, rows);
        if modeBusy then p.(runs := p.runs[id := run])
        else Project(p.runs[id := run.(state := Seed(run.state, seed).run)], Lock(true, Some(id)))
    case Resume(id, blocked) =>
      if LockHeld(p.lock) || id !in p.runs || p.runs[id].state.disk.status != Running || blocked then p
      else
        var s := p.runs[id].state;
        SetState(p, id, s.(mem := s.disk)).(lock := Lock(true, Some(id)))
    case TakeTurn(id, turn) =>
      if id !in p.runs then p
      else
        var after := Process(p.runs[id].state, turn);
        SetState(p, id, after.run).(lock := LockAfter(p.lock, id, after))
    case Reload(id) =>
      if id !in p.runs then p
      else
        var s := p.runs[id].state;
        SetState(p, id, s.(mem := s.disk))
    case FinalizeState(id, status, reason, modeWritable) =>
      if id !in p.runs || p.runs[id].state.disk.status != Running then p
      else
        var s := p.runs[id].state;
        var stopped := SetState(p, id, s.(disk := s.disk.(status := status, stopReason := Some(reason))));
        if modeWritable then stopped.(lock := Deactivated(p.lock, id)) else stopped
  }

  function Steps(p: Project, actions: seq<Action>): Project {
    if actions == [] then p else Step(Steps(p, actions[..|actions| - 1]), actions[|actions| - 1])
  }

  // ----- files -----

  ghost predicate FilesInv(p: Project) {
    forall id :: id in p.runs ==> Good(p.runs[id].origin, p.runs[id].earlier, p.runs[id].state)
  }

  /** A turn starts from a manifest that agrees with the disk on what was kept. */
  predicate Careful(p: Project, a: Action) {
    a.TakeTurn? && a.id in p.runs ==> Synced(p.runs[a.id].state)
  }

  predicate CarefulRun(p: Project, actions: seq<Action>) {
    actions == []
    || (var n := |actions| - 1; CarefulRun(p, actions[..n]) && Careful(Steps(p, actions[..n]), actions[n]))
  }

  lemma MemFollowsDisk(origin: Commit, earlier: seq<Row>, s: RunState)
    requires Good(origin, earlier, s)
    ensures Good(origin, earlier, s.(mem := s.disk)) && Synced(s.(mem := s.disk))
  {
    hide Chained, RowsMatch, ScoreAfter;
  }

  lemma StatusIsFree(origin: Commit, earlier: seq<Row>, s: RunState, status: RunStatus, reason: string)
    requires Good(origin, earlier, s)
    ensures var u := s.(disk := s.disk.(status := status, stopReason := Some(reason)));
            Good(origin, earlier, u) && (Synced(u) <==> Synced(s))
  {
    hide Chained, RowsMatch, ScoreAfter;
  }

  lemma FreshIsGood(id: RunId, head: Commit, baseline: Commit, policy: KeepPolicy, rows: seq<Row>, seed: Turn)
    ensures var run := FreshRun(id, head, baseline, policy, rows);
            && Good(head, rows, run.state) && Synced(run.state)
            && Good(head, rows, Seed(run.state, seed).run) && Synced(Seed(run.state, seed).run)
  {
    SeedStarts(rows, FreshRun(id, head, baseline, policy, rows).state, seed);
    assert Chained(head, policy, []) && RowsMatch(rows, rows, []);
  }

  lemma StepKeepsFiles(p: Project, a: Action)
    requires FilesInv(p) && Careful(p, a)
    ensures FilesInv(Step(p, a))
  {
    hide Good, Process, Seed, Synced, FreshRun;
    match a
    case Prepare(id, head, baseline, policy, rows, blocked, modeBusy, seed) =>
      FreshIsGood(id, head, baseline, policy, rows, seed);
      FreshParts(id, head, baseline, policy, rows);
    case Resume(id, blocked) =>
      if id in p.runs { MemFollowsDisk(p.runs[id].origin, p.runs[id].earlier, p.runs[id].state); }
    case TakeTurn(id, turn) =>
      if id in p.runs { ProcessKeepsFiles(p.runs[id].origin, p.runs[id].earlier, p.runs[id].state, turn); }
    case Reload(id) =>
      if id in p.runs { MemFollowsDisk(p.runs[id].origin, p.runs[id].earlier, p.runs[id].state); }
    case FinalizeState(id, status, reason, modeWritable) =>
      if id in p.runs { StatusIsFree(p.runs[id].origin, p.runs[id].earlier, p.runs[id].state, status, reason); }
  }

  lemma FreshParts(id: RunId, head: Commit, baseline: Commit, policy: KeepPolicy, rows: seq<Row>)
    ensures FreshRun(id, head, baseline, policy, rows).origin == head && FreshRun(id, head, baseline, policy, rows).earlier == rows
  {
  }

  /** In every history whose turns start from an up-to-date manifest, every run's ledger is a chain
      its results table and manifest agree with. */
  lemma {:induction false} HistoryKeepsFiles(p: Project, actions: seq<Action>)
    requires FilesInv(p) && CarefulRun(p, actions)
    ensures FilesInv(Steps(p, actions))
    decreases |actions|
  {
    if actions != [] {
      var n := |actions| - 1;
      HistoryKeepsFiles(p, actions[..n]);
      StepKeepsFiles(Steps(p, actions[..n]), actions[n]);
    }
  }

  // ----- the lock -----

  ghost predicate LockInv(p: Project) {
    p.lock.active ==> p.lock.runId.Some? && p.lock.runId.value in p.runs
                      && p.runs[p.lock.runId.value].state.disk.status == Running
  }

  /** A manifest finalised in memory was finalised on disk. */
  ghost predicate MemInv(p: Project) {
    forall id :: id in p.runs && p.runs[id].state.mem.status != Running ==> p.runs[id].state.disk.status != Running
  }

  /** A turn ends the run: an unusable candidate, an abort, or an interruption in a dirty worktree. */
  predicate Ends(s: RunState, t: Turn) {
    || t.artifact.None?
    || (var v := ValidateCandidate(s.mem.lastKept, t.artifact.value, t);
        || v.Rejected?
        || (v.Valid? && t.artifact.value.status == Abort && t.shortReadable)
        || (v.Valid? && t.artifact.value.status == Interrupted && !t.clean))
  }

  /** A turn that ends nothing but writes the manifest as it is in memory. */
  predicate Writes(s: RunState, t: Turn) {
    && t.artifact.Some? && ValidateCandidate(s.mem.lastKept, t.artifact.value, t).Valid? && t.shortReadable
    && match t.artifact.value.status
       case Noop => true
       case Interrupted => t.clean
       case Abort => false
       case Candidate =>
         if DecideOutcome(s.mem.keepPolicy, s.mem.lastScore, Candidate, Some(t.evaluation)).keep then t.keptReadable
         else t.clean && t.resetWorks
  }

  lemma NonEvaluatedStatus(s: RunState, t: Turn, a: Artifact)
    requires a.status != Candidate
    ensures var after := NonEvaluated(s, t, a);
            var ends := (a.status == Abort && t.shortReadable) || (a.status == Interrupted && !t.clean);
            && (ends ==> after.run.disk.status != Running && after.run.mem.status != Running && after.released == t.modeWritable)
            && (!ends ==> after.run.mem.status == s.mem.status && !after.released)
            && (!ends && t.shortReadable ==> after.run.disk.status == s.mem.status)
            && (!ends && !t.shortReadable ==> after.run.disk == s.disk)
  {
  }

  lemma EvaluatedStatus(s: RunState, t: Turn, a: Artifact)
    requires a.status == Candidate
    ensures var after := Evaluated(s, t, a);
            var writes := t.shortReadable
                          && if DecideOutcome(s.mem.keepPolicy, s.mem.lastScore, Candidate, Some(t.evaluation)).keep
                             then t.keptReadable else t.clean && t.resetWorks;
            && after.run.mem.status == s.mem.status && !after.released
            && (writes ==> after.run.disk.status == s.mem.status)
            && (!writes ==> after.run.disk == s.disk)
  {
    hide DecideOutcome;
  }

  /** What a turn does to the status on disk and to the lock. */
  lemma TurnStatus(s: RunState, t: Turn)
    ensures var after := Process(s, t);
            && (Ends(s, t) ==> after.run.disk.status != Running && after.run.mem.status != Running && after.released == t.modeWritable)
            && (!Ends(s, t) ==> after.run.mem.status == s.mem.status && !after.released)
            && (!Ends(s, t) && Writes(s, t) ==> after.run.disk.status == s.mem.status)
            && (!Ends(s, t) && !Writes(s, t) ==> after.run.disk.status == s.disk.status)
  {
    hide NonEvaluated, Evaluated, DecideOutcome, ValidateCandidate;
    var begun := s.(mem := s.mem.(iteration := s.mem.iteration + 1), head := t.head);
    if t.artifact.Some? {
      match ValidateCandidate(s.mem.lastKept, t.artifact.value, t)
      case GitFailed =>
        assert Process(s, t).run == begun;
      case Rejected(reason) =>
      case Valid(a) =>
        var accepted := begun.(mem := begun.mem.(latestCandidate := a.candidateCommit));
        if a.status != Candidate {
          NonEvaluatedStatus(accepted, t, a);
        } else {
          EvaluatedStatus(accepted, t, a);
        }
    }
  }

  /** The run the lock names reaches a terminal status while the mode state cannot be updated, so
      that the lock is never given up. */
  predicate Strands(p: Project, a: Action) {
    && p.lock.active && !a.Prepare? && p.lock.runId == Some(a.id) && a.id in p.runs
    && match a
       case TakeTurn(id, turn) => Ends(p.runs[id].state, turn) && !turn.modeWritable
       case FinalizeState(id, status, _, modeWritable) => status != Running && !modeWritable
       case _ => false
  }

  /** The lock is active only while the run it names is running: every action keeps that, except
      exactly when the finalised run's mode state could not be updated. */
  lemma LockKeptExactly(p: Project, a: Action)
    requires LockInv(p) && MemInv(p)
    ensures LockInv(Step(p, a)) <==> !Strands(p, a)
    ensures MemInv(Step(p, a))
  {
    hide Process, Ends, Writes;
    match a
    case TakeTurn(id, turn) =>
      if id in p.runs { TurnStatus(p.runs[id].state, turn); }
    case Prepare(id, head, baseline, policy, rows, blocked, modeBusy, seed) =>
      PrepareKeepsLock(p, a);
    case _ =>
  }

  lemma PrepareKeepsLock(p: Project, a: Action)
    requires LockInv(p) && MemInv(p) && a.Prepare?
    ensures LockInv(Step(p, a)) && MemInv(Step(p, a))
  {
    var run := FreshRun(a.id, a.head, a.baseline, a.policy, a.rows);
    assert Seed(run.state, a.seed).run.disk.status == Running && Seed(run.state, a.seed).run.mem.status == Running;
    hide Seed;
  }

  predicate NeverStrands(p: Project, actions: seq<Action>) {
    actions == []
    || (var n := |actions| - 1; NeverStrands(p, actions[..n]) && !Strands(Steps(p, actions[..n]), actions[n]))
  }

  lemma {:induction false} HistoryKeepsLock(p: Project, actions: seq<Action>)
    requires LockInv(p) && MemInv(p) && NeverStrands(p, actions)
    ensures LockInv(Steps(p, actions)) && MemInv(Steps(p, actions))
    decreases |actions|
  {
    if actions != [] {
      var n := |actions| - 1;
      HistoryKeepsLock(p, actions[..n]);
      LockKeptExactly(Steps(p, actions[..n]), actions[n]);
    }
  }

  // ----- a held lock -----

  /** The end of any run, the holder's or another's, gives up the project's lock. */
  predicate GivesUp(p: Project, a: Action) {
    && !a.Prepare? && a.id in p.runs
    && match a
       case TakeTurn(id, turn) => Ends(p.runs[id].state, turn) && turn.modeWritable
       case FinalizeState(id, _, _, modeWritable) => p.runs[id].state.disk.status == Running && modeWritable
       case _ => false
  }

  lemma HeldStaysExactly(p: Project, a: Action)
    requires LockHeld(p.lock)
    ensures Step(p, a).lock == p.lock <==> !GivesUp(p, a)
    ensures GivesUp(p, a) ==> !LockHeld(Step(p, a).lock)
    ensures a.Prepare? || a.Resume? ==> Step(p, a) == p
  {
    if a.TakeTurn? && a.id in p.runs { TurnStatus(p.runs[a.id].state, a.turn); }
    hide Process, Ends;
  }

  predicate NeverGivesUp(p: Project, actions: seq<Action>) {
    actions == []
    || (var n := |actions| - 1; NeverGivesUp(p, actions[..n]) && !GivesUp(Steps(p, actions[..n]), actions[n]))
  }

  predicate HeldThroughout(p: Project, actions: seq<Action>) {
    actions == []
    || (var n := |actions| - 1; HeldThroughout(p, actions[..n]) && Steps(p, actions).lock == p.lock)
  }

  /** The history without its attempts to start or resume a run. */
  function WithoutStarts(actions: seq<Action>): seq<Action> {
    if actions == [] then []
    else
      var n := |actions| - 1;
      WithoutStarts(actions[..n]) + (if actions[n].Prepare? || actions[n].Resume? then [] else [actions[n]])
  }

  /** A held lock stays held over a history exactly when no run in it ends with the mode state
      updated, and so long no attempt to start or resume a run has any effect. */
  lemma {:induction false} LockExcludes(p: Project, actions: seq<Action>)
    requires LockHeld(p.lock)
    ensures HeldThroughout(p, actions) <==> NeverGivesUp(p, actions)
    ensures HeldThroughout(p, actions) ==> Steps(p, actions).lock == p.lock && Steps(p, actions) == Steps(p, WithoutStarts(actions))
    decreases |actions|
  {
    hide Step, GivesUp;
    if actions != [] {
      var n := |actions| - 1;
      LockExcludes(p, actions[..n]);
      if HeldThroughout(p, actions[..n]) {
        HeldStaysExactly(Steps(p, actions[..n]), actions[n]);
        var kept := WithoutStarts(actions[..n]);
        if actions[n].Prepare? || actions[n].Resume? {
          assert WithoutStarts(actions) == kept;
        } else {
          assert WithoutStarts(actions)[..|kept|] == kept;
        }
      }
    }
  }

  /** A run that ends under another run's lock takes that lock away from it. */
  lemma ForeignEndDropsLock(p: Project, holder: RunId, other: RunId)
    requires p.lock == Lock(true, Some(holder)) && holder in p.runs && other in p.runs && holder != other
    ensures var turn := NoopTurn(p.runs[other].state.mem.lastKept).(artifact := None);
            var after := Step(p, TakeTurn(other, turn));
            !LockHeld(after.lock) && after.runs[holder] == p.runs[holder]
  {
    var turn := NoopTurn(p.runs[other].state.mem.lastKept).(artifact := None);
    TurnStatus(p.runs[other].state, turn);
    assert Ends(p.runs[other].state, turn) && turn.modeWritable;
    hide Process, Ends;
  }

  // ----- terminal runs -----

  predicate Terminal(p: Project, id: RunId) {
    id in p.runs && p.runs[id].state.disk.status != Running
  }

  /** What one turn writes back: a terminal run comes to life when its supervisor holds it for running
      and gets as far as writing the manifest. */
  lemma RevivedBy(p: Project, a: Action)
    requires a.TakeTurn? && Terminal(p, a.id)
    ensures var s := p.runs[a.id].state;
            !Terminal(Step(p, a), a.id) <==> s.mem.status == Running && !Ends(s, a.turn) && Writes(s, a.turn)
  {
    TurnStatus(p.runs[a.id].state, a.turn);
    hide Process, Ends, Writes;
  }

  /** Whatever git, evaluator and candidate do, no turn brings a terminal run back to life: exactly when
      the manifest its supervisor holds in memory is not running. */
  lemma RevivedExactly(p: Project, id: RunId)
    requires Terminal(p, id)
    ensures (forall turn :: Terminal(Step(p, TakeTurn(id, turn)), id)) <==> p.runs[id].state.mem.status != Running
  {
    forall turn ensures Terminal(Step(p, TakeTurn(id, turn)), id) || p.runs[id].state.mem.status == Running {
      RevivedBy(p, TakeTurn(id, turn));
    }
    var s := p.runs[id].state;
    var turn := NoopTurn(s.mem.lastKept);
    assert Writes(s, turn) && !Ends(s, turn);
    RevivedBy(p, TakeTurn(id, turn));
  }

  /** The supervisor of this run, if it takes the turn, knows whether the run is over; the id is not
      drawn again. */
  predicate Aware(p: Project, a: Action, id: RunId) {
    && !(a.Prepare? && a.id == id)
    && (a.TakeTurn? && a.id == id && Terminal(p, id) ==> p.runs[id].state.mem.status != Running)
  }

  predicate AlwaysAware(p: Project, actions: seq<Action>, id: RunId) {
    actions == []
    || (var n := |actions| - 1; AlwaysAware(p, actions[..n], id) && Aware(Steps(p, actions[..n]), actions[n], id))
  }

  lemma TerminalStep(p: Project, a: Action, id: RunId)
    requires Terminal(p, id) && Aware(p, a, id)
    ensures Terminal(Step(p, a), id)
    ensures (a.Resume? || a.FinalizeState?) && a.id == id ==> Step(p, a) == p
  {
    if a.TakeTurn? && a.id == id { RevivedBy(p, a); }
    hide Process, Ends, Writes, Seed;
  }

  /** Terminal is for good: resumes, stops, turns of its own aware supervisor and all that other runs
      do leave a terminal run terminal. */
  lemma {:induction false} TerminalIsFinal(p: Project, actions: seq<Action>, id: RunId)
    requires Terminal(p, id) && AlwaysAware(p, actions, id)
    ensures Terminal(Steps(p, actions), id)
    decreases |actions|
  {
    hide Step, Terminal, Aware;
    if actions != [] {
      var n := |actions| - 1;
      TerminalIsFinal(p, actions[..n], id);
      TerminalStep(Steps(p, actions[..n]), actions[n], id);
    }
  }

  /** Stopped by the operator, then written back as running by the next noop turn. */
  lemma StaleSupervisorRevives(p: Project, id: RunId)
    requires id in p.runs && p.runs[id].state.disk.status == Running && p.runs[id].state.mem.status == Running
    ensures var stop := FinalizeState(id, Stopped, "operator stop", true);
            var turn := TakeTurn(id, NoopTurn(p.runs[id].state.mem.lastKept));
            Terminal(Step(p, stop), id) && !Terminal(Step(Step(p, stop), turn), id)
  {
    var turn := NoopTurn(p.runs[id].state.mem.lastKept);
    var s := p.runs[id].state;
    var stopped := s.(disk := s.disk.(status := Stopped, stopReason := Some("operator stop")));
    TurnStatus(stopped, turn);
    assert Writes(stopped, turn) && !Ends(stopped, turn);
    hide Process, Ends, Writes;
  }
}
