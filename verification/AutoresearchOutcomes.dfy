/** What each kind of turn leaves behind, told from what the turn met. */
module AutoresearchOutcomes {
  import opened AutoresearchTypes
  import opened AutoresearchTurn
  import opened AutoresearchProject

  /** The run is over: manifest in memory and on disk say so, and the lock is given up if the mode state
      can be written. */
  predicate EndsAs(s: RunState, t: Turn, after: After, status: RunStatus, reason: string, latest: Option<Commit>, decision: Decision) {
    && after.run.mem == s.mem.(iteration := s.mem.iteration + 1, latestCandidate := latest, status := status, stopReason := Some(reason))
    && after.run.disk == after.run.mem && after.run.head == t.head
    && after.released == t.modeWritable && after.outcome == (if t.modeWritable then Returned(decision) else Threw)
  }

  /** The run goes on: one more iteration, written to disk. */
  predicate GoesOn(s: RunState, t: Turn, after: After, latest: Option<Commit>, decision: Decision) {
    && after.run.mem == s.mem.(iteration := s.mem.iteration + 1, latestCandidate := latest)
    && after.run.disk == after.run.mem && after.run.head == t.head
    && !after.released && after.outcome == Returned(decision)
  }

  /** Nothing was written. */
  predicate WroteNothing(s: RunState, after: After) {
    after.run.disk == s.disk && after.run.ledger == s.ledger && after.run.results == s.results && !after.released && after.outcome == Threw
  }

  predicate SameLog(s: RunState, after: After) { after.run.ledger == s.ledger && after.run.results == s.results }

  /** One entry and one row for the new iteration, with the same decision and description. */
  predicate Logs(s: RunState, after: After, e: Entry, commit: string) {
    && e.iteration == s.mem.iteration + 1 && !e.isBaseline && e.keepPolicy == s.mem.keepPolicy
    && after.run.ledger == s.ledger + [e]
    && after.run.results == s.results + [Row(s.mem.iteration + 1, commit,
         if e.evaluation.Some? && e.evaluation.value.Scored? then Some(e.evaluation.value.pass) else None,
         if e.evaluation.Some? && e.evaluation.value.Scored? then e.evaluation.value.score else None,
         e.decision, e.description)]
  }

  function EntryOf(s: RunState, decision: Decision, reason: string, base: Commit, candidate: Option<Commit>,
                   kept: Commit, evaluation: Option<Evaluation>, description: string): Entry {
    Entry(s.mem.iteration + 1, false, decision, reason, base, candidate, kept, s.mem.keepPolicy, evaluation, description)
  }

  function ShortOf(s: RunState, t: Turn): string { if t.shortReadable then t.short(t.head) else s.mem.baselineCommit }

  // ----- unusable candidates -----

  lemma UnreadableFails(s: RunState, t: Turn)
    requires t.artifact.None?
    ensures EndsAs(s, t, Process(s, t), Failed, t.parseError, s.mem.latestCandidate, Error)
    ensures Logs(s, Process(s, t), EntryOf(s, Error, t.parseError, s.mem.lastKept, None, s.mem.lastKept, None, "candidate validation failed"),
                 ShortOf(s, t))
  {
  }

  /** The base the candidate names is the commit kept last. */
  predicate FromKept(s: RunState, t: Turn, a: Artifact) { t.resolve(a.baseCommit) == Some(s.mem.lastKept) }

  predicate NoCommit(a: Artifact) { a.candidateCommit == None || a.candidateCommit == Some("") }

  predicate NamesOther(t: Turn, a: Artifact) {
    !NoCommit(a) && t.headReadable && t.resolve(a.candidateCommit.value) != Some(t.head)
  }

  /** The commit a candidate names, or the lack of one, makes it unusable. */
  predicate Misnamed(t: Turn, a: Artifact) {
    a.status == Candidate && (NoCommit(a) || t.resolve(a.candidateCommit.value).None? || NamesOther(t, a))
  }

  lemma ReasonOf(s: RunState, t: Turn, a: Artifact) returns (reason: string)
    requires !FromKept(s, t, a) || Misnamed(t, a)
    ensures ValidateCandidate(s.mem.lastKept, a, t) == Rejected(reason)
    ensures t.resolve(a.baseCommit).None? ==> reason == "candidate base_commit does not resolve in git: " + a.baseCommit
    ensures !FromKept(s, t, a) && t.resolve(a.baseCommit).Some? ==>
              reason == "candidate base_commit " + t.resolve(a.baseCommit).value + " does not match last kept commit " + s.mem.lastKept
    ensures FromKept(s, t, a) && NoCommit(a) ==> reason == "candidate status requires a non-null candidate_commit"
    ensures FromKept(s, t, a) && !NoCommit(a) && t.resolve(a.candidateCommit.value).None? ==>
              reason == "candidate_commit does not resolve in git: " + a.candidateCommit.value
    ensures FromKept(s, t, a) && !NoCommit(a) && t.resolve(a.candidateCommit.value).Some? ==>
              reason == "candidate_commit " + t.resolve(a.candidateCommit.value).value + " does not match worktree HEAD " + t.head
  {
    reason := ValidateCandidate(s.mem.lastKept, a, t).reason;
  }

  lemma RejectedIs(s: RunState, t: Turn, a: Artifact, reason: string)
    requires t.artifact == Some(a) && ValidateCandidate(s.mem.lastKept, a, t) == Rejected(reason)
    ensures Process(s, t) == Fail(s.(mem := s.mem.(iteration := s.mem.iteration + 1), head := t.head), t, reason, Some(a))
  {
    hide Fail, ValidateCandidate;
  }

  lemma RejectedFails(s: RunState, t: Turn, a: Artifact) returns (reason: string)
    requires t.artifact == Some(a) && (!FromKept(s, t, a) || Misnamed(t, a))
    ensures EndsAs(s, t, Process(s, t), Failed, reason, s.mem.latestCandidate, Error)
    ensures Logs(s, Process(s, t),
                 EntryOf(s, Error, reason, a.baseCommit, a.candidateCommit, s.mem.lastKept, None,
                         if a.description == "" then "candidate validation failed" else a.description),
                 ShortOf(s, t))
    ensures t.resolve(a.baseCommit).None? ==> reason == "candidate base_commit does not resolve in git: " + a.baseCommit
    ensures !FromKept(s, t, a) && t.resolve(a.baseCommit).Some? ==>
              reason == "candidate base_commit " + t.resolve(a.baseCommit).value + " does not match last kept commit " + s.mem.lastKept
    ensures FromKept(s, t, a) && NoCommit(a) ==> reason == "candidate status requires a non-null candidate_commit"
    ensures FromKept(s, t, a) && !NoCommit(a) && t.resolve(a.candidateCommit.value).None? ==>
              reason == "candidate_commit does not resolve in git: " + a.candidateCommit.value
    ensures FromKept(s, t, a) && !NoCommit(a) && t.resolve(a.candidateCommit.value).Some? ==>
              reason == "candidate_commit " + t.resolve(a.candidateCommit.value).value + " does not match worktree HEAD " + t.head
  {
    reason := ReasonOf(s, t, a);
    RejectedIs(s, t, a, reason);
    hide ValidateCandidate, Process, FromKept, Misnamed;
  }

  // ----- candidates that report no change -----

  lemma AbortStops(s: RunState, t: Turn, a: Artifact)
    requires t.artifact == Some(a) && FromKept(s, t, a) && a.status == Abort
    ensures !t.shortReadable ==> WroteNothing(s, Process(s, t))
    ensures t.shortReadable ==>
              && EndsAs(s, t, Process(s, t), Stopped, "candidate abort", a.candidateCommit, AbortSeen)
              && Logs(s, Process(s, t),
                      EntryOf(s, AbortSeen, "candidate requested abort", s.mem.lastKept, a.candidateCommit, s.mem.lastKept, None, a.description),
                      t.short(t.head))
  {
  }

  lemma InterruptedEnds(s: RunState, t: Turn, a: Artifact)
    requires t.artifact == Some(a) && FromKept(s, t, a) && a.status == Interrupted
    ensures !t.clean ==>
              && EndsAs(s, t, Process(s, t), Failed, "interrupted dirty worktree requires operator intervention", a.candidateCommit, Error)
              && SameLog(s, Process(s, t))
    ensures t.clean && !t.shortReadable ==> WroteNothing(s, Process(s, t))
    ensures t.clean && t.shortReadable ==>
              && GoesOn(s, t, Process(s, t), a.candidateCommit, InterruptSeen)
              && Logs(s, Process(s, t),
                      EntryOf(s, InterruptSeen, "candidate session interrupted cleanly", s.mem.lastKept, a.candidateCommit, s.mem.lastKept, None, a.description),
                      t.short(t.head))
  {
  }

  lemma NoopGoesOn(s: RunState, t: Turn, a: Artifact)
    requires t.artifact == Some(a) && FromKept(s, t, a) && a.status == Noop
    ensures !t.shortReadable ==> WroteNothing(s, Process(s, t))
    ensures t.shortReadable ==>
              && GoesOn(s, t, Process(s, t), a.candidateCommit, NoopSeen)
              && Logs(s, Process(s, t),
                      EntryOf(s, NoopSeen, "candidate reported noop", s.mem.lastKept, a.candidateCommit, s.mem.lastKept, None, a.description),
                      t.short(t.head))
  {
  }

  // ----- evaluated candidates -----

  /** The candidate names the HEAD its session left. */
  predicate Accepted(s: RunState, t: Turn, a: Artifact) {
    && t.artifact == Some(a) && FromKept(s, t, a) && a.status == Candidate && t.headReadable
    && !NoCommit(a) && t.resolve(a.candidateCommit.value) == Some(t.head)
  }

  lemma AcceptedIs(s: RunState, t: Turn, a: Artifact)
    requires Accepted(s, t, a)
    ensures Process(s, t) == Evaluated(
              s.(mem := s.mem.(iteration := s.mem.iteration + 1, latestCandidate := Some(t.head)), head := t.head), t,
              a.(baseCommit := s.mem.lastKept, candidateCommit := Some(t.head)))
  {
    hide Evaluated, Fail, NonEvaluated;
  }

  predicate Passes(e: Evaluation) { e.Scored? && e.pass }

  /** The evaluator's score is known and above the known score to beat. */
  predicate Beats(s: RunState, e: Evaluation) {
    e.Scored? && e.score.Some? && s.mem.lastScore.Some? && e.score.value > s.mem.lastScore.value
  }

  predicate Comparable(s: RunState, e: Evaluation) { e.Scored? && e.score.Some? && s.mem.lastScore.Some? }

  /** A candidate worth keeping moves the kept commit, and with a score the score to beat. */
  lemma BetterIsKept(s: RunState, t: Turn, a: Artifact)
    requires Accepted(s, t, a) && Passes(t.evaluation) && (s.mem.keepPolicy == PassOnly || Beats(s, t.evaluation))
    requires t.keptReadable && t.shortReadable
    ensures var after := Process(s, t);
            && after.run.mem == s.mem.(iteration := s.mem.iteration + 1, latestCandidate := Some(t.head), lastKept := t.evaluatedHead,
                                       lastScore := if t.evaluation.score.Some? then t.evaluation.score else s.mem.lastScore)
            && after.run.disk == after.run.mem && after.run.head == t.evaluatedHead && !after.released
            && after.outcome == (if t.modeWritable then Returned(Keep) else Threw)
            && Logs(s, after,
                    EntryOf(s, Keep,
                            if s.mem.keepPolicy == PassOnly then "pass_only keep policy accepted evaluator pass=true"
                            else "score improved over last kept score",
                            s.mem.lastKept, Some(t.head), t.evaluatedHead, Some(t.evaluation), a.description),
                    t.short(t.evaluatedHead))
  {
    AcceptedIs(s, t, a);
    DecidesKeep(s, t);
    hide Process, DecideOutcome, Accepted;
  }

  lemma DecidesKeep(s: RunState, t: Turn)
    requires Passes(t.evaluation) && (s.mem.keepPolicy == PassOnly || Beats(s, t.evaluation))
    ensures var d := DecideOutcome(s.mem.keepPolicy, s.mem.lastScore, Candidate, Some(t.evaluation));
            && d.keep && d.decision == Keep
            && d.reason == if s.mem.keepPolicy == PassOnly then "pass_only keep policy accepted evaluator pass=true"
                           else "score improved over last kept score"
  {
  }

  /** Any other is reset to the commit kept before, and says why. */
  lemma WorseIsReset(s: RunState, t: Turn, a: Artifact)
    requires Accepted(s, t, a) && !(Passes(t.evaluation) && (s.mem.keepPolicy == PassOnly || Beats(s, t.evaluation)))
    requires t.clean && t.resetWorks && t.shortReadable
    ensures var after := Process(s, t);
            && after.run.mem == s.mem.(iteration := s.mem.iteration + 1, latestCandidate := Some(t.head))
            && after.run.disk == after.run.mem && after.run.head == s.mem.lastKept && !after.released
            && (Passes(t.evaluation) && !Comparable(s, t.evaluation) ==>
                  && after.outcome == (if t.modeWritable then Returned(Ambiguous) else Threw)
                  && Logs(s, after, EntryOf(s, Ambiguous, "evaluator pass without comparable score", s.mem.lastKept, Some(t.head),
                                            s.mem.lastKept, Some(t.evaluation), a.description), t.short(s.mem.lastKept)))
            && (!Passes(t.evaluation) || Comparable(s, t.evaluation) ==>
                  && after.outcome == (if t.modeWritable then Returned(Discard) else Threw)
                  && Logs(s, after,
                          EntryOf(s, Discard,
                                  if t.evaluation.Errored? then "evaluator error" else if !t.evaluation.pass then "evaluator reported failure"
                                  else "score did not improve",
                                  s.mem.lastKept, Some(t.head), s.mem.lastKept, Some(t.evaluation), a.description), t.short(s.mem.lastKept)))
  {
    AcceptedIs(s, t, a);
    DecidesReset(s, t);
    hide Process, DecideOutcome, Accepted;
  }

  /** What the decision says of a candidate without an evaluation, whatever the policy. */
  lemma DecidesUnevaluated(policy: KeepPolicy, lastScore: Option<real>, evaluation: Option<Evaluation>)
    ensures DecideOutcome(policy, lastScore, Abort, evaluation) == Judgement(AbortSeen, "candidate requested abort", false)
    ensures DecideOutcome(policy, lastScore, Noop, evaluation) == Judgement(NoopSeen, "candidate reported noop", false)
    ensures DecideOutcome(policy, lastScore, Interrupted, evaluation) == Judgement(InterruptSeen, "candidate session was interrupted", false)
    ensures DecideOutcome(policy, lastScore, Candidate, None) == Judgement(Discard, "evaluator error", false)
  {
  }

  lemma DecidesReset(s: RunState, t: Turn)
    requires !(Passes(t.evaluation) && (s.mem.keepPolicy == PassOnly || Beats(s, t.evaluation)))
    ensures var d := DecideOutcome(s.mem.keepPolicy, s.mem.lastScore, Candidate, Some(t.evaluation));
            && !d.keep
            && d.decision == (if Passes(t.evaluation) && !Comparable(s, t.evaluation) then Ambiguous else Discard)
            && d.reason == if t.evaluation.Errored? then "evaluator error" else if !t.evaluation.pass then "evaluator reported failure"
                           else if Comparable(s, t.evaluation) then "score did not improve"
                           else "evaluator pass without comparable score"
  {
  }

  /** When git refuses, nothing is written: neither manifest nor ledger nor results. */
  lemma GitRefuses(s: RunState, t: Turn, a: Artifact)
    requires t.artifact == Some(a) && FromKept(s, t, a) && a.status == Candidate && !Misnamed(t, a)
    requires var keeps := Passes(t.evaluation) && (s.mem.keepPolicy == PassOnly || Beats(s, t.evaluation));
             !t.headReadable || !t.shortReadable || (keeps && !t.keptReadable) || (!keeps && !(t.clean && t.resetWorks))
    ensures WroteNothing(s, Process(s, t))
  {
    if !t.headReadable {
      HeadUnreadable(s, t, a);
    } else {
      AcceptedIs(s, t, a);
      if Passes(t.evaluation) && (s.mem.keepPolicy == PassOnly || Beats(s, t.evaluation)) { DecidesKeep(s, t); } else { DecidesReset(s, t); }
      hide Process, DecideOutcome, Logged, FromKept, Misnamed, Passes, Beats;
    }
  }

  lemma HeadUnreadable(s: RunState, t: Turn, a: Artifact)
    requires t.artifact == Some(a) && FromKept(s, t, a) && a.status == Candidate && !Misnamed(t, a) && !t.headReadable
    ensures WroteNothing(s, Process(s, t))
  {
    hide Fail, NonEvaluated, Evaluated;
  }

  // ----- the first evaluation, and the other actions -----

  /** Seeding logs iteration 0 and sets the score to beat to that of a passing baseline. */
  lemma SeedLogs(s: RunState, t: Turn)
    ensures !t.shortReadable ==> WroteNothing(s, Seed(s, t)) && Seed(s, t).run.mem == s.mem
    ensures t.shortReadable ==>
              var after := Seed(s, t);
              var errored := t.evaluation.Errored?;
              var score := if Passes(t.evaluation) then t.evaluation.score else None;
              && after.run.mem == after.run.disk == s.mem.(lastScore := score) && after.run.head == t.evaluatedHead
              && after.outcome == Returned(if errored then Error else Baseline)
              && after.run.ledger == s.ledger + [Entry(0, true, if errored then Error else Baseline,
                   if errored then "baseline evaluator error" else "baseline established", s.mem.baselineCommit, None,
                   s.mem.lastKept, s.mem.keepPolicy, Some(t.evaluation), "initial baseline evaluation")]
              && after.run.results == s.results + [Row(0, t.short(t.evaluatedHead),
                   if errored then None else Some(t.evaluation.pass), if errored then None else t.evaluation.score,
                   if errored then Error else Baseline, "initial baseline evaluation")]
  {
  }

  /** A run is prepared exactly when no run holds the lock and nothing else stands in the way; it then
      runs, from the commit found, and holds the lock unless the mode state was busy. */
  lemma PrepareStarts(p: Project, a: Action)
    requires a.Prepare?
    ensures LockHeld(p.lock) || a.blocked ==> Step(p, a) == p
    ensures !LockHeld(p.lock) && !a.blocked ==>
              var q := Step(p, a);
              && a.id in q.runs && q.runs[a.id].state.disk.status == Running && q.runs[a.id].state.disk.lastKept == a.head
              && q.runs[a.id].state.disk.baselineCommit == a.baseline && q.runs[a.id].state.disk.keepPolicy == a.policy
              && q.runs[a.id].state.mem == q.runs[a.id].state.disk && q.runs[a.id].state.disk.iteration == 0
              && (forall id :: id != a.id ==> (id in q.runs <==> id in p.runs) && (id in p.runs ==> q.runs[id] == p.runs[id]))
              && q.lock == (if a.modeBusy then p.lock else Lock(true, Some(a.id)))
  {
  }

  /** A run is resumed exactly when no run holds the lock and its manifest on disk says running; it then
      goes on from that manifest and holds the lock. */
  lemma ResumeStarts(p: Project, id: RunId, blocked: bool)
    ensures var q := Step(p, Resume(id, blocked));
            if !LockHeld(p.lock) && id in p.runs && p.runs[id].state.disk.status == Running && !blocked
            then q.lock == Lock(true, Some(id)) && q.runs == p.runs[id := p.runs[id].(state := p.runs[id].state.(mem := p.runs[id].state.disk))]
            else q == p
  {
  }

  /** Stopping writes the status and the reason of a running run to disk and gives up the lock if the mode
      state can be written. */
  lemma StopStops(p: Project, id: RunId, reason: string, modeWritable: bool)
    requires id in p.runs && p.runs[id].state.disk.status == Running
    ensures var q := Step(p, FinalizeState(id, Stopped, reason, modeWritable));
            && q.runs[id].state.disk == p.runs[id].state.disk.(status := Stopped, stopReason := Some(reason))
            && q.runs[id].state.ledger == p.runs[id].state.ledger && q.runs[id].state.mem == p.runs[id].state.mem
            && (if modeWritable then !q.lock.active else q.lock == p.lock)
  {
  }
}
