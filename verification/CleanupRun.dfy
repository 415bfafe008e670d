/** The signal escalation of src/cli/cleanup.ts: SIGTERM to every candidate, a bounded wait,
    SIGKILL to what is left, and the counts reported at the end. */
module CleanupRun {
  import opened ProcessGraph

  datatype Signal = Term | Kill
  datatype Sending = Sending(pid: Pid, signal: Signal)

  /** What the system answers to a signal or a liveness probe. */
  datatype Reply = Delivered | NoSuchProcess | OtherError

  const ExitPollMs: int := 100
  const TermGraceMs: int := 5_000

  /** A sleep: when it began, and how long it was to last. */
  datatype Nap = Nap(at: int, ms: nat)

  /** The injected dependencies. `sent` records every signal attempted, `replies` and `times` what each
      was answered and when it was sent; `answers` the last answer per probed pid, `failedProbes` how many
      probes gave none; `naps` the sleeps. A sleep takes at least its time and the clock never runs backwards. */
  class Host {
    var clock: int
    ghost var sent: seq<Sending>
    ghost var replies: seq<Reply>
    ghost var times: seq<int>
    ghost var answers: map<Pid, bool>
    ghost var failedProbes: nat
    ghost var naps: seq<Nap>

    constructor ()
      ensures sent == [] && replies == [] && times == [] && answers == map[] && failedProbes == 0 && naps == []
    {
      clock := *;
      sent, replies, times := [], [], [];
      answers, failedProbes, naps := map[], 0, [];
    }

    method Now() returns (t: int)
      modifies this`clock
      ensures t == clock >= old(clock)
    {
      var passed: int := *;
      clock := if passed < clock then clock else passed;
      t := clock;
    }

    method Sleep(ms: nat)
      modifies this`clock, this`naps
      ensures clock >= old(clock) + ms && naps == old(naps) + [Nap(old(clock), ms)]
    {
      naps := naps + [Nap(clock, ms)];
      var passed: int := *;
      clock := if passed < clock + ms then clock + ms else passed;
    }

    method SendSignal(pid: Pid, signal: Signal) returns (reply: Reply)
      modifies this`sent, this`replies, this`times
      ensures sent == old(sent) + [Sending(pid, signal)]
      ensures replies == old(replies) + [reply] && times == old(times) + [clock]
    {
      sent := sent + [Sending(pid, signal)];
      reply := *;
      replies, times := replies + [reply], times + [clock];
    }

    /** A probe that fails other than with ESRCH throws, and gives no answer. */
    method IsPidAlive(pid: Pid) returns (threw: bool, alive: bool)
      modifies this`answers, this`failedProbes
      ensures failedProbes == old(failedProbes) + (if threw then 1 else 0)
      ensures threw ==> answers == old(answers)
      ensures !threw ==> answers == old(answers)[pid := alive] && (pid <= 0 ==> !alive)
    {
      var reply: Reply := *;
      threw := pid > 0 && reply == OtherError;
      alive := pid > 0 && reply == Delivered;
      if threw {
        failedProbes := failedProbes + 1;
      } else {
        answers := answers[pid := alive];
      }
    }
  }

  // ----- waiting -----

  ghost predicate Distinct(s: seq<Pid>) {
    forall i, j :: 0 <= i < j < |s| ==> s[i] != s[j]
  }

  /** Every positive pid has been probed, and what is remembered as alive is `remaining`. */
  ghost predicate Tracks(pids: seq<Pid>, remaining: seq<Pid>, answers: map<Pid, bool>) {
    && Distinct(remaining)
    && (forall p :: p in remaining ==> p in pids && p > 0)
    && (forall p :: p in pids && p > 0 && p !in remaining ==> p in answers && !answers[p])
  }

  /** What a completed wait knows: `remaining` were alive, every other positive pid was gone, and
      nobody else was probed since `before`. */
  ghost predicate Settled(pids: seq<Pid>, remaining: seq<Pid>, before: map<Pid, bool>, answers: map<Pid, bool>) {
    && Tracks(pids, remaining, answers)
    && (forall p :: p in remaining ==> p in answers && answers[p])
    && SameElsewhere(pids, before, answers)
  }

  ghost predicate SameElsewhere(pids: seq<Pid>, before: map<Pid, bool>, answers: map<Pid, bool>) {
    && (forall p :: p !in pids && p in answers ==> p in before && before[p] == answers[p])
    && (forall p :: p !in pids && p in before ==> p in answers)
  }

  /** Re-probes every remembered pid once, dropping those that have gone. */
  method DropExited(pids: seq<Pid>, remaining: seq<Pid>, host: Host) returns (threw: bool, left: seq<Pid>)
    requires Tracks(pids, remaining, host.answers)
    modifies host`answers, host`failedProbes
    ensures host.failedProbes == old(host.failedProbes) + (if threw then 1 else 0)
    ensures !threw ==> Tracks(pids, left, host.answers)
    ensures !threw ==> (forall p :: p in left ==> p in remaining) && |left| <= |remaining|
    ensures !threw ==> forall p :: p in left ==> p in host.answers && host.answers[p]
    ensures SameElsewhere(pids, old(host.answers), host.answers)
  {
    left := [];
    for i := 0 to |remaining|
      invariant host.failedProbes == old(host.failedProbes)
      invariant |left| <= i && Distinct(left) && forall p :: p in left ==> p in remaining[..i]
      invariant forall p :: p in left ==> p in host.answers && host.answers[p]
      invariant forall p :: p in remaining[..i] && p !in left ==> p in host.answers && !host.answers[p]
      invariant forall p :: p in pids && p > 0 && p !in remaining ==> p in host.answers && !host.answers[p]
      invariant SameElsewhere(pids, old(host.answers), host.answers)
    {
      var pid := remaining[i];
      assert pid !in remaining[..i];
      assert remaining[..i + 1] == remaining[..i] + [pid];
      var failed, alive := host.IsPidAlive(pid);
      if failed {
        return true, [];
      }
      if alive {
        left := left + [pid];
      }
    }
    assert remaining[..|remaining|] == remaining;
    threw := false;
  }

  method FirstProbe(pids: seq<Pid>, host: Host) returns (threw: bool, remaining: seq<Pid>)
    modifies host`answers, host`failedProbes
    ensures host.failedProbes == old(host.failedProbes) + (if threw then 1 else 0)
    ensures !threw ==> Tracks(pids, remaining, host.answers)
    ensures SameElsewhere(pids, old(host.answers), host.answers)
  {
    remaining := [];
    for i := 0 to |pids|
      invariant host.failedProbes == old(host.failedProbes)
      invariant SameElsewhere(pids, old(host.answers), host.answers)
      invariant Tracks(pids[..i], remaining, host.answers)
    {
      assert pids[..i + 1] == pids[..i] + [pids[i]];
      if pids[i] > 0 {
        var failed, alive := host.IsPidAlive(pids[i]);
        if failed {
          return true, [];
        }
        if alive && pids[i] !in remaining {
          remaining := remaining + [pids[i]];
        }
      }
    }
    assert pids[..|pids|] == pids;
    threw := false;
  }

  /** The sleeps since `before` last 100 ms each, and none begins once the timeout is over. */
  ghost predicate NapsWithin(before: seq<Nap>, now: seq<Nap>, start: int, timeoutMs: int) {
    before <= now && forall i :: |before| <= i < |now| ==> now[i].ms == 100 && start <= now[i].at < start + timeoutMs
  }

  lemma NoNaps(naps: seq<Nap>, start: int, timeoutMs: int)
    ensures NapsWithin(naps, naps, start, timeoutMs)
  {
  }

  /** waitForPidsToExit: on return the result is exactly the pids whose last probe said "alive",
      and every other positive pid was last seen gone. It throws exactly when a probe fails. */
  method WaitForPidsToExit(pids: seq<Pid>, timeoutMs: int, host: Host) returns (threw: bool, remaining: seq<Pid>, ghost start: int)
    modifies host`answers, host`failedProbes, host`clock, host`naps
    ensures NapsWithin(old(host.naps), host.naps, start, timeoutMs)
    ensures host.failedProbes == old(host.failedProbes) + (if threw then 1 else 0) && host.clock >= old(host.clock)
    ensures !threw ==> Settled(pids, remaining, old(host.answers), host.answers)
    ensures !threw && remaining != [] ==> host.clock >= old(host.clock) + timeoutMs
  {
    threw, remaining := FirstProbe(pids, host);
    NoNaps(host.naps, host.clock, timeoutMs);
    start := host.clock;
    if threw || remaining == [] {
      return;
    }
    var begun := host.Now();
    start := begun;
    var deadline := begun + (if timeoutMs > 0 then timeoutMs else 0);
    var now := host.Now();
    while now < deadline && |remaining| > 0
      invariant Tracks(pids, remaining, host.answers)
      invariant SameElsewhere(pids, old(host.answers), host.answers)
      invariant NapsWithin(old(host.naps), host.naps, start, timeoutMs) && now >= start
      invariant now == host.clock >= old(host.clock) && host.failedProbes == old(host.failedProbes)
      decreases deadline - now
    {
      host.Sleep(ExitPollMs);
      assert NapsWithin(old(host.naps), host.naps, start, timeoutMs);
      threw, remaining := DropExited(pids, remaining, host);
      if threw {
        return;
      }
      now := host.Now();
    }
    threw, remaining := DropExited(pids, remaining, host);
  }

  // ----- escalation -----

  datatype CleanupResult = CleanupResult(
    dryRun: bool, candidates: seq<Candidate>,
    terminatedCount: int, forceKilledCount: int, failedPids: seq<Pid>)

  function PidsOfCandidates(cs: seq<Candidate>): (r: seq<Pid>)
    ensures |r| == |cs|
    ensures forall i :: 0 <= i < |cs| ==> r[i] == cs[i].entry.pid
  {
    seq(|cs|, i requires 0 <= i < |cs| => cs[i].entry.pid)
  }

  function Sendings(pids: seq<Pid>, signal: Signal): (r: seq<Sending>)
    ensures |r| == |pids|
    ensures forall i :: 0 <= i < |pids| ==> r[i] == Sending(pids[i], signal)
  {
    seq(|pids|, i requires 0 <= i < |pids| => Sending(pids[i], signal))
  }

  /** The candidates among `alive`, in candidate order. */
  function StillRunning(cs: seq<Candidate>, alive: seq<Pid>): seq<Candidate> {
    if cs == [] then []
    else StillRunning(cs[..|cs| - 1], alive)
         + (if cs[|cs| - 1].entry.pid in alive then [cs[|cs| - 1]] else [])
  }

  lemma {:induction false} StillRunningIs(cs: seq<Candidate>, alive: seq<Pid>, c: Candidate)
    ensures c in StillRunning(cs, alive) <==> c in cs && c.entry.pid in alive
    ensures |StillRunning(cs, alive)| <= |cs|
  {
    if cs != [] {
      var n := |cs| - 1;
      StillRunningIs(cs[..n], alive, c);
      assert cs == cs[..n] + [cs[n]];
    }
  }

  /** SIGKILL only after a SIGTERM to the same pid. */
  ghost predicate Escalates(log: seq<Sending>) {
    forall j :: 0 <= j < |log| && log[j].signal == Kill ==> Sending(log[j].pid, Term) in log[..j]
  }

  ghost predicate OnlyTo(log: seq<Sending>, pids: seq<Pid>) {
    forall j :: 0 <= j < |log| ==> log[j].pid in pids
  }

  /** A signal since `before` was answered with an error other than ESRCH. */
  ghost predicate Refused(before: seq<Reply>, now: seq<Reply>) {
    exists i :: |before| <= i < |now| && now[i] == OtherError
  }

  /** Only the last signal can have been refused, and then the round stopped there. */
  ghost predicate StopsWhenRefused(before: seq<Reply>, now: seq<Reply>, threw: bool) {
    && before <= now
    && (forall i :: |before| <= i < |now| - 1 ==> now[i] != OtherError)
    && (threw <==> |before| < |now| && now[|now| - 1] == OtherError)
  }

  /** The signals sent since `before` were all sent at that time. */
  ghost predicate SentAt(before: seq<int>, now: seq<int>, n: nat, time: int) {
    before <= now && |now| == |before| + n && forall i :: |before| <= i < |now| ==> now[i] == time
  }

  /** Sends one signal to each pid; a process that is already gone is not an error. Any other answer
      stops the round at that pid. */
  method SignalAll(pids: seq<Pid>, signal: Signal, host: Host) returns (threw: bool, ghost log: seq<Sending>)
    modifies host`sent, host`replies, host`times
    ensures StopsWhenRefused(old(host.replies), host.replies, threw)
    ensures SentAt(old(host.times), host.times, |log|, host.clock) && |host.replies| == |old(host.replies)| + |log|
    ensures host.sent == old(host.sent) + log
    ensures SentTo(log, pids, signal)
    ensures !threw ==> log == Sendings(pids, signal)
  {
    log := [];
    for i := 0 to |pids|
      invariant log == Sendings(pids[..i], signal)
      invariant host.sent == old(host.sent) + log
      invariant StopsWhenRefused(old(host.replies), host.replies, false)
      invariant SentAt(old(host.times), host.times, i, host.clock) && |host.replies| == |old(host.replies)| + i
    {
      var reply := host.SendSignal(pids[i], signal);
      log := log + [Sending(pids[i], signal)];
      assert log == Sendings(pids[..i + 1], signal);
      if reply == OtherError {
        return true, log;
      }
    }
    assert pids[..|pids|] == pids;
    threw := false;
  }

  /** A first part of the round of signals. */
  ghost predicate SentTo(log: seq<Sending>, pids: seq<Pid>, signal: Signal) {
    exists k :: 0 <= k <= |pids| && log == Sendings(pids[..k], signal)
  }

  lemma TermsEscalate(pids: seq<Pid>, terms: seq<Sending>)
    requires SentTo(terms, pids, Term)
    ensures Escalates(terms) && OnlyTo(terms, pids)
  {
  }

  lemma KillsEscalate(pids: seq<Pid>, running: seq<Pid>, kills: seq<Sending>)
    requires SentTo(kills, running, Kill) && forall p :: p in running ==> p in pids
    ensures Escalates(Sendings(pids, Term) + kills)
    ensures OnlyTo(Sendings(pids, Term) + kills, pids)
  {
    var terms := Sendings(pids, Term);
    var log := terms + kills;
    forall j | 0 <= j < |log| && log[j].signal == Kill ensures Sending(log[j].pid, Term) in log[..j] {
      assert log[j] == kills[j - |terms|] && log[j].pid == running[j - |terms|];
      assert log[j].pid in pids;
      var i :| 0 <= i < |pids| && pids[i] == log[j].pid;
      assert log[..j][i] == terms[i];
    }
    forall j | 0 <= j < |log| ensures log[j].pid in pids {
      if j >= |terms| { assert log[j].pid == running[j - |terms|]; }
    }
  }

  /** What a completed escalation did: `running` got a SIGKILL because their last probe before it
      said "alive", and the counts add up to the number of candidates. */
  ghost predicate Completed(r: CleanupResult, log: seq<Sending>, running: seq<Candidate>, answers: map<Pid, bool>) {
    var pids := PidsOfCandidates(r.candidates);
    && log == Sendings(pids, Term) + Sendings(PidsOfCandidates(running), Kill)
    && (forall c :: c in running ==> c in r.candidates && c.entry.pid > 0)
    && r.terminatedCount + |r.failedPids| == |r.candidates|
    && r.forceKilledCount == |running| - |r.failedPids| && 0 <= r.forceKilledCount <= r.terminatedCount
    && Distinct(r.failedPids)
    && (forall p :: p in r.failedPids <==> p in pids && p > 0 && p in answers && answers[p])
    && (forall p :: p in pids && p > 0 ==> p in answers)
  }

  ghost predicate GoneOutside(candidates: seq<Candidate>, still: seq<Candidate>, answers: map<Pid, bool>) {
    forall p :: p in PidsOfCandidates(candidates) && p > 0 && p !in PidsOfCandidates(still)
                ==> p in answers && !answers[p]
  }

  /** The escalation from the second wait on: SIGKILL to what is still running. */
  method KillStill(candidates: seq<Candidate>, still: seq<Candidate>, host: Host)
    returns (threw: bool, r: CleanupResult, ghost kills: seq<Sending>)
    requires still != [] && |still| <= |candidates|
    requires GoneOutside(candidates, still, host.answers)
    requires forall c :: c in still ==> c in candidates && c.entry.pid > 0
    modifies host
    ensures SentTo(kills, PidsOfCandidates(still), Kill)
    ensures host.sent == old(host.sent) + kills
    ensures ThrewFor(old(host.replies), host.replies, old(host.failedProbes), host.failedProbes, threw)
    ensures SentAt(old(host.times), host.times, |kills|, old(host.clock))
    ensures exists start :: NapsWithin(old(host.naps), host.naps, start, 100)
    ensures !threw && r.failedPids != [] ==> host.clock >= old(host.clock) + 100
    ensures !threw ==> !r.dryRun && r.candidates == candidates
    ensures !threw ==> Completed(r, Sendings(PidsOfCandidates(candidates), Term) + kills, still, host.answers)
  {
    var pids := PidsOfCandidates(still);
    r := CleanupResult(false, candidates, 0, 0, []);
    ghost var before := host.answers;
    threw, kills := SignalAll(pids, Kill, host);
    StopsIsRefused(old(host.replies), host.replies, threw);
    NoNaps(host.naps, 0, 100);
    if threw {
      return;
    }
    var failed: seq<Pid>;
    ghost var begun;
    threw, failed, begun := WaitForPidsToExit(pids, ExitPollMs, host);
    if threw {
      return;
    }
    DistinctWithin(failed, pids);
    r := CleanupResult(false, candidates, |candidates| - |still| + (|still| - |failed|), |still| - |failed|, failed);
    CompletedHolds(r, still, before, host.answers);
  }

  /** An error other than ESRCH, to a signal or to a probe, and nothing else makes it throw. */
  ghost predicate ThrewFor(before: seq<Reply>, now: seq<Reply>, probes: nat, probesNow: nat, threw: bool) {
    before <= now && (threw <==> Refused(before, now) || probes < probesNow)
  }

  /** The waits of an escalation: up to 5 s behind the SIGTERMs, up to 100 ms behind the SIGKILLs. */
  ghost predicate TwoWaits(before: seq<Nap>, now: seq<Nap>) {
    exists mid, s, t :: NapsWithin(before, mid, s, 5_000) && NapsWithin(mid, now, t, 100)
  }

  lemma TwoWaitsOf(before: seq<Nap>, mid: seq<Nap>, now: seq<Nap>, s: int, t: int)
    requires NapsWithin(before, mid, s, 5_000) && NapsWithin(mid, now, t, 100)
    ensures TwoWaits(before, now)
  {
  }

  /** Each SIGKILL is sent 5 s or more after each SIGTERM. */
  ghost predicate Waits(before: seq<int>, now: seq<int>, log: seq<Sending>) {
    && |now| == |before| + |log|
    && forall i, j :: 0 <= i < |log| && 0 <= j < |log| && log[i].signal == Term && log[j].signal == Kill
                      ==> now[|before| + j] >= now[|before| + i] + 5_000
  }

  lemma OneRoundWaits(before: seq<int>, now: seq<int>, pids: seq<Pid>, log: seq<Sending>, time: int)
    requires SentTo(log, pids, Term) && SentAt(before, now, |log|, time)
    ensures Waits(before, now, log)
  {
  }

  lemma TwoRoundsWait(before: seq<int>, mid: seq<int>, now: seq<int>, pids: seq<Pid>, running: seq<Pid>, kills: seq<Sending>, t: int, u: int)
    requires SentAt(before, mid, |pids|, t) && SentAt(mid, now, |kills|, u) && SentTo(kills, running, Kill) && u >= t + 5_000
    ensures Waits(before, now, Sendings(pids, Term) + kills)
  {
    var log := Sendings(pids, Term) + kills;
    assert forall i :: 0 <= i < |log| ==> (log[i].signal == Term <==> i < |pids|);
    forall i, j | 0 <= i < |log| && 0 <= j < |log| && log[i].signal == Term && log[j].signal == Kill
      ensures now[|before| + j] >= now[|before| + i] + 5_000
    {
      assert i < |pids| && now[|before| + i] == mid[|before| + i];
    }
  }

  lemma StopsIsRefused(before: seq<Reply>, now: seq<Reply>, threw: bool)
    requires StopsWhenRefused(before, now, threw)
    ensures before <= now && (Refused(before, now) <==> threw)
  {
    if threw { assert now[|now| - 1] == OtherError; }
  }

  lemma RefusedSince(before: seq<Reply>, mid: seq<Reply>, now: seq<Reply>)
    requires before <= mid <= now
    ensures Refused(before, now) <==> Refused(before, mid) || Refused(mid, now)
  {
    if Refused(before, mid) {
      var i :| |before| <= i < |mid| && mid[i] == OtherError;
      assert now[i] == OtherError;
    }
  }

  method Escalate(candidates: seq<Candidate>, host: Host)
    returns (threw: bool, r: CleanupResult, ghost log: seq<Sending>, ghost running: seq<Candidate>)
    modifies host
    ensures host.sent == old(host.sent) + log
    ensures ThrewFor(old(host.replies), host.replies, old(host.failedProbes), host.failedProbes, threw)
    ensures Waits(old(host.times), host.times, log) && TwoWaits(old(host.naps), host.naps)
    ensures Escalates(log) && OnlyTo(log, PidsOfCandidates(candidates))
    ensures !threw ==> !r.dryRun && r.candidates == candidates && Completed(r, log, running, host.answers)
  {
    hide Escalates, OnlyTo, Completed, Settled, GoneOutside, StillRunning, SentTo, Waits, SentAt, Refused, StopsWhenRefused, NapsWithin, TwoWaits;
    ghost var replies, times, time, naps := host.replies, host.times, host.clock, host.naps;
    NoNaps(naps, 0, 5_000);
    NoNaps(naps, 0, 100);
    TwoWaitsOf(naps, naps, naps, 0, 0);
    var pids := PidsOfCandidates(candidates);
    r := CleanupResult(false, candidates, 0, 0, []);
    log, running := [], [];
    threw, log := SignalAll(pids, Term, host);
    TermsEscalate(pids, log);
    StopsIsRefused(replies, host.replies, threw);
    OneRoundWaits(times, host.times, pids, log, time);
    ghost var mid, sofar := host.replies, host.times;
    if threw {
      return;
    }
    ghost var before := host.answers;
    var alive: seq<Pid>;
    ghost var s;
    threw, alive, s := WaitForPidsToExit(pids, TermGraceMs, host);
    ghost var rested := host.naps;
    NoNaps(rested, 0, 100);
    TwoWaitsOf(naps, rested, rested, s, 0);
    if threw {
      return;
    }
    var still := StillRunning(candidates, alive);
    StillRunningPids(candidates, alive);
    StillFacts(candidates, alive, before, host.answers);
    if still == [] {
      r := CleanupResult(false, candidates, |candidates|, 0, []);
      NoneLeft(r, host.answers);
      return;
    }
    running := still;
    ghost var kills;
    assert alive != [] by { assert PidsOfCandidates(still)[0] in alive; }
    ghost var later := host.clock;
    threw, r, kills := KillStill(candidates, still, host);
    RefusedSince(replies, mid, host.replies);
    ghost var t :| NapsWithin(rested, host.naps, t, 100);
    TwoWaitsOf(naps, rested, host.naps, s, t);
    TwoRoundsWait(times, sofar, host.times, pids, PidsOfCandidates(still), kills, time, later);
    KillsEscalate(pids, PidsOfCandidates(still), kills);
    log := log + kills;
  }

  lemma StillFacts(candidates: seq<Candidate>, alive: seq<Pid>, before: map<Pid, bool>, answers: map<Pid, bool>)
    requires Settled(PidsOfCandidates(candidates), alive, before, answers)
    ensures GoneOutside(candidates, StillRunning(candidates, alive), answers)
    ensures forall c :: c in StillRunning(candidates, alive) ==> c in candidates && c.entry.pid > 0
    ensures forall p :: p in PidsOfCandidates(StillRunning(candidates, alive)) ==> p in PidsOfCandidates(candidates)
  {
    StillRunningPids(candidates, alive);
  }

  lemma NoneLeft(r: CleanupResult, answers: map<Pid, bool>)
    requires r.terminatedCount == |r.candidates| && r.forceKilledCount == 0 && r.failedPids == []
    requires GoneOutside(r.candidates, [], answers)
    ensures Completed(r, Sendings(PidsOfCandidates(r.candidates), Term), [], answers)
  {
    var terms := Sendings(PidsOfCandidates(r.candidates), Term);
    assert terms + Sendings(PidsOfCandidates([]), Kill) == terms;
  }

  lemma CompletedHolds(r: CleanupResult, still: seq<Candidate>, before: map<Pid, bool>, answers: map<Pid, bool>)
    requires |still| <= |r.candidates| && |r.failedPids| <= |still|
    requires r.terminatedCount == |r.candidates| - |r.failedPids| && r.forceKilledCount == |still| - |r.failedPids|
    requires forall c :: c in still ==> c in r.candidates && c.entry.pid > 0
    requires Settled(PidsOfCandidates(still), r.failedPids, before, answers)
    requires GoneOutside(r.candidates, still, before)
    ensures var log := Sendings(PidsOfCandidates(r.candidates), Term) + Sendings(PidsOfCandidates(still), Kill);
            Completed(r, log, still, answers)
  {
    var pids := PidsOfCandidates(r.candidates);
    forall p | p in PidsOfCandidates(still) ensures p in pids && p > 0 {
      var i :| 0 <= i < |still| && still[i].entry.pid == p;
      assert still[i] in r.candidates;
      var j :| 0 <= j < |r.candidates| && r.candidates[j] == still[i];
      assert pids[j] == p;
    }
  }

  lemma StillRunningPids(cs: seq<Candidate>, alive: seq<Pid>)
    ensures |StillRunning(cs, alive)| <= |cs|
    ensures forall c :: c in StillRunning(cs, alive) ==> c in cs && c.entry.pid in alive
    ensures forall p :: p in PidsOfCandidates(StillRunning(cs, alive)) <==> p in PidsOfCandidates(cs) && p in alive
  {
    var still := StillRunning(cs, alive);
    forall c ensures c in still <==> c in cs && c.entry.pid in alive {
      StillRunningIs(cs, alive, c);
    }
    if cs != [] { StillRunningIs(cs, alive, cs[0]); }
    forall p | p in PidsOfCandidates(cs) && p in alive ensures p in PidsOfCandidates(still) {
      var i :| 0 <= i < |cs| && cs[i].entry.pid == p;
      assert cs[i] in still;
      var j :| 0 <= j < |still| && still[j] == cs[i];
      assert PidsOfCandidates(still)[j] == p;
    }
    forall p | p in PidsOfCandidates(still) ensures p in PidsOfCandidates(cs) && p in alive {
      var j :| 0 <= j < |still| && still[j].entry.pid == p;
      assert still[j] in cs;
      var i :| 0 <= i < |cs| && cs[i] == still[j];
      assert PidsOfCandidates(cs)[i] == p;
    }
  }

  /** A duplicate-free list drawn from another is no longer than it. */
  lemma {:induction false} DistinctWithin(s: seq<Pid>, t: seq<Pid>)
    requires Distinct(s) && forall p :: p in s ==> p in t
    ensures |s| <= |t|
    decreases |s|
  {
    if s != [] {
      var n := |s| - 1;
      var last := s[n];
      assert last in s;
      assert last in t;
      var i :| 0 <= i < |t| && t[i] == last;
      var rest := t[..i] + t[i + 1..];
      forall p | p in s[..n] ensures p in rest {
        var k :| 0 <= k < n && s[k] == p;
        assert p in s;
        assert p in t && p != last;
        var m :| 0 <= m < |t| && t[m] == p;
        if m < i { assert rest[m] == p; } else { assert rest[m - 1] == p; }
      }
      DistinctWithin(s[..n], rest);
    }
  }

  /** cleanupOmcpMcpProcesses: help, a dry run and an empty selection signal nobody; otherwise only
      unprotected MCP servers are signalled, never one of the protected tree. */
  method CleanupOmcpMcpProcesses(help: bool, dryRun: bool, table: seq<ProcessEntry>, pats: Patterns,
                                 currentPid: Pid, ghost steps: nat, host: Host)
    returns (threw: bool, r: CleanupResult, ghost log: seq<Sending>, ghost running: seq<Candidate>)
    requires Ends(ByPid(table), pats, currentPid, steps)
    modifies host
    ensures host.sent == old(host.sent) + log && Escalates(log) && Waits(old(host.times), host.times, log)
    ensures TwoWaits(old(host.naps), host.naps)
    ensures ThrewFor(old(host.replies), host.replies, old(host.failedProbes), host.failedProbes, threw)
    ensures forall j :: 0 <= j < |log| ==> Signalled(table, steps, pats, currentPid, log[j].pid)
    ensures help ==> !threw && r == CleanupResult(true, [], 0, 0, [])
    ensures !help && !threw ==> AreCleanupCandidates(table, steps, pats, currentPid, r.candidates)
    ensures help || dryRun || (!threw && r.candidates == []) ==>
              !threw && log == [] && host.answers == old(host.answers) && r.terminatedCount == 0
              && r.forceKilledCount == 0 && r.failedPids == [] && r.dryRun == (help || dryRun)
    ensures !help && !dryRun && !threw && r.candidates != [] ==> !r.dryRun && Completed(r, log, running, host.answers)
  {
    hide AreCleanupCandidates, Escalates, Completed, Waits, Refused, NapsWithin, TwoWaits;
    NoNaps(host.naps, 0, 5_000);
    NoNaps(host.naps, 0, 100);
    TwoWaitsOf(host.naps, host.naps, host.naps, 0, 0);
    log, running := [], [];
    QuietLog(host.replies, host.times);
    threw := false;
    if help {
      r := CleanupResult(true, [], 0, 0, []);
      return;
    }
    var candidates := FindCleanupCandidates(table, pats, currentPid, steps);
    if candidates == [] || dryRun {
      r := CleanupResult(dryRun, candidates, 0, 0, []);
      return;
    }
    threw, r, log, running := Escalate(candidates, host);
    forall j | 0 <= j < |log| ensures Signalled(table, steps, pats, currentPid, log[j].pid) {
      var i :| 0 <= i < |candidates| && candidates[i].entry.pid == log[j].pid;
      CandidateMaySignal(table, steps, pats, currentPid, candidates, i);
    }
  }

  lemma QuietLog(replies: seq<Reply>, times: seq<int>)
    ensures Escalates([]) && Waits(times, times, []) && !Refused(replies, replies)
  {
  }

  /** The processes a run may signal: listed MCP servers outside the protected tree. */
  ghost predicate Signalled(table: seq<ProcessEntry>, steps: nat, pats: Patterns, current: Pid, pid: Pid)
    requires Ends(ByPid(table), pats, current, steps)
  {
    && !Descends(table, ProtectedRoot(ByPid(table), steps, pats, current), pid)
    && exists e :: e in table && e.pid == pid && pats.isMcpServer(e.command)
  }

  lemma CandidateMaySignal(table: seq<ProcessEntry>, steps: nat, pats: Patterns, current: Pid, cs: seq<Candidate>, i: nat)
    requires Ends(ByPid(table), pats, current, steps) && AreCleanupCandidates(table, steps, pats, current, cs) && i < |cs|
    ensures Signalled(table, steps, pats, current, cs[i].entry.pid)
  {
    assert cs[i].entry in table;
  }
}
