/** The shared tmux extended-keys lease of src/cli/index.ts.

    `LeaseEffects` says what one critical section does to the lease file and the tmux option,
    `LeaseHost` is that critical section as code, and `LeaseProtocol` interleaves any number of
    processes, one lock, file or tmux action at a time. */
module LeaseEffects {
  type LeaseId = string

  const MODE := "always"
  const FALLBACK_MODE := "off"

  /** The lease file: absent, present but not a readable lease, or a readable one. */
  datatype LeaseFile =
    | Missing
    | Unreadable
    | Lease(originalMode: string, holders: seq<LeaseId>)

  /** What the lock guards: the lease file and tmux's extended-keys option. */
  datatype Host = Host(file: LeaseFile, mode: string)

  predicate Live(file: LeaseFile) {
    file.Lease? && file.holders != []
  }

  function ModeToRestore(shown: string): string {
    if shown == "" then FALLBACK_MODE else shown
  }

  function Without(holders: seq<LeaseId>, id: LeaseId): seq<LeaseId> {
    if holders == [] then []
    else if holders[0] == id then Without(holders[1..], id)
    else [holders[0]] + Without(holders[1..], id)
  }

  datatype Op = Acquire(id: LeaseId) | Release(id: LeaseId)

  /** The whole effect of one completed critical section. */
  function Effect(h: Host, op: Op): Host {
    match op
    case Acquire(id) =>
      if Live(h.file) then h.(file := Lease(h.file.originalMode, h.file.holders + [id]))
      else Host(Lease(ModeToRestore(h.mode), [id]), MODE)
    case Release(id) =>
      if !Live(h.file) then h.(file := Missing)
      else
        var rest := Without(h.file.holders, id);
        if rest != [] then h.(file := Lease(h.file.originalMode, rest))
        else Host(Missing, h.file.originalMode)
  }

  ghost predicate Distinct(s: seq<LeaseId>) {
    forall i, j :: 0 <= i < j < |s| ==> s[i] != s[j]
  }

  ghost function Members(s: seq<LeaseId>): set<LeaseId> {
    set x | x in s
  }

  lemma {:induction false} WithoutMembers(holders: seq<LeaseId>, id: LeaseId)
    ensures Members(Without(holders, id)) == Members(holders) - {id}
    ensures Distinct(holders) ==> Distinct(Without(holders, id))
    ensures id !in holders ==> Without(holders, id) == holders
  {
    if holders != [] {
      WithoutMembers(holders[1..], id);
      assert holders == [holders[0]] + holders[1..];
      var rest := Without(holders[1..], id);
      assert Members(holders) == {holders[0]} + Members(holders[1..]);
      assert Members([holders[0]] + rest) == {holders[0]} + Members(rest);
      if Distinct(holders) {
        assert holders[0] !in holders[1..];
        assert holders[0] !in Members(rest);
      }
    }
  }

  /** Exactly the other holders are left, each as often and in the same order. */
  lemma {:induction false} WithoutConcat(a: seq<LeaseId>, b: seq<LeaseId>, id: LeaseId)
    ensures Without(a + b, id) == Without(a, id) + Without(b, id)
    ensures forall x: LeaseId :: Without([x], id) == if x == id then [] else [x]
  {
    assert forall x: LeaseId :: [x][1..] == [];
    if a == [] {
      assert a + b == b;
    } else {
      assert (a + b)[0] == a[0] && (a + b)[1..] == a[1..] + b;
      WithoutConcat(a[1..], b, id);
    }
  }

  /** `now` is the mode that was found; an option that was not set is switched off. */
  predicate Restores(found: string, now: string) {
    && (found != "" ==> now == found)
    && (found == "" ==> now == "off")
  }

  /** A release that names no holder changes neither the holders nor the mode. */
  lemma UnknownReleaseIsHarmless(h: Host, id: LeaseId)
    requires Live(h.file) ==> id !in h.file.holders
    ensures Effect(h, Release(id)).mode == h.mode
    ensures Live(h.file) ==> Effect(h, Release(id)) == h
    ensures !Live(h.file) ==> Effect(h, Release(id)).file == Missing
  {
    if Live(h.file) {
      WithoutMembers(h.file.holders, id);
    }
  }

  /** Releasing the same lease twice is the same as releasing it once. */
  lemma RepeatedReleaseIsHarmless(h: Host, id: LeaseId)
    ensures Effect(Effect(h, Release(id)), Release(id)) == Effect(h, Release(id))
  {
    var once := Effect(h, Release(id));
    if Live(h.file) {
      WithoutMembers(h.file.holders, id);
      if Live(once.file) {
        assert id !in Members(once.file.holders);
        UnknownReleaseIsHarmless(once, id);
      }
    }
  }

  // ----- runs of whole critical sections -----

  /** The protocol as its users see it: the guarded state and the leases handed out and not yet
      taken back. */
  datatype Ledger = Ledger(host: Host, outstanding: set<LeaseId>)

  /** What one caller may observe between two quiet moments. */
  datatype Event = Did(op: Op) | UserSetsMode(mode: string) | Nothing

  ghost predicate LedgerStep(l: Ledger, e: Event, l': Ledger) {
    match e
    case Did(Acquire(id)) => id !in l.outstanding && l' == Ledger(Effect(l.host, Acquire(id)), l.outstanding + {id})
    case Did(Release(id)) => l' == Ledger(Effect(l.host, Release(id)), l.outstanding - {id})
    case UserSetsMode(mode) => l' == l.(host := l.host.(mode := mode))
    case Nothing => l' == l
  }

  /** The lease file is live exactly while leases are outstanding, and then lists exactly those,
      once each. */
  ghost predicate Accounted(l: Ledger) {
    && (Live(l.host.file) <==> l.outstanding != {})
    && (Live(l.host.file) ==> Members(l.host.file.holders) == l.outstanding && Distinct(l.host.file.holders))
  }

  /** The option is switched on while leases are outstanding. */
  predicate SwitchedOn(l: Ledger) { l.outstanding != {} ==> l.host.mode == "always" }

  /** A user changes the option under the outstanding leases. */
  predicate Meddles(l: Ledger, e: Event) { e.UserSetsMode? && l.outstanding != {} && e.mode != "always" }

  /** The accounts survive everything; the option stays on exactly as long as no user changes it. */
  lemma LedgerStepKeepsAccounts(l: Ledger, e: Event, l': Ledger)
    requires Accounted(l) && LedgerStep(l, e, l')
    ensures Accounted(l')
    ensures SwitchedOn(l) ==> (SwitchedOn(l') <==> !Meddles(l, e))
    ensures l.host.file == Missing && e != Nothing && !e.UserSetsMode? ==> l'.host.file == Missing || Live(l'.host.file)
  {
    match e
    case Did(Acquire(id)) =>
      if Live(l.host.file) {
        var holders := l.host.file.holders;
        assert id !in holders by { assert id !in Members(holders); }
        assert Members(holders + [id]) == Members(holders) + {id};
      } else {
        assert Members([id]) == {id};
      }
    case Did(Release(id)) =>
      if Live(l.host.file) {
        var holders := l.host.file.holders;
        WithoutMembers(holders, id);
        var rest := Without(holders, id);
        if rest == [] {
          assert Members(rest) == {};
        } else {
          assert rest[0] in Members(rest);
        }
      }
    case UserSetsMode(_) =>
    case Nothing =>
  }

  ghost predicate LedgerRun(ls: seq<Ledger>, es: seq<Event>) {
    && |ls| == |es| + 1
    && forall i :: 0 <= i < |es| ==> LedgerStep(ls[i], es[i], ls[i + 1])
  }

  /** While one episode of leases lasts, the file keeps the mode its first acquire replaced, whatever
      users set the option to in between. */
  lemma {:induction false} EpisodeKeepsOriginal(ls: seq<Ledger>, es: seq<Event>, first: nat, n: nat)
    requires LedgerRun(ls, es) && first < n < |ls|
    requires Accounted(ls[first]) && ls[first].outstanding == {}
    requires forall i :: first < i <= n ==> ls[i].outstanding != {}
    ensures Accounted(ls[n]) && Live(ls[n].host.file)
    ensures Restores(ls[first].host.mode, ls[n].host.file.originalMode)
    decreases n
  {
    LedgerStepKeepsAccounts(ls[n - 1], es[n - 1], ls[n]) by {
      if n - 1 > first {
        EpisodeKeepsOriginal(ls, es, first, n - 1);
      }
    }
    if n - 1 > first {
      EpisodeKeepsOriginal(ls, es, first, n - 1);
    }
  }

  /** The last release of an episode restores the mode that its first acquire read. */
  lemma LastReleaseRestores(ls: seq<Ledger>, es: seq<Event>, first: nat, last: nat)
    requires LedgerRun(ls, es) && first < last < |es|
    requires Accounted(ls[first]) && ls[first].outstanding == {}
    requires forall i :: first < i <= last ==> ls[i].outstanding != {}
    requires ls[last + 1].outstanding == {}
    ensures ls[last + 1].host.file == Missing && Restores(ls[first].host.mode, ls[last + 1].host.mode)
  {
    EpisodeKeepsOriginal(ls, es, first, last);
    LedgerStepKeepsAccounts(ls[last], es[last], ls[last + 1]);
  }
}

module LeaseHost {
  import opened LeaseEffects

  /** Whether show-options and set-option succeed; a refused one throws and changes nothing. */
  datatype Tmux = Tmux(shows: bool, sets: bool)

  /** Taking a lease and giving it back leaves the host as it was; alone, it leaves no file and the mode
      it found. */
  lemma ReleaseUndoesAcquire(h: Host, id: LeaseId)
    requires Live(h.file) ==> id !in h.file.holders
    ensures Live(h.file) ==> Effect(Effect(h, Acquire(id)), Release(id)) == h
    ensures !Live(h.file) ==> var left := Effect(Effect(h, Acquire(id)), Release(id));
                              left.file == Missing && Restores(h.mode, left.mode)
    ensures !Live(h.file) ==> Effect(h, Acquire(id)).mode == "always"
  {
    if Live(h.file) {
      WithoutLast(h.file.holders, id);
    } else {
      assert Without([id][1..], id) == [];
    }
  }

  lemma {:induction false} WithoutLast(holders: seq<LeaseId>, id: LeaseId)
    requires id !in holders
    ensures Without(holders + [id], id) == holders
  {
    if holders == [] {
      assert Without([id][1..], id) == [];
    } else {
      assert (holders + [id])[1..] == holders[1..] + [id];
      WithoutLast(holders[1..], id);
    }
  }

  /** The critical sections of acquireTmuxExtendedKeysLease and releaseTmuxExtendedKeysLease, and
      withTmuxExtendedKeys around them. */
  class TmuxHost {
    var file: LeaseFile
    var mode: string

    function State(): Host
      reads this
    {
      Host(file, mode)
    }

    constructor (file: LeaseFile, mode: string)
      ensures State() == Host(file, mode)
    {
      this.file, this.mode := file, mode;
    }

    /** The whole effect or none: only the first lease needs tmux, and remembers the mode it found. */
    method AcquireInside(leaseId: LeaseId, tmux: Tmux) returns (done: bool)
      modifies this
      ensures done <==> Live(old(file)) || (tmux.shows && tmux.sets)
      ensures State() == if done then Effect(old(State()), Acquire(leaseId)) else old(State())
      ensures done && !Live(old(file)) ==>
                mode == "always" && file.Lease? && file.holders == [leaseId] && Restores(old(mode), file.originalMode)
      ensures done && Live(old(file)) ==>
                mode == old(mode) && file == Lease(old(file).originalMode, old(file).holders + [leaseId])
    {
      var state := file;
      if !state.Lease? || |state.holders| == 0 {
        if !tmux.shows { return false; }
        var previousMode := if mode == "" then FALLBACK_MODE else mode;
        if !tmux.sets { return false; }
        mode := MODE;
        file := Lease(previousMode, [leaseId]);
        return true;
      }
      var holders := state.holders + [leaseId];
      file := Lease(state.originalMode, holders);
      done := true;
    }

    /** The whole effect or none: only the last holder needs tmux, and stays listed when tmux refuses. */
    method ReleaseInside(leaseId: LeaseId, tmux: Tmux) returns (done: bool)
      modifies this
      ensures done <==> !Live(old(file)) || Without(old(file).holders, leaseId) != [] || tmux.sets
      ensures State() == if done then Effect(old(State()), Release(leaseId)) else old(State())
      ensures done && !Live(old(file)) ==> mode == old(mode) && file == Missing
      ensures Live(old(file)) && Without(old(file).holders, leaseId) != [] ==>
                mode == old(mode) && file == Lease(old(file).originalMode, Without(old(file).holders, leaseId))
      ensures done && Live(old(file)) && Without(old(file).holders, leaseId) == [] ==>
                mode == old(file).originalMode && file == Missing
    {
      var state := file;
      if !state.Lease? || |state.holders| == 0 {
        file := Missing;
        return true;
      }
      var holders := Without(state.holders, leaseId);
      if |holders| > 0 {
        file := Lease(state.originalMode, holders);
        return true;
      }
      if !tmux.sets { return false; }
      mode := state.originalMode;
      file := Missing;
      done := true;
    }

    /** withTmuxExtendedKeys around a callback that leaves the host alone. Without a lease the callback
        runs all the same, and nothing is released. */
    method WithExtendedKeys(leaseId: LeaseId, before: Tmux, after: Tmux) returns (leased: bool)
      requires Live(file) ==> leaseId !in file.holders
      modifies this
      ensures leased <==> Live(old(file)) || (before.shows && before.sets)
      ensures !leased || Live(old(file)) ==> State() == old(State())
      ensures leased && !Live(old(file)) && after.sets ==> file == Missing && Restores(old(mode), mode)
      ensures leased && !Live(old(file)) && !after.sets ==>
                mode == "always" && file.Lease? && file.holders == [leaseId] && Restores(old(mode), file.originalMode)
    {
      ghost var found := State();
      leased := AcquireInside(leaseId, before);
      if leased {
        ReleaseUndoesAcquire(found, leaseId);
        if Live(found.file) {
          WithoutLast(found.file.holders, leaseId);
        }
        var released := ReleaseInside(leaseId, after);
      }
    }
  }
}

/** Any number of processes running the lease functions against one lock directory. Each action
    is one lock, lease-file or tmux operation; a process may die at any point, and a user may set the
    option at any moment at which no process is inside. Finding a lock stale and removing it are two
    actions. A lock only grows stale once its pid file is written or its maker is dead, since
    the pid is written at once and staleness takes 30 s. */
module LeaseProtocol {
  import opened LeaseEffects

  type Pid = int

  const LOCK_MAX_ATTEMPTS := 100

  datatype Lock = Free | Held(maker: Pid, pidWritten: bool, aged: bool)

  /** Where a process is. `Created` to `Leaving` lie between making and removing the lock; `Judged` lies
      between finding the lock stale and removing it. */
  datatype PC =
    | Idle
    | Crashed
    | Waiting(op: Op, attempt: nat)
    | Judged(op: Op, attempt: nat)
    | Created(op: Op)
    | Entered(op: Op)
    | Showing(id: LeaseId)
    | Switching(id: LeaseId, previous: string)
    | Recording(id: LeaseId, previous: string)
    | Joining(id: LeaseId, original: string, holders: seq<LeaseId>)
    | Clearing(id: LeaseId)
    | Rewriting(id: LeaseId, original: string, rest: seq<LeaseId>)
    | Restoring(id: LeaseId, original: string)
    | Removing(id: LeaseId, original: string)
    | Leaving(op: Op, done: bool)

  predicate InCriticalSection(pc: PC) {
    !pc.Idle? && !pc.Crashed? && !pc.Waiting? && !pc.Judged?
  }

  /** `base`, `outstanding`, `used` and `torn` are history: the guarded state when the lock was
      last free, the leases handed out, the ids ever drawn, and whether a critical section was
      cut short by a crash. */
  datatype System = System(
    host: Host,
    lock: Lock,
    procs: map<Pid, PC>,
    base: Host,
    outstanding: set<LeaseId>,
    used: set<LeaseId>,
    torn: bool)

  ghost predicate Init(s: System) {
    && s.lock == Free && !Live(s.host.file) && s.base == s.host
    && (forall p :: p in s.procs ==> s.procs[p] == Idle)
    && s.outstanding == {} && s.used == {} && !s.torn
  }

  datatype Action =
    | Start(op: Op) | MakeLock | Contend | Judge | Reap | WritePid | ReadLease
    | ShowMode | SetMode | WriteLease | TmuxFails | RemoveLock
    | Crash | Age | UserSets(mode: string)

  ghost predicate Enabled(s: System, p: Pid, a: Action) {
    && p in s.procs
    && var pc := s.procs[p];
       match a
       case Start(op) => pc == Idle && (op.Acquire? ==> op.id !in s.used)
       case MakeLock => pc.Waiting? && s.lock == Free
       case Contend => pc.Waiting? && s.lock.Held?
       case Judge =>
         pc.Waiting? && s.lock.Held? && s.lock.aged
         && (!s.lock.pidWritten || s.lock.maker !in s.procs || s.procs[s.lock.maker] == Crashed)
       case Reap => pc.Judged?
       case WritePid => pc.Created?
       case ReadLease => pc.Entered?
       case ShowMode => pc.Showing?
       case SetMode => pc.Switching? || pc.Restoring?
       case WriteLease => pc.Recording? || pc.Joining? || pc.Clearing? || pc.Rewriting? || pc.Removing?
       case TmuxFails => pc.Showing? || pc.Switching? || pc.Restoring?
       case RemoveLock => pc.Leaving?
       case Crash => pc != Crashed
       case Age =>
         s.lock.Held? && (s.lock.pidWritten || s.lock.maker !in s.procs || s.procs[s.lock.maker] == Crashed)
       case UserSets(_) => s.lock == Free
  }

  function Retry(op: Op, attempt: nat): PC {
    if attempt + 1 >= LOCK_MAX_ATTEMPTS then Idle else Waiting(op, attempt + 1)
  }

  function AfterRead(op: Op, file: LeaseFile): PC {
    match op
    case Acquire(id) => if Live(file) then Joining(id, file.originalMode, file.holders) else Showing(id)
    case Release(id) =>
      if !Live(file) then Clearing(id)
      else
        var rest := Without(file.holders, id);
        if rest != [] then Rewriting(id, file.originalMode, rest) else Restoring(id, file.originalMode)
  }

  function OpOf(pc: PC): Op
    requires InCriticalSection(pc) || pc.Waiting? || pc.Judged?
  {
    match pc
    case Waiting(op, _) => op
    case Judged(op, _) => op
    case Created(op) => op
    case Entered(op) => op
    case Leaving(op, _) => op
    case Showing(id) => Acquire(id)
    case Switching(id, _) => Acquire(id)
    case Recording(id, _) => Acquire(id)
    case Joining(id, _, _) => Acquire(id)
    case Clearing(id) => Release(id)
    case Rewriting(id, _, _) => Release(id)
    case Restoring(id, _) => Release(id)
    case Removing(id, _) => Release(id)
  }

  function AfterWrite(pc: PC): LeaseFile
    requires pc.Recording? || pc.Joining? || pc.Clearing? || pc.Rewriting? || pc.Removing?
  {
    match pc
    case Recording(id, previous) => Lease(previous, [id])
    case Joining(id, original, holders) => Lease(original, holders + [id])
    case Rewriting(_, original, rest) => Lease(original, rest)
    case Clearing(_) => Missing
    case Removing(_, _) => Missing
  }

  function Settle(outstanding: set<LeaseId>, op: Op): set<LeaseId> {
    if op.Acquire? then outstanding + {op.id} else outstanding - {op.id}
  }

  ghost function Apply(s: System, p: Pid, a: Action): System
    requires Enabled(s, p, a)
  {
    var pc := s.procs[p];
    match a
    case Start(op) =>
      s.(procs := s.procs[p := Waiting(op, 0)], used := if op.Acquire? then s.used + {op.id} else s.used)
    case MakeLock => s.(lock := Held(p, false, false), procs := s.procs[p := Created(pc.op)], base := s.host)
    case Contend => s.(procs := s.procs[p := Retry(pc.op, pc.attempt)])
    case Judge => s.(procs := s.procs[p := Judged(pc.op, pc.attempt)])
    case Reap => s.(lock := Free, procs := s.procs[p := Retry(pc.op, pc.attempt)])
    case WritePid =>
      s.(lock := if s.lock.Held? then s.lock.(pidWritten := true) else s.lock, procs := s.procs[p := Entered(pc.op)])
    case ReadLease => s.(procs := s.procs[p := AfterRead(pc.op, s.host.file)])
    case ShowMode => s.(procs := s.procs[p := Switching(pc.id, ModeToRestore(s.host.mode))])
    case SetMode =>
      if pc.Switching? then
        s.(host := s.host.(mode := MODE), procs := s.procs[p := Recording(pc.id, pc.previous)])
      else
        s.(host := s.host.(mode := pc.original), procs := s.procs[p := Removing(pc.id, pc.original)])
    case WriteLease => s.(host := s.host.(file := AfterWrite(pc)), procs := s.procs[p := Leaving(OpOf(pc), true)])
    case TmuxFails => s.(procs := s.procs[p := Leaving(OpOf(pc), false)])
    case RemoveLock =>
      s.(lock := Free, procs := s.procs[p := Idle], base := s.host,
         outstanding := if pc.done then Settle(s.outstanding, pc.op) else s.outstanding)
    case Crash => s.(procs := s.procs[p := Crashed], torn := s.torn || InCriticalSection(pc))
    case Age => s.(lock := s.lock.(aged := true))
    case UserSets(mode) => s.(host := s.host.(mode := mode), base := s.host.(mode := mode))
  }

  // ----- mutual exclusion, whatever crashes -----

  /** A live process inside is the one that made the lock; a lock whose maker is alive belongs to
      a process inside; and a stale lock never belongs to a live maker that has not written its pid. */
  ghost predicate LockInv(s: System) {
    && (forall p :: p in s.procs && InCriticalSection(s.procs[p]) ==> s.lock.Held? && s.lock.maker == p)
    && (s.lock.Held? ==>
          && s.lock.maker in s.procs
          && (s.procs[s.lock.maker] == Crashed
              || (InCriticalSection(s.procs[s.lock.maker])
                  && (s.lock.pidWritten <==> !s.procs[s.lock.maker].Created?)
                  && (s.lock.aged ==> s.lock.pidWritten))))
  }

  /** The removal of a lock that was found stale takes the lock of a live process away. */
  ghost predicate Evicts(s: System, a: Action) {
    a == Reap && s.lock.Held? && s.lock.maker in s.procs && s.procs[s.lock.maker] != Crashed
  }

  lemma LockKeptExactly(s: System, p: Pid, a: Action)
    requires LockInv(s) && Enabled(s, p, a)
    ensures LockInv(Apply(s, p, a)) <==> !Evicts(s, a)
  {
    if a == Reap {
      var s' := Apply(s, p, a);
      if Evicts(s, a) {
        assert s.lock.maker in s'.procs && InCriticalSection(s'.procs[s.lock.maker]);
      }
    }
  }

  // ----- what a critical section has done so far -----

  /** The guarded state a process inside must see, given the state `base` it found. */
  ghost predicate Progress(pc: PC, base: Host, host: Host) {
    match pc
    case Created(_) => host == base
    case Entered(_) => host == base
    case Showing(_) => host == base && !Live(base.file)
    case Switching(_, previous) => host == base && !Live(base.file) && previous == ModeToRestore(base.mode)
    case Recording(_, previous) =>
      host == base.(mode := MODE) && !Live(base.file) && previous == ModeToRestore(base.mode)
    case Joining(_, original, holders) => host == base && Live(base.file) && base.file == Lease(original, holders)
    case Clearing(_) => host == base && !Live(base.file)
    case Rewriting(id, original, rest) =>
      host == base && Live(base.file) && original == base.file.originalMode
      && rest == Without(base.file.holders, id) && rest != []
    case Restoring(id, original) =>
      host == base && Live(base.file) && original == base.file.originalMode && Without(base.file.holders, id) == []
    case Removing(id, original) =>
      host == base.(mode := original) && Live(base.file) && original == base.file.originalMode
      && Without(base.file.holders, id) == []
    case Leaving(op, done) => host == if done then Effect(base, op) else base
    case Idle => true
    case Crashed => true
    case Waiting(_, _) => true
    case Judged(_, _) => true
  }

  ghost predicate PendingAcquire(pc: PC, id: LeaseId) {
    (InCriticalSection(pc) || pc.Waiting? || pc.Judged?) && OpOf(pc) == Acquire(id)
  }

  ghost predicate IdsInv(s: System) {
    && s.outstanding <= s.used
    && (forall p, id :: p in s.procs && PendingAcquire(s.procs[p], id) ==> id in s.used && id !in s.outstanding)
    && (forall p, q, id :: p in s.procs && q in s.procs && p != q && PendingAcquire(s.procs[p], id)
                           ==> !PendingAcquire(s.procs[q], id))
  }

  /** Holds as long as no critical section was cut short; no lock is found stale before that. */
  ghost predicate DataInv(s: System) {
    && (forall p :: p in s.procs ==> !s.procs[p].Judged?)
    && (s.lock == Free ==> s.base == s.host)
    && (s.lock.Held? ==> s.lock.maker in s.procs && InCriticalSection(s.procs[s.lock.maker])
                         && Progress(s.procs[s.lock.maker], s.base, s.host))
  }

  ghost predicate Inv(s: System) {
    IdsInv(s) && (!s.torn ==> LockInv(s) && DataInv(s))
  }

  /** Acquires are only started with new ids. */
  lemma PendingBefore(s: System, p: Pid, a: Action, q: Pid, id: LeaseId)
    requires Enabled(s, p, a) && q in Apply(s, p, a).procs && PendingAcquire(Apply(s, p, a).procs[q], id)
    ensures q in s.procs
    ensures PendingAcquire(s.procs[q], id) || (q == p && a == Start(Acquire(id)))
  {
  }

  /** Only a lock removal hands out a lease, which was pending and is not any more. */
  lemma OutstandingAfter(s: System, p: Pid, a: Action)
    requires Enabled(s, p, a)
    ensures var s' := Apply(s, p, a);
            && (forall id :: id in s'.outstanding ==>
                  id in s.outstanding || (a == RemoveLock && PendingAcquire(s.procs[p], id) && s'.procs[p] == Idle))
            && s.used <= s'.used && (forall id :: a == Start(Acquire(id)) ==> id !in s.used && id in s'.used)
  {
  }

  lemma StepKeepsIds(s: System, p: Pid, a: Action)
    requires IdsInv(s) && Enabled(s, p, a)
    ensures IdsInv(Apply(s, p, a))
  {
    OutstandingAfter(s, p, a);
    forall q, id | q in Apply(s, p, a).procs && PendingAcquire(Apply(s, p, a).procs[q], id)
      ensures q in s.procs && (PendingAcquire(s.procs[q], id) || (q == p && a == Start(Acquire(id))))
    {
      PendingBefore(s, p, a, q, id);
    }
    IdleIsNotPending();
    hide Enabled, Apply, LockInv, PendingAcquire, DataInv;
  }

  lemma IdleIsNotPending()
    ensures forall id :: !PendingAcquire(Idle, id)
  {
  }

  lemma StepKeepsData(s: System, p: Pid, a: Action)
    requires Inv(s) && Enabled(s, p, a) && !Apply(s, p, a).torn
    ensures DataInv(Apply(s, p, a))
  {
  }

  lemma StepKeepsInv(s: System, p: Pid, a: Action)
    requires Inv(s) && Enabled(s, p, a)
    ensures Inv(Apply(s, p, a))
  {
    StepKeepsIds(s, p, a);
    if !Apply(s, p, a).torn {
      LockKeptExactly(s, p, a);
      StepKeepsData(s, p, a);
    }
  }

  // ----- refinement of whole critical sections -----

  function Abstract(s: System): Ledger {
    Ledger(s.base, s.outstanding)
  }

  ghost function Shown(s: System, p: Pid, a: Action): Event
    requires Enabled(s, p, a)
  {
    match a
    case RemoveLock => if s.procs[p].done then Did(s.procs[p].op) else Nothing
    case UserSets(mode) => UserSetsMode(mode)
    case _ => Nothing
  }

  /** Every action either is invisible outside the critical sections or completes one whole
      critical section with exactly its effect. */
  lemma StepRefines(s: System, p: Pid, a: Action)
    requires Inv(s) && Enabled(s, p, a) && !Apply(s, p, a).torn
    ensures LedgerStep(Abstract(s), Shown(s, p, a), Abstract(Apply(s, p, a)))
  {
    if a == RemoveLock {
      var pc := s.procs[p];
      if pc.done && pc.op.Acquire? {
        assert PendingAcquire(pc, pc.op.id);
      }
    }
  }

  // ----- runs -----

  datatype Label = Label(p: Pid, a: Action)

  ghost predicate Run(ss: seq<System>, ls: seq<Label>) {
    && |ss| == |ls| + 1 && Init(ss[0])
    && forall i :: 0 <= i < |ls| ==> Enabled(ss[i], ls[i].p, ls[i].a) && ss[i + 1] == Apply(ss[i], ls[i].p, ls[i].a)
  }

  lemma {:induction false} RunKeepsInv(ss: seq<System>, ls: seq<Label>, n: nat)
    requires Run(ss, ls) && n < |ss|
    ensures Inv(ss[n])
  {
    if n > 0 {
      RunKeepsInv(ss, ls, n - 1);
      StepKeepsInv(ss[n - 1], ls[n - 1].p, ls[n - 1].a);
    }
  }

  // ----- how long a process waits -----

  /** How often the process found the lock taken since its operation began. */
  ghost function Tries(ls: seq<Label>, n: nat, p: Pid): nat
    requires n <= |ls|
  {
    if n == 0 || (ls[n - 1].p == p && ls[n - 1].a.Start?) then 0
    else Tries(ls, n - 1, p) + (if Tried(ls[n - 1], p) then 1 else 0)
  }

  predicate AtTheLock(s: System, p: Pid) { p in s.procs && (s.procs[p].Waiting? || s.procs[p].Judged?) }

  predicate Tried(l: Label, p: Pid) { l.p == p && (l.a == Contend || l.a == Reap) }

  lemma TriesStep(s: System, l: Label, p: Pid)
    requires Enabled(s, l.p, l.a) && AtTheLock(Apply(s, l.p, l.a), p)
    ensures var pc := Apply(s, l.p, l.a).procs[p];
            if l.p == p && l.a.Start? then pc.attempt == 0
            else AtTheLock(s, p) && pc.attempt == s.procs[p].attempt + (if Tried(l, p) then 1 else 0)
    ensures Tried(l, p) ==> Apply(s, l.p, l.a).procs[p].attempt < 100
  {
  }

  lemma TriesEnd(s: System, l: Label, p: Pid)
    requires Enabled(s, l.p, l.a) && AtTheLock(s, p) && Tried(l, p)
    ensures Apply(s, l.p, l.a).procs[p] == Idle <==> s.procs[p].attempt + 1 >= 100
  {
  }

  lemma NobodyWaits(s: System, p: Pid)
    requires Init(s)
    ensures !AtTheLock(s, p)
  {
  }

  /** A process that waits has found the lock taken fewer than 100 times, and the hundredth time it
      gives up. */
  lemma {:induction false} GivesUpAfter(ss: seq<System>, ls: seq<Label>, n: nat, p: Pid)
    requires Run(ss, ls) && n < |ss| && AtTheLock(ss[n], p)
    ensures ss[n].procs[p].attempt == Tries(ls, n, p) < 100
    ensures n < |ls| && Tried(ls[n], p) ==> (ss[n + 1].procs[p] == Idle <==> Tries(ls, n + 1, p) == 100)
  {
    hide Enabled, Apply, Init;
    NobodyWaits(ss[0], p);
    assert n > 0;
    var l := ls[n - 1];
    assert Enabled(ss[n - 1], l.p, l.a) && ss[n] == Apply(ss[n - 1], l.p, l.a);
    TriesStep(ss[n - 1], l, p);
    if !(l.p == p && l.a.Start?) {
      GivesUpAfter(ss, ls, n - 1, p);
    }
    if n < |ls| && Tried(ls[n], p) {
      assert Enabled(ss[n], ls[n].p, ls[n].a) && ss[n + 1] == Apply(ss[n], ls[n].p, ls[n].a);
      TriesEnd(ss[n], ls[n], p);
    }
  }

  // ----- when stale locks are removed -----

  /** Up to point `n` no lock of a live process was removed as stale. */
  ghost predicate Orderly(ss: seq<System>, ls: seq<Label>, n: nat)
    requires Run(ss, ls) && n < |ss|
  {
    forall i :: 0 <= i < n ==> !Evicts(ss[i], ls[i].a)
  }

  lemma {:induction false} RunKeepsLock(ss: seq<System>, ls: seq<Label>, n: nat)
    requires Run(ss, ls) && n < |ss| && Orderly(ss, ls, n)
    ensures LockInv(ss[n])
  {
    if n > 0 {
      RunKeepsLock(ss, ls, n - 1);
      LockKeptExactly(ss[n - 1], ls[n - 1].p, ls[n - 1].a);
    }
  }

  /** With crashes anywhere: the lock is of the process inside, at every point so far, exactly as long as
      no removal of a stale lock came so late that it took a new one. */
  lemma LockHeldExactly(ss: seq<System>, ls: seq<Label>, n: nat)
    requires Run(ss, ls) && n < |ss|
    ensures (forall i :: 0 <= i <= n ==> LockInv(ss[i])) <==> Orderly(ss, ls, n)
  {
    hide LockInv, Enabled, Apply, Init;
    if Orderly(ss, ls, n) {
      forall i | 0 <= i <= n ensures LockInv(ss[i]) { RunKeepsLock(ss, ls, i); }
    }
    if forall i :: 0 <= i <= n ==> LockInv(ss[i]) {
      forall i | 0 <= i < n ensures !Evicts(ss[i], ls[i].a) {
        assert LockInv(ss[i + 1]);
        LockKeptExactly(ss[i], ls[i].p, ls[i].a);
      }
    }
  }

  /** Then at most one live process is inside a critical section. */
  lemma MutualExclusion(ss: seq<System>, ls: seq<Label>, n: nat, p: Pid, q: Pid)
    requires Run(ss, ls) && n < |ss| && Orderly(ss, ls, n) && p in ss[n].procs && q in ss[n].procs
    requires InCriticalSection(ss[n].procs[p]) && InCriticalSection(ss[n].procs[q])
    ensures p == q
  {
    RunKeepsLock(ss, ls, n);
  }

  /** After such a late removal, the process that made it can enter at once, next to the one inside. */
  lemma EvictionLetsTwoIn(s: System, p: Pid)
    requires LockInv(s) && Enabled(s, p, Reap) && Evicts(s, Reap) && s.procs[p].attempt + 1 < LOCK_MAX_ATTEMPTS
    ensures var t := Apply(s, p, Reap);
            Enabled(t, p, MakeLock)
            && (var u := Apply(t, p, MakeLock);
                exists q :: q in u.procs && q != p && InCriticalSection(u.procs[q]) && InCriticalSection(u.procs[p]))
  {
    var t := Apply(s, p, Reap);
    var u := Apply(t, p, MakeLock);
    assert s.lock.maker in u.procs && InCriticalSection(u.procs[s.lock.maker]);
  }

  /** A lock that is found stale was made by a process that is dead, and nobody is inside. */
  lemma StaleMeansDead(ss: seq<System>, ls: seq<Label>, n: nat)
    requires Run(ss, ls) && n < |ls| && Orderly(ss, ls, n) && ls[n].a == Judge
    ensures Abandoned(ss[n]) && ss[n + 1].procs[ls[n].p].Judged?
    ensures forall p :: p in ss[n].procs ==> !InCriticalSection(ss[n].procs[p])
  {
    RunKeepsLock(ss, ls, n);
    assert Enabled(ss[n], ls[n].p, ls[n].a);
  }

  /** The maker of the lock is dead. */
  ghost predicate Abandoned(s: System) {
    s.lock.Held? && s.lock.maker in s.procs && s.procs[s.lock.maker] == Crashed
  }

  lemma OnlyReapFrees(s: System, p: Pid, a: Action)
    requires LockInv(s) && Enabled(s, p, a) && Abandoned(s) && a != Reap
    ensures Abandoned(Apply(s, p, a))
  {
  }

  lemma JudgedBefore(s: System, q: Pid, a: Action, p: Pid)
    requires Enabled(s, q, a) && p in Apply(s, q, a).procs && Apply(s, q, a).procs[p].Judged?
    ensures p in s.procs && if q == p then a == Judge || a == Age || a.UserSets? else s.procs[p].Judged?
  {
  }

  /** Where the process found the lock stale. */
  lemma {:induction false} JudgeOf(ss: seq<System>, ls: seq<Label>, n: nat, p: Pid) returns (k: nat)
    requires Run(ss, ls) && n < |ss| && p in ss[n].procs && ss[n].procs[p].Judged?
    ensures k < n && ls[k] == Label(p, Judge)
    ensures forall i :: k < i <= n ==> p in ss[i].procs && ss[i].procs[p].Judged?
  {
    k := n - 1;
    JudgedBefore(ss[k], ls[k].p, ls[k].a, p);
    if ls[k] != Label(p, Judge) {
      k := JudgeOf(ss, ls, k, p);
    }
  }

  lemma {:induction false} StaysAbandoned(ss: seq<System>, ls: seq<Label>, k: nat, n: nat)
    requires Run(ss, ls) && k <= n < |ss| && Orderly(ss, ls, n) && Abandoned(ss[k])
    requires forall i :: k <= i < n ==> ls[i].a != Reap
    ensures Abandoned(ss[n])
  {
    if k < n {
      StaysAbandoned(ss, ls, k, n - 1);
      RunKeepsLock(ss, ls, n - 1);
      OnlyReapFrees(ss[n - 1], ls[n - 1].p, ls[n - 1].a);
    }
  }

  /** A removal comes too late only when another process removed a stale lock after this one had found
      the lock stale: with one process waiting it never does. */
  lemma LateReapNeedsAnother(ss: seq<System>, ls: seq<Label>, n: nat) returns (k: nat, j: nat)
    requires Run(ss, ls) && n < |ls| && Orderly(ss, ls, n) && Evicts(ss[n], ls[n].a)
    ensures k < j < n && ls[k] == Label(ls[n].p, Judge) && Abandoned(ss[k])
    ensures ls[j].a == Reap && ls[j].p != ls[n].p
  {
    var p := ls[n].p;
    assert Enabled(ss[n], p, Reap);
    k := JudgeOf(ss, ls, n, p);
    StaleMeansDead(ss, ls, k);
    if forall i :: k <= i < n ==> ls[i].a != Reap {
      StaysAbandoned(ss, ls, k, n);
      assert false;
    }
    j :| k <= j < n && ls[j].a == Reap;
    assert Enabled(ss[j], ls[j].p, Reap) && ss[j + 1] == Apply(ss[j], ls[j].p, Reap);
  }

  lemma {:induction false} TornStays(ss: seq<System>, ls: seq<Label>, m: nat, n: nat)
    requires Run(ss, ls) && m <= n < |ss| && ss[m].torn
    ensures ss[n].torn
  {
    if m < n {
      TornStays(ss, ls, m, n - 1);
    }
  }

  lemma StaysWhole(ss: seq<System>, ls: seq<Label>, m: nat, n: nat)
    requires Run(ss, ls) && m <= n < |ss| && !ss[n].torn
    ensures !ss[m].torn
  {
    if ss[m].torn { TornStays(ss, ls, m, n); }
  }

  ghost function Ledgers(ss: seq<System>): seq<Ledger> {
    seq(|ss|, i requires 0 <= i < |ss| => Abstract(ss[i]))
  }

  ghost function Events(ss: seq<System>, ls: seq<Label>): seq<Event>
    requires Run(ss, ls)
  {
    seq(|ls|, i requires 0 <= i < |ls| => Shown(ss[i], ls[i].p, ls[i].a))
  }

  /** Every run in which no critical section was cut short is, seen from outside, a run of whole
      critical sections. */
  lemma RunRefines(ss: seq<System>, ls: seq<Label>)
    requires Run(ss, ls) && !ss[|ls|].torn
    ensures LedgerRun(Ledgers(ss), Events(ss, ls))
  {
    forall i | 0 <= i < |ls|
      ensures LedgerStep(Ledgers(ss)[i], Events(ss, ls)[i], Ledgers(ss)[i + 1])
    {
      RunKeepsInv(ss, ls, i);
      StaysWhole(ss, ls, i + 1, |ls|);
      StepRefines(ss[i], ls[i].p, ls[i].a);
    }
  }

  /** No user changed the option while leases were outstanding, up to point `n`. */
  ghost predicate Unmeddled(ss: seq<System>, ls: seq<Label>, n: nat)
    requires Run(ss, ls) && n < |ss|
  {
    forall i :: 0 <= i < n ==> !Meddles(Abstract(ss[i]), Shown(ss[i], ls[i].p, ls[i].a))
  }

  lemma {:induction false} RunIsAccounted(ss: seq<System>, ls: seq<Label>, n: nat)
    requires Run(ss, ls) && n < |ss| && !ss[n].torn
    ensures Accounted(Abstract(ss[n]))
    ensures Unmeddled(ss, ls, n) ==> SwitchedOn(Abstract(ss[n]))
    ensures ss[0].host.file == Missing ==> ss[n].base.file == Missing || Live(ss[n].base.file)
  {
    if n > 0 {
      StaysWhole(ss, ls, n - 1, n);
      RunIsAccounted(ss, ls, n - 1);
      RunKeepsInv(ss, ls, n - 1);
      var e := Shown(ss[n - 1], ls[n - 1].p, ls[n - 1].a);
      StepRefines(ss[n - 1], ls[n - 1].p, ls[n - 1].a);
      LedgerStepKeepsAccounts(Abstract(ss[n - 1]), e, Abstract(ss[n]));
    }
  }

  /** Whenever no one is inside: the lease file exists exactly while leases are outstanding, its
      holders are exactly those, and the option is then "always" unless a user changed it. */
  lemma QuietStateIsAccounted(ss: seq<System>, ls: seq<Label>, n: nat)
    requires Run(ss, ls) && n < |ss| && !ss[n].torn && ss[n].lock == Free
    ensures Accounted(Ledger(ss[n].host, ss[n].outstanding))
    ensures Unmeddled(ss, ls, n) && ss[n].outstanding != {} ==> ss[n].host.mode == "always"
    ensures ss[0].host.file == Missing ==> (ss[n].host.file != Missing <==> ss[n].outstanding != {})
  {
    RunKeepsInv(ss, ls, n);
    RunIsAccounted(ss, ls, n);
  }

  // ----- what the last release restores -----

  /** Between points `first` and `last + 1` lies one episode: leases are outstanding after the lock
      removal `first`, up to the lock removal `last`. */
  ghost predicate Episode(ss: seq<System>, ls: seq<Label>, first: nat, last: nat) {
    && Run(ss, ls) && first < last < |ls| && !ss[|ls|].torn
    && ss[first].outstanding == {} && ss[last + 1].outstanding == {}
    && forall i :: first < i <= last ==> ss[i].outstanding != {}
  }

  lemma EpisodeRestoresBase(ss: seq<System>, ls: seq<Label>, first: nat, last: nat)
    requires Episode(ss, ls, first, last)
    ensures ss[last + 1].host.file == Missing && Restores(ss[first].base.mode, ss[last + 1].host.mode)
  {
    hide Enabled, Apply, Init, LedgerStep, Accounted, Inv, Shown, Live;
    RunRefines(ss, ls);
    StaysWhole(ss, ls, first, |ls|);
    RunIsAccounted(ss, ls, first);
    var es := Events(ss, ls);
    assert Ledgers(ss)[first] == Abstract(ss[first]);
    assert forall i :: first < i <= last ==> Ledgers(ss)[i] == Abstract(ss[i]);
    assert Ledgers(ss)[last + 1] == Abstract(ss[last + 1]);
    LastReleaseRestores(Ledgers(ss), es, first, last);
    FreeAfterEpisode(ss, ls, first, last);
  }

  /** The action that ends the episode removes the lock, so what it left is what others see. */
  lemma FreeAfterEpisode(ss: seq<System>, ls: seq<Label>, first: nat, last: nat)
    requires Episode(ss, ls, first, last)
    ensures ss[last + 1].host == ss[last + 1].base
  {
    assert ss[last].outstanding != {} && ss[last + 1] == Apply(ss[last], ls[last].p, ls[last].a);
    assert Enabled(ss[last], ls[last].p, ls[last].a);
    OnlyRemovalSettles(ss[last], ls[last].p, ls[last].a);
  }

  lemma OnlyRemovalSettles(s: System, p: Pid, a: Action)
    requires Enabled(s, p, a) && Apply(s, p, a).outstanding != s.outstanding
    ensures a == RemoveLock && Apply(s, p, a).base == Apply(s, p, a).host
  {
  }

  /** The process is past the show-options call of a first acquire. */
  ghost predicate PastShow(s: System, p: Pid) {
    && p in s.procs
    && var pc := s.procs[p];
       pc.Switching? || pc.Recording? || (pc.Leaving? && pc.op.Acquire? && pc.done && !Live(s.base.file))
  }

  lemma PastShowBefore(s: System, q: Pid, a: Action, p: Pid)
    requires Inv(s) && Enabled(s, q, a) && !Apply(s, q, a).torn && PastShow(Apply(s, q, a), p)
    ensures Apply(s, q, a).base == s.base
    ensures if q == p && a == ShowMode then s.host == s.base else PastShow(s, p) && (q == p ==> !a.Start?)
  {
  }

  /** The mode such a process read is the one that was set when it made the lock. */
  lemma {:induction false} ShownMode(ss: seq<System>, ls: seq<Label>, n: nat, p: Pid) returns (k: nat)
    requires Run(ss, ls) && n < |ss| && !ss[n].torn && PastShow(ss[n], p)
    ensures k < n && ls[k] == Label(p, ShowMode) && ss[k].host.mode == ss[n].base.mode
    ensures forall j :: k < j < n && ls[j].p == p ==> !ls[j].a.Start?
  {
    k := n - 1;
    StaysWhole(ss, ls, k, n);
    RunKeepsInv(ss, ls, k);
    PastShowBefore(ss[k], ls[k].p, ls[k].a, p);
    if ls[k] != Label(p, ShowMode) {
      k := ShownMode(ss, ls, k, p);
    }
  }

  lemma FirstLeave(s: System, p: Pid, a: Action)
    requires Inv(s) && Enabled(s, p, a) && !s.torn && Accounted(Abstract(s))
    requires s.outstanding == {} && Apply(s, p, a).outstanding != {}
    ensures a == RemoveLock && PastShow(s, p)
  {
  }

  /** When an episode of leases ends, there is no lease file and tmux has the mode that the first
      acquire of the episode was shown, in the same operation that handed out the first lease. */
  lemma EpisodeRestoresMode(ss: seq<System>, ls: seq<Label>, first: nat, last: nat) returns (k: nat)
    requires Episode(ss, ls, first, last)
    ensures k < first && ls[first].a == RemoveLock && ls[k] == Label(ls[first].p, ShowMode)
    ensures forall j :: k < j < first && ls[j].p == ls[first].p ==> !ls[j].a.Start?
    ensures ss[last + 1].host.file == Missing && Restores(ss[k].host.mode, ss[last + 1].host.mode)
  {
    EpisodeRestoresBase(ss, ls, first, last);
    StaysWhole(ss, ls, first, |ls|);
    RunKeepsInv(ss, ls, first);
    RunIsAccounted(ss, ls, first);
    assert ss[first + 1].outstanding != {} && ss[first + 1] == Apply(ss[first], ls[first].p, ls[first].a);
    FirstLeave(ss[first], ls[first].p, ls[first].a);
    k := ShownMode(ss, ls, first, ls[first].p);
  }

  // ----- a run with an episode in it -----

  /** One process, with the guarded state as given. */
  function Alone(host: Host, lock: Lock, pc: PC, base: Host, outstanding: set<LeaseId>, used: set<LeaseId>): System {
    System(host, lock, map[1 := pc], base, outstanding, used, false)
  }

  const SampleActions: seq<Action> :=
    [Start(Acquire("id")), MakeLock, WritePid, ReadLease, ShowMode, SetMode, WriteLease, RemoveLock,
     Start(Release("id")), MakeLock, WritePid, ReadLease, SetMode, WriteLease, RemoveLock]

  /** One lease taken and given back by one process: the state before each action, and the last one. */
  function SampleState(mode: string, i: nat): System {
    var free, m := Host(Missing, mode), ModeToRestore(mode);
    var taken := Host(Lease(m, ["id"]), MODE);
    var made, held := Held(1, false, false), Held(1, true, false);
    if i < 8 then
      (if i == 0 then Alone(free, Free, Idle, free, {}, {})
       else if i == 1 then Alone(free, Free, Waiting(Acquire("id"), 0), free, {}, {"id"})
       else if i == 2 then Alone(free, made, Created(Acquire("id")), free, {}, {"id"})
       else if i == 3 then Alone(free, held, Entered(Acquire("id")), free, {}, {"id"})
       else if i == 4 then Alone(free, held, Showing("id"), free, {}, {"id"})
       else if i == 5 then Alone(free, held, Switching("id", m), free, {}, {"id"})
       else if i == 6 then Alone(Host(Missing, MODE), held, Recording("id", m), free, {}, {"id"})
       else Alone(taken, held, Leaving(Acquire("id"), true), free, {}, {"id"}))
    else if i < 15 then
      (if i == 8 then Alone(taken, Free, Idle, taken, {"id"}, {"id"})
       else if i == 9 then Alone(taken, Free, Waiting(Release("id"), 0), taken, {"id"}, {"id"})
       else if i == 10 then Alone(taken, made, Created(Release("id")), taken, {"id"}, {"id"})
       else if i == 11 then Alone(taken, held, Entered(Release("id")), taken, {"id"}, {"id"})
       else if i == 12 then Alone(taken, held, Restoring("id", m), taken, {"id"}, {"id"})
       else if i == 13 then Alone(taken.(mode := m), held, Removing("id", m), taken, {"id"}, {"id"})
       else Alone(Host(Missing, m), held, Leaving(Release("id"), true), taken, {"id"}, {"id"}))
    else Alone(Host(Missing, m), Free, Idle, Host(Missing, m), {}, {"id"})
  }

  ghost predicate Next(s: System, p: Pid, a: Action, t: System) {
    Enabled(s, p, a) && t == Apply(s, p, a)
  }

  lemma SampleEnters(mode: string, i: nat)
    requires i < 4
    ensures Next(SampleState(mode, i), 1, SampleActions[i], SampleState(mode, i + 1))
  {
    assert SampleState(mode, i + 1).procs == SampleState(mode, i).procs[1 := SampleState(mode, i + 1).procs[1]];
  }

  lemma SampleAcquires(mode: string, i: nat)
    requires 4 <= i < 8
    ensures Next(SampleState(mode, i), 1, SampleActions[i], SampleState(mode, i + 1))
  {
    assert SampleState(mode, i + 1).procs == SampleState(mode, i).procs[1 := SampleState(mode, i + 1).procs[1]];
  }

  lemma SampleReleases(mode: string, i: nat)
    requires 8 <= i < 12
    ensures Next(SampleState(mode, i), 1, SampleActions[i], SampleState(mode, i + 1))
  {
    assert Without(["id"][1..], "id") == [];
    assert SampleState(mode, i + 1).procs == SampleState(mode, i).procs[1 := SampleState(mode, i + 1).procs[1]];
  }

  lemma SampleRestores(mode: string, i: nat)
    requires 12 <= i < 15
    ensures Next(SampleState(mode, i), 1, SampleActions[i], SampleState(mode, i + 1))
  {
    assert SampleState(mode, i + 1).procs == SampleState(mode, i).procs[1 := SampleState(mode, i + 1).procs[1]];
  }

  /** There are runs with an episode in them, from any mode. */
  lemma EpisodeExists(mode: string)
    ensures var ss := seq(16, i requires 0 <= i < 16 => SampleState(mode, i));
            var ls := seq(15, i requires 0 <= i < 15 => Label(1, SampleActions[i]));
            Episode(ss, ls, 7, 14) && ss[4].host.mode == mode
  {
    var ss := seq(16, i requires 0 <= i < 16 => SampleState(mode, i));
    var ls := seq(15, i requires 0 <= i < 15 => Label(1, SampleActions[i]));
    assert forall i :: 0 <= i < 16 ==> (ss[i].outstanding == {} <==> i < 8 || i == 15);
    assert Init(ss[0]) && !ss[15].torn;
    hide Enabled, Apply, SampleState, Init;
    forall i | 0 <= i < |ls| ensures Enabled(ss[i], ls[i].p, ls[i].a) && ss[i + 1] == Apply(ss[i], ls[i].p, ls[i].a) {
      if i < 4 { SampleEnters(mode, i); }
      else if i < 8 { SampleAcquires(mode, i); }
      else if i < 12 { SampleReleases(mode, i); }
      else { SampleRestores(mode, i); }
    }
  }

  // ----- a run with two processes inside -----

  const RaceLabels: seq<Label> :=
    [Label(1, Start(Acquire("a"))), Label(1, MakeLock), Label(1, Crash), Label(1, Age),
     Label(2, Start(Acquire("b"))), Label(3, Start(Acquire("c"))), Label(2, Judge), Label(3, Judge),
     Label(2, Reap), Label(2, MakeLock), Label(3, Reap), Label(3, MakeLock)]

  /** Three processes; nobody reads or writes the guarded state. */
  function Three(host: Host, lock: Lock, one: PC, two: PC, three: PC, used: set<LeaseId>, torn: bool): System {
    System(host, lock, map[1 := one, 2 := two, 3 := three], host, {}, used, torn)
  }

  function RaceState(host: Host, i: nat): System {
    var b, c := Acquire("b"), Acquire("c");
    if i < 4 then
      (if i == 0 then Three(host, Free, Idle, Idle, Idle, {}, false)
       else if i == 1 then Three(host, Free, Waiting(Acquire("a"), 0), Idle, Idle, {"a"}, false)
       else if i == 2 then Three(host, Held(1, false, false), Created(Acquire("a")), Idle, Idle, {"a"}, false)
       else Three(host, Held(1, false, false), Crashed, Idle, Idle, {"a"}, true))
    else if i < 9 then
      (var stale := Held(1, false, true);
       if i == 4 then Three(host, stale, Crashed, Idle, Idle, {"a"}, true)
       else if i == 5 then Three(host, stale, Crashed, Waiting(b, 0), Idle, {"a", "b"}, true)
       else if i == 6 then Three(host, stale, Crashed, Waiting(b, 0), Waiting(c, 0), {"a", "b", "c"}, true)
       else if i == 7 then Three(host, stale, Crashed, Judged(b, 0), Waiting(c, 0), {"a", "b", "c"}, true)
       else Three(host, stale, Crashed, Judged(b, 0), Judged(c, 0), {"a", "b", "c"}, true))
    else if i == 9 then Three(host, Free, Crashed, Waiting(b, 1), Judged(c, 0), {"a", "b", "c"}, true)
    else if i == 10 then Three(host, Held(2, false, false), Crashed, Created(b), Judged(c, 0), {"a", "b", "c"}, true)
    else if i == 11 then Three(host, Free, Crashed, Created(b), Waiting(c, 1), {"a", "b", "c"}, true)
    else Three(host, Held(3, false, false), Crashed, Created(b), Created(c), {"a", "b", "c"}, true)
  }

  lemma RaceStarts(host: Host, i: nat)
    requires i < 6
    ensures Next(RaceState(host, i), RaceLabels[i].p, RaceLabels[i].a, RaceState(host, i + 1))
  {
    var p := RaceLabels[i].p;
    assert RaceState(host, i + 1).procs == RaceState(host, i).procs[p := RaceState(host, i + 1).procs[p]];
  }

  lemma RaceEnds(host: Host, i: nat)
    requires 6 <= i < 12
    ensures Next(RaceState(host, i), RaceLabels[i].p, RaceLabels[i].a, RaceState(host, i + 1))
  {
    var p := RaceLabels[i].p;
    assert RaceState(host, i + 1).procs == RaceState(host, i).procs[p := RaceState(host, i + 1).procs[p]];
  }

  /** From any state of the option: two processes find the lock of a dead one stale, both remove it, the
      second removal takes the lock of the first, and both are inside. */
  lemma ExclusionFails(mode: string)
    ensures var ss := seq(13, i requires 0 <= i < 13 => RaceState(Host(Missing, mode), i));
            Run(ss, RaceLabels) && InCriticalSection(ss[12].procs[2]) && InCriticalSection(ss[12].procs[3])
  {
    var host := Host(Missing, mode);
    var ss := seq(13, i requires 0 <= i < 13 => RaceState(host, i));
    assert Init(ss[0]) && |RaceLabels| == 12;
    assert ss[12].procs[2] == Created(Acquire("b")) && ss[12].procs[3] == Created(Acquire("c"));
    hide Enabled, Apply, RaceState, Init, RaceLabels;
    forall i | 0 <= i < 12
      ensures Enabled(ss[i], RaceLabels[i].p, RaceLabels[i].a) && ss[i + 1] == Apply(ss[i], RaceLabels[i].p, RaceLabels[i].a)
    {
      if i < 6 { RaceStarts(host, i); } else { RaceEnds(host, i); }
    }
  }
}
