/** The orphan cleanup of src/cli/cleanup.ts over an arbitrary process table: which processes are
    protected, which are candidates, and how they are signalled and counted. The command-line
    patterns are parameters. */
module ProcessGraph {
  type Pid = int

  datatype ProcessEntry = ProcessEntry(pid: Pid, ppid: Pid, command: string)

  /** The three command-line tests: an MCP server, a copilot session, an omcp launcher. */
  datatype Patterns = Patterns(
    isMcpServer: string -> bool,
    isCodexSession: string -> bool,
    isOmcpLaunch: string -> bool)

  /** The table keyed by pid, the last entry of a pid winning as in a JavaScript Map. */
  function ByPid(table: seq<ProcessEntry>): map<Pid, ProcessEntry> {
    if table == [] then map[]
    else ByPid(table[..|table| - 1])[table[|table| - 1].pid := table[|table| - 1]]
  }

  lemma {:induction false} ByPidFinds(table: seq<ProcessEntry>, pid: Pid)
    ensures pid in ByPid(table) ==> ByPid(table)[pid] in table && ByPid(table)[pid].pid == pid
    ensures (forall e :: e in table ==> e.pid != pid) ==> pid !in ByPid(table)
    ensures (exists e :: e in table && e.pid == pid) ==> pid in ByPid(table)
  {
    if table != [] {
      var n := |table| - 1;
      ByPidFinds(table[..n], pid);
      assert table == table[..n] + [table[n]];
    }
  }

  ghost predicate DistinctPids(table: seq<ProcessEntry>) {
    forall i, j :: 0 <= i < j < |table| ==> table[i].pid != table[j].pid
  }

  lemma {:induction false} ByPidIsTheEntry(table: seq<ProcessEntry>, e: ProcessEntry)
    requires DistinctPids(table) && e in table
    ensures e.pid in ByPid(table) && ByPid(table)[e.pid] == e
  {
    var n := |table| - 1;
    if e != table[n] {
      assert e in table[..n];
      ByPidIsTheEntry(table[..n], e);
    }
  }

  // ----- ancestors -----

  /** The parent of a listed process, or 0 where the links leave the table. */
  function ParentIn(byPid: map<Pid, ProcessEntry>, pid: Pid): Pid {
    if pid in byPid && byPid[pid].ppid > 0 && byPid[pid].ppid in byPid then byPid[pid].ppid else 0
  }

  /** The `n`-th parent above `pid`, or 0 when there is none. */
  function AncestorAt(byPid: map<Pid, ProcessEntry>, pid: Pid, n: nat): Pid {
    if n == 0 then ParentIn(byPid, pid)
    else
      var below := AncestorAt(byPid, pid, n - 1);
      if below > 0 then ParentIn(byPid, below) else 0
  }

  ghost predicate MatchesAt(byPid: map<Pid, ProcessEntry>, pid: Pid, matches: string -> bool, n: nat) {
    var a := AncestorAt(byPid, pid, n);
    a > 0 && a in byPid && matches(byPid[a].command)
  }

  ghost predicate HasAncestor(byPid: map<Pid, ProcessEntry>, pid: Pid, matches: string -> bool) {
    exists n: nat :: MatchesAt(byPid, pid, matches, n)
  }

  /** Listed processes, each the parent of the one before; the first is the parent of `pid`. */
  ghost predicate AncestorPath(byPid: map<Pid, ProcessEntry>, pid: Pid, path: seq<Pid>) {
    && pid in byPid && path != [] && path[0] == byPid[pid].ppid
    && (forall i :: 0 <= i < |path| ==> path[i] > 0 && path[i] in byPid)
    && (forall i :: 0 <= i < |path| - 1 ==> path[i + 1] == byPid[path[i]].ppid)
  }

  lemma {:induction false} AncestorPathAt(byPid: map<Pid, ProcessEntry>, pid: Pid, path: seq<Pid>)
    requires AncestorPath(byPid, pid, path)
    ensures AncestorAt(byPid, pid, |path| - 1) == path[|path| - 1]
    decreases |path|
  {
    var n := |path| - 1;
    if n > 0 {
      AncestorPathAt(byPid, pid, path[..n]);
      assert path[n] == byPid[path[n - 1]].ppid;
    }
  }

  lemma {:induction false} AncestorAtPath(byPid: map<Pid, ProcessEntry>, pid: Pid, n: nat) returns (path: seq<Pid>)
    requires AncestorAt(byPid, pid, n) > 0
    ensures AncestorPath(byPid, pid, path) && path[|path| - 1] == AncestorAt(byPid, pid, n)
  {
    if n == 0 {
      path := [byPid[pid].ppid];
    } else {
      path := AncestorAtPath(byPid, pid, n - 1);
      path := path + [byPid[path[|path| - 1]].ppid];
    }
  }

  /** An ancestor that matches stands at the end of such a path, and the other way round. */
  lemma AncestorIff(byPid: map<Pid, ProcessEntry>, pid: Pid, matches: string -> bool)
    ensures HasAncestor(byPid, pid, matches)
            <==> exists path :: AncestorPath(byPid, pid, path) && matches(byPid[path[|path| - 1]].command)
  {
    if n: nat :| MatchesAt(byPid, pid, matches, n) {
      var path := AncestorAtPath(byPid, pid, n);
      assert AncestorPath(byPid, pid, path) && matches(byPid[path[|path| - 1]].command);
    }
    if path :| AncestorPath(byPid, pid, path) && matches(byPid[path[|path| - 1]].command) {
      AncestorPathAt(byPid, pid, path);
      assert MatchesAt(byPid, pid, matches, |path| - 1);
    }
  }

  /** Once the links leave the table they never come back. */
  lemma {:induction false} AncestorsEnd(byPid: map<Pid, ProcessEntry>, pid: Pid, m: nat, n: nat)
    requires m <= n && AncestorAt(byPid, pid, m) == 0
    ensures AncestorAt(byPid, pid, n) == 0
    decreases n
  {
    if m < n {
      AncestorsEnd(byPid, pid, m, n - 1);
    }
  }

  /** A set of pids closed under parents holds every ancestor once it holds the first. */
  lemma {:induction false} ClosedUnderParents(byPid: map<Pid, ProcessEntry>, pid: Pid, seen: set<Pid>, k: nat, n: nat)
    requires k <= n && AncestorAt(byPid, pid, k) in seen
    requires forall p :: p in seen ==> ParentIn(byPid, p) == 0 || ParentIn(byPid, p) in seen
    ensures AncestorAt(byPid, pid, n) == 0 || AncestorAt(byPid, pid, n) in seen
    decreases n
  {
    if k < n {
      ClosedUnderParents(byPid, pid, seen, k, n - 1);
    }
  }

  /** After `steps` parents: all of them are in `seen`, none matched, and `here` is the next one. */
  ghost predicate Searched(byPid: map<Pid, ProcessEntry>, pid: Pid, matches: string -> bool, seen: set<Pid>, steps: nat, here: Pid) {
    && here == AncestorAt(byPid, pid, steps)
    && (forall k: nat :: k < steps ==> AncestorAt(byPid, pid, k) in seen)
    && (forall p :: p in seen ==> exists k: nat :: k < steps && AncestorAt(byPid, pid, k) == p)
    && (forall p :: p in seen ==> p > 0 && p in byPid && !matches(byPid[p].command))
    && (forall p :: p in seen ==> ParentIn(byPid, p) in seen || ParentIn(byPid, p) == here)
  }

  lemma SearchedStep(byPid: map<Pid, ProcessEntry>, pid: Pid, matches: string -> bool, seen: set<Pid>, steps: nat, here: Pid)
    requires Searched(byPid, pid, matches, seen, steps, here)
    requires here > 0 && here in byPid && !matches(byPid[here].command)
    ensures Searched(byPid, pid, matches, seen + {here}, steps + 1, ParentIn(byPid, here))
  {
  }

  lemma SearchedOut(byPid: map<Pid, ProcessEntry>, pid: Pid, matches: string -> bool, seen: set<Pid>, steps: nat, here: Pid)
    requires Searched(byPid, pid, matches, seen, steps, here) && (here == 0 || here in seen)
    ensures !HasAncestor(byPid, pid, matches)
  {
    forall n: nat ensures !MatchesAt(byPid, pid, matches, n) {
      if n >= steps {
        if here == 0 {
          AncestorsEnd(byPid, pid, steps, n);
        } else {
          ClosedUnderParents(byPid, pid, seen, steps, n);
        }
      }
    }
  }

  /** hasAncestorMatching: exact on every table, cyclic ones included. */
  method HasAncestorMatching(byPid: map<Pid, ProcessEntry>, pid: Pid, matches: string -> bool) returns (found: bool)
    ensures found <==> HasAncestor(byPid, pid, matches)
  {
    hide HasAncestor, AncestorAt, Searched;
    var seen: set<Pid> := {};
    ghost var steps: nat := 0;
    var current := if pid in byPid then byPid[pid].ppid else 0;
    ghost var here := ParentIn(byPid, pid);
    SearchStarts(byPid, pid, matches);
    while current > 0 && current !in seen
      invariant seen <= byPid.Keys
      invariant here == if current > 0 && current in byPid then current else 0
      invariant Searched(byPid, pid, matches, seen, steps, here)
      decreases byPid.Keys - seen
    {
      seen := seen + {current};
      if current !in byPid {
        SearchedOut(byPid, pid, matches, seen - {current}, steps, 0);
        return false;
      }
      if matches(byPid[current].command) {
        SearchHits(byPid, pid, matches, seen - {current}, steps, current);
        return true;
      }
      SearchedStep(byPid, pid, matches, seen - {current}, steps, current);
      current := byPid[current].ppid;
      here := ParentIn(byPid, here);
      steps := steps + 1;
    }
    SearchedOut(byPid, pid, matches, seen, steps, here);
    return false;
  }

  lemma SearchStarts(byPid: map<Pid, ProcessEntry>, pid: Pid, matches: string -> bool)
    ensures Searched(byPid, pid, matches, {}, 0, ParentIn(byPid, pid))
  {
  }

  lemma SearchHits(byPid: map<Pid, ProcessEntry>, pid: Pid, matches: string -> bool, seen: set<Pid>, steps: nat, here: Pid)
    requires Searched(byPid, pid, matches, seen, steps, here)
    requires here > 0 && here in byPid && matches(byPid[here].command)
    ensures HasAncestor(byPid, pid, matches)
  {
    assert MatchesAt(byPid, pid, matches, steps);
  }

  // ----- the protected root -----

  ghost predicate IsSession(byPid: map<Pid, ProcessEntry>, pats: Patterns, pid: Pid) {
    pid in byPid && byPid[pid].command != "" && pats.isCodexSession(byPid[pid].command)
  }

  /** The walk up stops here: no process above, or a session. */
  ghost predicate IsTop(byPid: map<Pid, ProcessEntry>, pats: Patterns, pid: Pid) {
    IsSession(byPid, pats, pid) || pid !in byPid || byPid[pid].ppid <= 0 || byPid[pid].ppid == pid
  }

  /** The walk up from `pid` comes to an end within so many steps. Cycles elsewhere in the table do not
      matter, nor do cycles above the first session. */
  ghost predicate Ends(byPid: map<Pid, ProcessEntry>, pats: Patterns, pid: Pid, steps: nat)
    decreases steps
  {
    pid <= 1 || IsTop(byPid, pats, pid) || (steps > 0 && Ends(byPid, pats, byPid[pid].ppid, steps - 1))
  }

  /** Parent links descend along some measure, self-parents aside. */
  ghost predicate Acyclic(byPid: map<Pid, ProcessEntry>, height: map<Pid, nat>) {
    && byPid.Keys <= height.Keys
    && forall p :: p in byPid && byPid[p].ppid in byPid && byPid[p].ppid != p
                   ==> height[byPid[p].ppid] < height[p]
  }

  /** Without cycles every walk ends. */
  lemma {:induction false} AcyclicEnds(byPid: map<Pid, ProcessEntry>, pats: Patterns, pid: Pid, height: map<Pid, nat>)
    requires Acyclic(byPid, height)
    ensures Ends(byPid, pats, pid, if pid in byPid then height[pid] + 1 else 0)
    decreases if pid in byPid then height[pid] + 1 else 0
  {
    if pid > 1 && !IsTop(byPid, pats, pid) {
      var parent := byPid[pid].ppid;
      AcyclicEnds(byPid, pats, parent, height);
      EndsLater(byPid, pats, parent, if parent in byPid then height[parent] + 1 else 0, height[pid]);
    }
  }

  lemma {:induction false} EndsLater(byPid: map<Pid, ProcessEntry>, pats: Patterns, pid: Pid, m: nat, n: nat)
    requires Ends(byPid, pats, pid, m) && m <= n
    ensures Ends(byPid, pats, pid, n)
    decreases m
  {
    if m > 0 && pid > 1 && !IsTop(byPid, pats, pid) {
      EndsLater(byPid, pats, byPid[pid].ppid, m - 1, n - 1);
    }
  }

  /** Processes each of which has its parent among them, and none of which stops the walk. */
  ghost predicate Loop(byPid: map<Pid, ProcessEntry>, pats: Patterns, loop: set<Pid>) {
    forall p :: p in loop ==> p > 1 && !IsTop(byPid, pats, p) && byPid[p].ppid in loop
  }

  ghost predicate NeverEnds(byPid: map<Pid, ProcessEntry>, pats: Patterns, pid: Pid) {
    forall steps: nat :: !Ends(byPid, pats, pid, steps)
  }

  lemma {:induction false} LoopNeverEnds(byPid: map<Pid, ProcessEntry>, pats: Patterns, loop: set<Pid>, pid: Pid, steps: nat)
    requires Loop(byPid, pats, loop) && pid in loop
    ensures !Ends(byPid, pats, pid, steps)
    decreases steps
  {
    if steps > 0 {
      LoopNeverEnds(byPid, pats, loop, byPid[pid].ppid, steps - 1);
    }
  }

  lemma ParentNeverEnds(byPid: map<Pid, ProcessEntry>, pats: Patterns, pid: Pid)
    requires NeverEnds(byPid, pats, pid)
    ensures pid > 1 && !IsTop(byPid, pats, pid) && NeverEnds(byPid, pats, byPid[pid].ppid)
  {
    assert !Ends(byPid, pats, pid, 0);
    forall steps: nat ensures !Ends(byPid, pats, byPid[pid].ppid, steps) {
      assert !Ends(byPid, pats, pid, steps + 1);
    }
  }

  /** The walk never ends exactly when the process is in such a loop, or on its way into one. */
  lemma NeverEndsIff(byPid: map<Pid, ProcessEntry>, pats: Patterns, pid: Pid)
    ensures NeverEnds(byPid, pats, pid) <==> exists loop: set<Pid> :: pid in loop && Loop(byPid, pats, loop)
  {
    if NeverEnds(byPid, pats, pid) {
      var loop := set p | p in byPid.Keys && NeverEnds(byPid, pats, p);
      ParentNeverEnds(byPid, pats, pid);
      forall p | p in loop ensures p > 1 && !IsTop(byPid, pats, p) && byPid[p].ppid in loop {
        ParentNeverEnds(byPid, pats, p);
        ParentNeverEnds(byPid, pats, byPid[p].ppid);
      }
      assert pid in loop && Loop(byPid, pats, loop);
    }
    if loop :| pid in loop && Loop(byPid, pats, loop) {
      forall steps: nat ensures !Ends(byPid, pats, pid, steps) { LoopNeverEnds(byPid, pats, loop, pid, steps); }
    }
  }

  /** The walk up from `pid`: itself, its parent and so on, while pids stay above 1, up to a session. */
  ghost function Chain(byPid: map<Pid, ProcessEntry>, pats: Patterns, pid: Pid, steps: nat): seq<Pid>
    requires Ends(byPid, pats, pid, steps)
    decreases steps
  {
    if pid <= 1 then []
    else if IsTop(byPid, pats, pid) then [pid]
    else [pid] + Chain(byPid, pats, byPid[pid].ppid, steps - 1)
  }

  lemma {:induction false} ChainIsUnique(byPid: map<Pid, ProcessEntry>, pats: Patterns, pid: Pid, m: nat, n: nat)
    requires Ends(byPid, pats, pid, m) && Ends(byPid, pats, pid, n)
    ensures Chain(byPid, pats, pid, m) == Chain(byPid, pats, pid, n)
    decreases m
  {
    if pid > 1 && !IsTop(byPid, pats, pid) {
      ChainIsUnique(byPid, pats, byPid[pid].ppid, m - 1, n - 1);
    }
  }

  /** The chain goes from parent to parent, over pids above 1, and stops where the walk does. */
  lemma {:induction false} ChainLinks(byPid: map<Pid, ProcessEntry>, pats: Patterns, pid: Pid, steps: nat)
    requires Ends(byPid, pats, pid, steps)
    ensures var chain := Chain(byPid, pats, pid, steps);
            && (chain != [] <==> pid > 1) && (pid > 1 ==> chain[0] == pid)
            && (forall i :: 0 <= i < |chain| ==> chain[i] > 1)
            && (forall i :: 0 <= i < |chain| - 1 ==> !IsTop(byPid, pats, chain[i]) && chain[i + 1] == byPid[chain[i]].ppid)
            && (pid > 1 ==> IsTop(byPid, pats, chain[|chain| - 1]) || byPid[chain[|chain| - 1]].ppid <= 1)
    decreases steps
  {
    if pid > 1 && !IsTop(byPid, pats, pid) {
      ChainLinks(byPid, pats, byPid[pid].ppid, steps - 1);
    }
  }

  ghost function FirstSession(byPid: map<Pid, ProcessEntry>, pats: Patterns, chain: seq<Pid>, otherwise: Pid): Pid {
    if chain == [] then otherwise
    else if IsSession(byPid, pats, chain[0]) then chain[0]
    else FirstSession(byPid, pats, chain[1..], otherwise)
  }

  /** The nearest copilot session at or above the current process, or that process itself. */
  ghost function ProtectedRoot(byPid: map<Pid, ProcessEntry>, steps: nat, pats: Patterns, current: Pid): Pid
    requires Ends(byPid, pats, current, steps)
  {
    FirstSession(byPid, pats, Chain(byPid, pats, current, steps), current)
  }

  /** What "nearest" means: nothing below it on the chain is a session. */
  lemma {:induction false} FirstSessionIsNearest(byPid: map<Pid, ProcessEntry>, pats: Patterns, chain: seq<Pid>, otherwise: Pid)
    ensures var root := FirstSession(byPid, pats, chain, otherwise);
            || (root == otherwise && forall j :: 0 <= j < |chain| ==> !IsSession(byPid, pats, chain[j]))
            || (exists k :: 0 <= k < |chain| && chain[k] == root && IsSession(byPid, pats, root)
                            && forall j :: 0 <= j < k ==> !IsSession(byPid, pats, chain[j]))
  {
    if chain != [] && !IsSession(byPid, pats, chain[0]) {
      FirstSessionIsNearest(byPid, pats, chain[1..], otherwise);
      var root := FirstSession(byPid, pats, chain, otherwise);
      if k :| 0 <= k < |chain[1..]| && chain[1..][k] == root && IsSession(byPid, pats, root)
              && forall j :: 0 <= j < k ==> !IsSession(byPid, pats, chain[1..][j])
      {
        forall j | 0 <= j < k + 1 ensures !IsSession(byPid, pats, chain[j]) {
          if j > 0 { assert chain[j] == chain[1..][j - 1]; }
        }
        assert chain[k + 1] == root;
      } else {
        forall j | 0 <= j < |chain| ensures !IsSession(byPid, pats, chain[j]) {
          if j > 0 { assert chain[j] == chain[1..][j - 1]; }
        }
      }
    }
  }

  method ResolveProtectedRootPid(table: seq<ProcessEntry>, pats: Patterns, currentPid: Pid, ghost steps: nat)
    returns (root: Pid)
    requires Ends(ByPid(table), pats, currentPid, steps)
    ensures root == ProtectedRoot(ByPid(table), steps, pats, currentPid)
  {
    var byPid := ByPid(table);
    var pid := currentPid;
    ghost var left: nat := steps;
    while pid > 1
      invariant Ends(byPid, pats, pid, left)
      invariant FirstSession(byPid, pats, Chain(byPid, pats, pid, left), currentPid)
             == ProtectedRoot(byPid, steps, pats, currentPid)
      decreases left
    {
      if pid in byPid && byPid[pid].command != "" && pats.isCodexSession(byPid[pid].command) {
        return pid;
      }
      if pid !in byPid || byPid[pid].ppid <= 0 || byPid[pid].ppid == pid { break; }
      assert Chain(byPid, pats, pid, left)[1..] == Chain(byPid, pats, byPid[pid].ppid, left - 1);
      pid := byPid[pid].ppid;
      left := left - 1;
    }
    return currentPid;
  }

  // ----- descendants -----

  ghost predicate IsChild(table: seq<ProcessEntry>, parent: Pid, child: Pid) {
    exists e :: e in table && e.ppid == parent && e.pid == child
  }

  /** A path of child links from `path[0]` down. */
  ghost predicate ChildPath(table: seq<ProcessEntry>, path: seq<Pid>) {
    |path| > 0 && forall i :: 0 <= i < |path| - 1 ==> IsChild(table, path[i], path[i + 1])
  }

  /** `p` is `root` or lies below it. */
  ghost predicate Descends(table: seq<ProcessEntry>, root: Pid, p: Pid) {
    exists path :: ChildPath(table, path) && path[0] == root && path[|path| - 1] == p
  }

  lemma DescendsSelf(table: seq<ProcessEntry>, root: Pid)
    ensures Descends(table, root, root)
  {
    assert ChildPath(table, [root]) && [root][0] == root;
  }

  lemma DescendsStep(table: seq<ProcessEntry>, root: Pid, p: Pid, child: Pid)
    requires Descends(table, root, p) && IsChild(table, p, child)
    ensures Descends(table, root, child)
  {
    var path :| ChildPath(table, path) && path[0] == root && path[|path| - 1] == p;
    var longer := path + [child];
    forall i | 0 <= i < |longer| - 1 ensures IsChild(table, longer[i], longer[i + 1]) {
    }
    assert ChildPath(table, longer) && longer[0] == root && longer[|longer| - 1] == child;
  }

  lemma {:induction false} ClosedHoldsPath(table: seq<ProcessEntry>, closed: set<Pid>, path: seq<Pid>)
    requires ChildPath(table, path) && path[0] in closed
    requires forall p, c :: p in closed && IsChild(table, p, c) ==> c in closed
    ensures path[|path| - 1] in closed
    decreases |path|
  {
    if |path| > 1 {
      var shorter := path[..|path| - 1];
      forall i | 0 <= i < |shorter| - 1 ensures IsChild(table, shorter[i], shorter[i + 1]) {
        assert IsChild(table, path[i], path[i + 1]);
      }
      ClosedHoldsPath(table, closed, shorter);
      assert IsChild(table, path[|path| - 2], path[|path| - 1]);
    }
  }

  lemma ClosedHoldsDescendant(table: seq<ProcessEntry>, closed: set<Pid>, root: Pid, p: Pid)
    requires root in closed && Descends(table, root, p)
    requires forall q, c :: q in closed && IsChild(table, q, c) ==> c in closed
    ensures p in closed
  {
    var path :| ChildPath(table, path) && path[0] == root && path[|path| - 1] == p;
    ClosedHoldsPath(table, closed, path);
  }

  function ChildrenOf(table: seq<ProcessEntry>, parent: Pid): seq<Pid> {
    if table == [] then []
    else ChildrenOf(table[..|table| - 1], parent)
         + (if table[|table| - 1].ppid == parent then [table[|table| - 1].pid] else [])
  }

  lemma {:induction false} ChildrenOfIs(table: seq<ProcessEntry>, parent: Pid, child: Pid)
    ensures child in ChildrenOf(table, parent) <==> IsChild(table, parent, child)
  {
    if table != [] {
      var n := |table| - 1;
      ChildrenOfIs(table[..n], parent, child);
      assert table == table[..n] + [table[n]];
      if IsChild(table, parent, child) {
        var e :| e in table && e.ppid == parent && e.pid == child;
        assert e == table[n] || e in table[..n];
      }
    }
  }

  function PidsOf(table: seq<ProcessEntry>): set<Pid> {
    set e | e in table :: e.pid
  }

  /** Everything reachable from `root` over child links, found with a worklist. */
  method CollectDescendants(table: seq<ProcessEntry>, root: Pid) returns (reached: set<Pid>)
    ensures forall p :: p in reached <==> Descends(table, root, p)
  {
    reached := {};
    var descendants := [root];
    DescendsSelf(table, root);
    ghost var universe := PidsOf(table) + {root};
    while |descendants| > 0
      invariant forall p :: p in reached ==> Descends(table, root, p)
      invariant forall p :: p in descendants ==> Descends(table, root, p) && p in universe
      invariant root in reached || root in descendants
      invariant forall p, c :: p in reached && IsChild(table, p, c) ==> c in reached || c in descendants
      decreases universe - reached, |descendants|
    {
      var last := |descendants| - 1;
      var pid := descendants[last];
      ghost var before := descendants;
      descendants := descendants[..last];
      assert forall p :: p in before ==> p in descendants || p == pid;
      assert pid in before;
      if pid !in reached {
        reached := reached + {pid};
        var children := ChildrenOf(table, pid);
        descendants := PushUnreached(descendants, children, reached);
        forall c | c in descendants ensures Descends(table, root, c) && c in universe {
          if c in children {
            ChildrenOfIs(table, pid, c);
            DescendsStep(table, root, pid, c);
          }
        }
        forall p, c | p in reached && IsChild(table, p, c) ensures c in reached || c in descendants {
          ChildrenOfIs(table, pid, c);
        }
      }
    }
    forall p | Descends(table, root, p) ensures p in reached {
      ClosedHoldsDescendant(table, reached, root, p);
    }
  }

  method PushUnreached(stack: seq<Pid>, children: seq<Pid>, reached: set<Pid>) returns (r: seq<Pid>)
    ensures forall p :: p in r ==> p in stack || p in children
    ensures forall p :: p in stack ==> p in r
    ensures forall p :: p in children ==> p in r || p in reached
  {
    r := stack;
    for i := 0 to |children|
      invariant forall p :: p in r ==> p in stack || p in children
      invariant forall p :: p in stack ==> p in r
      invariant forall k :: 0 <= k < i ==> children[k] in r || children[k] in reached
    {
      if children[i] !in reached {
        r := r + [children[i]];
      }
    }
  }

  lemma {:induction false} ChainDescends(table: seq<ProcessEntry>, steps: nat, pats: Patterns, pid: Pid, k: nat)
    requires Ends(ByPid(table), pats, pid, steps)
    requires k < |Chain(ByPid(table), pats, pid, steps)|
    ensures Descends(table, Chain(ByPid(table), pats, pid, steps)[k], pid)
    decreases k
  {
    var byPid := ByPid(table);
    if k == 0 {
      DescendsSelf(table, pid);
    } else {
      var parent := byPid[pid].ppid;
      ChainDescends(table, steps - 1, pats, parent, k - 1);
      ByPidFinds(table, pid);
      assert IsChild(table, parent, pid);
      DescendsStep(table, Chain(byPid, pats, parent, steps - 1)[k - 1], parent, pid);
    }
  }

  /** The protected set is exactly the tree below the protected root, and it holds the current
      process. */
  method BuildProtectedPidSet(table: seq<ProcessEntry>, pats: Patterns, currentPid: Pid, ghost steps: nat)
    returns (protected: set<Pid>)
    requires Ends(ByPid(table), pats, currentPid, steps)
    ensures forall p :: p in protected <==> Descends(table, ProtectedRoot(ByPid(table), steps, pats, currentPid), p)
    ensures currentPid in protected
  {
    hide Descends, FirstSession, Chain;
    var root := ResolveProtectedRootPid(table, pats, currentPid, steps);
    protected := CollectDescendants(table, root);
    RootCoversCurrent(table, steps, pats, currentPid);
  }

  lemma RootCoversCurrent(table: seq<ProcessEntry>, steps: nat, pats: Patterns, current: Pid)
    requires Ends(ByPid(table), pats, current, steps)
    ensures Descends(table, ProtectedRoot(ByPid(table), steps, pats, current), current)
  {
    var chain := Chain(ByPid(table), pats, current, steps);
    var root := ProtectedRoot(ByPid(table), steps, pats, current);
    FirstSessionIsNearest(ByPid(table), pats, chain, current);
    if k :| 0 <= k < |chain| && chain[k] == root {
      ChainDescends(table, steps, pats, current, k);
    } else {
      DescendsSelf(table, root);
    }
  }

  // ----- candidates -----

  datatype Candidate = Candidate(entry: ProcessEntry, orphaned: bool)

  predicate IsCandidateEntry(pats: Patterns, protected: set<Pid>, currentPid: Pid, e: ProcessEntry) {
    e.pid != currentPid && pats.isMcpServer(e.command) && e.pid !in protected
  }

  function InsertByPid(s: seq<ProcessEntry>, e: ProcessEntry): seq<ProcessEntry> {
    if s == [] || s[|s| - 1].pid <= e.pid then s + [e]
    else InsertByPid(s[..|s| - 1], e) + [s[|s| - 1]]
  }

  /** Array.prototype.sort by pid: stable. */
  function SortByPid(s: seq<ProcessEntry>): seq<ProcessEntry> {
    if s == [] then [] else InsertByPid(SortByPid(s[..|s| - 1]), s[|s| - 1])
  }

  ghost predicate PidOrdered(s: seq<ProcessEntry>) {
    forall i, j :: 0 <= i < j < |s| ==> s[i].pid <= s[j].pid
  }

  lemma {:induction false} InsertByPidHolds(s: seq<ProcessEntry>, e: ProcessEntry)
    ensures multiset(InsertByPid(s, e)) == multiset(s) + multiset{e}
  {
    if s != [] && s[|s| - 1].pid > e.pid {
      var n := |s| - 1;
      InsertByPidHolds(s[..n], e);
      assert s == s[..n] + [s[n]];
    }
  }

  lemma {:induction false} InsertByPidKeeps(s: seq<ProcessEntry>, e: ProcessEntry)
    requires PidOrdered(s)
    ensures PidOrdered(InsertByPid(s, e))
  {
    if s != [] && s[|s| - 1].pid > e.pid {
      var n := |s| - 1;
      InsertByPidKeeps(s[..n], e);
      InsertByPidHolds(s[..n], e);
      var front := InsertByPid(s[..n], e);
      forall i | 0 <= i < |front| ensures front[i].pid <= s[n].pid {
        assert front[i] in multiset(s[..n]) + multiset{e};
        assert front[i] == e || front[i] in s[..n];
      }
      OrderedSnoc(front, s[n]);
    }
  }

  lemma OrderedSnoc(front: seq<ProcessEntry>, last: ProcessEntry)
    requires PidOrdered(front) && forall i :: 0 <= i < |front| ==> front[i].pid <= last.pid
    ensures PidOrdered(front + [last])
  {
  }

  lemma {:induction false} SortByPidSorts(s: seq<ProcessEntry>)
    ensures PidOrdered(SortByPid(s)) && multiset(SortByPid(s)) == multiset(s)
  {
    if s != [] {
      var n := |s| - 1;
      SortByPidSorts(s[..n]);
      InsertByPidKeeps(SortByPid(s[..n]), s[n]);
      InsertByPidHolds(SortByPid(s[..n]), s[n]);
      assert s == s[..n] + [s[n]];
    }
  }

  function SelectEntries(table: seq<ProcessEntry>, pats: Patterns, protected: set<Pid>, currentPid: Pid): seq<ProcessEntry> {
    if table == [] then []
    else
      var n := |table| - 1;
      SelectEntries(table[..n], pats, protected, currentPid)
      + (if IsCandidateEntry(pats, protected, currentPid, table[n]) then [table[n]] else [])
  }

  lemma {:induction false} SelectEntriesIs(table: seq<ProcessEntry>, pats: Patterns, protected: set<Pid>, currentPid: Pid, e: ProcessEntry)
    ensures e in SelectEntries(table, pats, protected, currentPid)
            <==> e in table && IsCandidateEntry(pats, protected, currentPid, e)
    ensures multiset(SelectEntries(table, pats, protected, currentPid))[e] <= multiset(table)[e]
  {
    if table != [] {
      var n := |table| - 1;
      SelectEntriesIs(table[..n], pats, protected, currentPid, e);
      assert table == table[..n] + [table[n]];
    }
  }

  function MarkOrphans(entries: seq<ProcessEntry>): (r: seq<Candidate>)
    ensures |r| == |entries|
    ensures forall i :: 0 <= i < |r| ==> r[i] == Candidate(entries[i], entries[i].ppid <= 1)
  {
    seq(|entries|, i requires 0 <= i < |entries| => Candidate(entries[i], entries[i].ppid <= 1))
  }

  /** Candidates are exactly the MCP servers outside the protected tree, in pid order. */
  ghost predicate AreCleanupCandidates(table: seq<ProcessEntry>, steps: nat, pats: Patterns, current: Pid, cs: seq<Candidate>)
    requires Ends(ByPid(table), pats, current, steps)
  {
    var root := ProtectedRoot(ByPid(table), steps, pats, current);
    && (forall e :: (exists i :: 0 <= i < |cs| && cs[i].entry == e)
                    <==> e in table && pats.isMcpServer(e.command) && !Descends(table, root, e.pid))
    && (forall i, j :: 0 <= i < j < |cs| ==> cs[i].entry.pid <= cs[j].entry.pid)
    && (forall i :: 0 <= i < |cs| ==> cs[i].orphaned == (cs[i].entry.ppid <= 1))
    && (DistinctPids(table) ==> forall i, j :: 0 <= i < j < |cs| ==> cs[i].entry.pid < cs[j].entry.pid)
  }

  method FindCleanupCandidates(table: seq<ProcessEntry>, pats: Patterns, currentPid: Pid, ghost steps: nat)
    returns (candidates: seq<Candidate>)
    requires Ends(ByPid(table), pats, currentPid, steps)
    ensures AreCleanupCandidates(table, steps, pats, currentPid, candidates)
  {
    hide Descends, ProtectedRoot, SelectEntries, SortByPid;
    var protected := BuildProtectedPidSet(table, pats, currentPid, steps);
    var chosen := SelectEntries(table, pats, protected, currentPid);
    var sorted := SortByPid(chosen);
    candidates := MarkOrphans(sorted);
    SortByPidSorts(chosen);
    forall e
      ensures (exists i :: 0 <= i < |candidates| && candidates[i].entry == e)
              <==> e in table && pats.isMcpServer(e.command) && e.pid !in protected
    {
      SelectEntriesIs(table, pats, protected, currentPid, e);
      assert e in sorted <==> e in multiset(sorted);
      assert e in chosen <==> e in multiset(chosen);
      if e in sorted {
        var i :| 0 <= i < |sorted| && sorted[i] == e;
        assert candidates[i].entry == e;
      }
    }
    if DistinctPids(table) {
      SortedIsStrict(table, pats, protected, currentPid, sorted);
    }
  }

  lemma SortedIsStrict(table: seq<ProcessEntry>, pats: Patterns, protected: set<Pid>, currentPid: Pid, sorted: seq<ProcessEntry>)
    requires DistinctPids(table) && PidOrdered(sorted)
    requires multiset(sorted) == multiset(SelectEntries(table, pats, protected, currentPid))
    ensures forall i, j :: 0 <= i < j < |sorted| ==> sorted[i].pid < sorted[j].pid
  {
    forall i, j | 0 <= i < j < |sorted| ensures sorted[i].pid != sorted[j].pid {
      var a, b := sorted[i], sorted[j];
      SelectEntriesIs(table, pats, protected, currentPid, a);
      SelectEntriesIs(table, pats, protected, currentPid, b);
      assert a in multiset(sorted) && b in multiset(sorted);
      if a == b {
        TwicePresent(sorted, i, j);
        OnceInDistinct(table, a);
      } else {
        var x :| 0 <= x < |table| && table[x] == a;
        var y :| 0 <= y < |table| && table[y] == b;
      }
    }
  }

  lemma TwicePresent(s: seq<ProcessEntry>, i: int, j: int)
    requires 0 <= i < j < |s| && s[i] == s[j]
    ensures multiset(s)[s[i]] >= 2
  {
    assert s == s[..i] + [s[i]] + s[i + 1..j] + [s[j]] + s[j + 1..];
  }

  lemma {:induction false} OnceInDistinct(table: seq<ProcessEntry>, e: ProcessEntry)
    requires DistinctPids(table)
    ensures multiset(table)[e] <= 1
  {
    if table != [] {
      var n := |table| - 1;
      OnceInDistinct(table[..n], e);
      assert table == table[..n] + [table[n]];
      if e == table[n] {
        assert e !in table[..n];
      }
    }
  }

  ghost predicate LaunchSafe(table: seq<ProcessEntry>, pats: Patterns, c: Candidate) {
    c.entry.ppid <= 1
    || (!HasAncestor(ByPid(table), c.entry.pid, pats.isCodexSession)
        && !HasAncestor(ByPid(table), c.entry.pid, pats.isOmcpLaunch))
  }

  ghost function KeepLaunchSafe(table: seq<ProcessEntry>, pats: Patterns, cs: seq<Candidate>): seq<Candidate> {
    if cs == [] then []
    else KeepLaunchSafe(table, pats, cs[..|cs| - 1])
         + (if LaunchSafe(table, pats, cs[|cs| - 1]) then [cs[|cs| - 1]] else [])
  }

  /** The launch-time selection: cleanup candidates, less those under a live session or launcher. */
  method FindLaunchSafeCleanupCandidates(table: seq<ProcessEntry>, pats: Patterns, currentPid: Pid, ghost steps: nat)
    returns (safe: seq<Candidate>, ghost candidates: seq<Candidate>)
    requires Ends(ByPid(table), pats, currentPid, steps)
    ensures AreCleanupCandidates(table, steps, pats, currentPid, candidates)
    ensures safe == KeepLaunchSafe(table, pats, candidates)
  {
    hide AreCleanupCandidates, HasAncestor;
    var all := FindCleanupCandidates(table, pats, currentPid, steps);
    candidates := all;
    var byPid := ByPid(table);
    safe := [];
    for i := 0 to |all|
      invariant safe == KeepLaunchSafe(table, pats, all[..i])
    {
      var c := all[i];
      var keep := c.entry.ppid <= 1;
      if !keep {
        var underSession := HasAncestorMatching(byPid, c.entry.pid, pats.isCodexSession);
        if !underSession {
          var underLauncher := HasAncestorMatching(byPid, c.entry.pid, pats.isOmcpLaunch);
          keep := !underLauncher;
        }
      }
      assert all[..i + 1][..i] == all[..i];
      if keep { safe := safe + [c]; }
    }
    assert all[..|all|] == all;
  }

  lemma {:induction false} KeepLaunchSafeIs(table: seq<ProcessEntry>, pats: Patterns, cs: seq<Candidate>, c: Candidate)
    ensures c in KeepLaunchSafe(table, pats, cs) <==> c in cs && LaunchSafe(table, pats, c)
  {
    if cs != [] {
      var n := |cs| - 1;
      KeepLaunchSafeIs(table, pats, cs[..n], c);
      assert cs == cs[..n] + [cs[n]];
    }
  }
}
