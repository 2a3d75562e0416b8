/** internal/config: the configuration and its validation. */
module Configuration {
  import opened Common
  import opened Dependencies

  datatype Condition = Started | Healthy | Completed

  datatype RestartPolicy = Always | Never | Unexpected

  datatype Dependency = Dependency(name: string, condition: Condition)

  datatype Program = Program(
    dependsOn: seq<Dependency>,
    autostart: bool,
    autorestart: RestartPolicy,
    maxRestarts: nat,
    hasHealthCheck: bool,
    stdoutLogfile: string,
    stderrLogfile: string,
    other: string)  // command, environment, directory and the rest of the definition

  datatype Config = Config(programs: map<string, Program>, socket: string)

  const MAX_SOCKET_PATH_LEN := 104

  datatype Verdict =
    | Valid
    | CircularDependency(from: string, to: string)
    | MissingDependency(name: string, dep: string)
    | NoHealthCheck(name: string, dep: string)
    | NeverCompletes(name: string, dep: string)
    | SharedLog(owner: string, name: string)
    | SocketTooLong

  function NamesOf(list: seq<Dependency>): (names: seq<string>)
    ensures |names| == |list|
  {
    seq(|list|, i requires 0 <= i < |list| => list[i].name)
  }

  function DepsOf(programs: map<string, Program>): (deps: Listing)
    ensures deps.Keys == programs.Keys
  {
    map n | n in programs :: NamesOf(programs[n].dependsOn)
  }

  /** Some program waits for a name that is not configured. */
  ghost predicate Dangling(deps: Listing) {
    exists n, d :: n in deps && d in deps[n] && d !in deps
  }

  /** An entry of depends_on, by program and position, that names a program nobody configured. */
  type Entry = (string, nat)

  ghost predicate IsAbsent(deps: Listing, e: Entry) {
    e.0 in deps && e.1 < |deps[e.0]| && deps[e.0][e.1] !in deps
  }

  ghost predicate SameName(deps: Listing, e: Entry, f: Entry)
    requires IsAbsent(deps, e) && IsAbsent(deps, f)
  {
    deps[e.0][e.1] == deps[f.0][f.1]
  }

  /** Two entries name the same program that is not configured. */
  ghost predicate AbsentTwice(deps: Listing) {
    exists e: Entry, f: Entry :: e != f && IsAbsent(deps, e) && IsAbsent(deps, f) && SameName(deps, e, f)
  }

  lemma AbsentTwiceDangles(deps: Listing)
    requires AbsentTwice(deps)
    ensures Dangling(deps)
  {
  }

  /** The condition a dependency is waited on for is one it can reach. */
  predicate Reachable(target: Program, condition: Condition) {
    && (condition == Healthy ==> target.hasHealthCheck)
    && (condition == Completed ==> target.autorestart != Always)
  }

  ghost predicate ConditionsReachable(programs: map<string, Program>) {
    forall n, dep :: n in programs && dep in programs[n].dependsOn && dep.name in programs ==>
                       Reachable(programs[dep.name], dep.condition)
  }

  /** The files a program's output goes to. */
  function LogFiles(program: Program): set<string> {
    {program.stdoutLogfile, program.stderrLogfile} - {""}
  }

  predicate LogsTo(program: Program, path: string) {
    path != "" && (program.stdoutLogfile == path || program.stderrLogfile == path)
  }

  ghost predicate LogsDisjoint(programs: map<string, Program>) {
    forall m, n, path :: m in programs && n in programs && m != n ==>
                           !(LogsTo(programs[m], path) && LogsTo(programs[n], path))
  }

  /**
   * The depth-first search between two calls: path holds the calls in progress, outermost
   * first, and finished the programs whose call has returned, in that order.
   */
  ghost predicate Searching(deps: Listing, visited: set<string>, recStack: set<string>,
                            path: seq<string>, finished: seq<string>) {
    && visited * deps.Keys == Elements(path) + Elements(finished)
    && recStack * deps.Keys == Elements(path)
    && Elements(path) !! Elements(finished)
    && FinishedFirst(deps, finished)
    && (path != [] ==> IsChain(deps, path))
  }

  ghost predicate FinishedFirst(deps: Listing, finished: seq<string>) {
    forall i, d :: 0 <= i < |finished| && Edge(deps, finished[i], d) ==> d in finished[..i]
  }

  lemma EnterChain(deps: Listing, path: seq<string>, name: string)
    requires name in deps
    requires path != [] ==> IsChain(deps, path) && Edge(deps, path[|path| - 1], name)
    ensures IsChain(deps, path + [name])
  {
    var longer := path + [name];
    forall k | 0 <= k < |longer| - 1 ensures Link(deps, longer, k) {
      if k < |path| - 1 { assert Link(deps, path, k); }
    }
  }

  lemma Enter(deps: Listing, visited: set<string>, recStack: set<string>, path: seq<string>, finished: seq<string>,
              name: string)
    requires Searching(deps, visited, recStack, path, finished) && name !in visited
    requires path != [] && name in deps ==> Edge(deps, path[|path| - 1], name)
    ensures Searching(deps, visited + {name}, recStack + {name},
                      if name in deps then path + [name] else path, finished)
  {
    if name in deps {
      assert name !in visited * deps.Keys;
      assert Elements(path + [name]) == Elements(path) + {name};
      EnterChain(deps, path, name);
    } else {
      assert (visited + {name}) * deps.Keys == visited * deps.Keys;
      assert (recStack + {name}) * deps.Keys == recStack * deps.Keys;
    }
  }

  lemma Leave(deps: Listing, visited: set<string>, recStack: set<string>, path: seq<string>, finished: seq<string>,
              name: string)
    requires Searching(deps, visited, recStack, path + [name], finished) && name in deps && name !in path
    requires forall d :: Edge(deps, name, d) ==> d in finished
    ensures Searching(deps, visited, recStack - {name}, path, finished + [name])
  {
    assert Elements(path + [name]) == Elements(path) + {name};
    var longer := finished + [name];
    assert Elements(longer) == Elements(finished) + {name};
    forall i, d | 0 <= i < |longer| && Edge(deps, longer[i], d) ensures d in longer[..i] {
      assert longer[..i] == finished[..i];
      if i == |finished| { assert finished[..i] == finished; }
    }
    if path != [] {
      ChainPrefix(deps, path + [name], |path|);
      assert (path + [name])[..|path|] == path;
    }
  }

  /** A dependency found on the path being explored closes a cycle. */
  lemma ClosesCycle(deps: Listing, visited: set<string>, recStack: set<string>, path: seq<string>,
                    finished: seq<string>,
                    dep: string)
    requires Searching(deps, visited, recStack, path, finished) && path != []
    requires dep in recStack && Edge(deps, path[|path| - 1], dep)
    ensures Cyclic(deps)
  {
    assert dep in recStack * deps.Keys && dep in Elements(path);
    var k :| 0 <= k < |path| && path[k] == dep;
    ChainTail(deps, path, k);
    EnterChain(deps, path[k..], dep);
    assert IsCycle(deps, path[k..] + [dep]);
  }

  lemma AlreadyFinished(deps: Listing, visited: set<string>, recStack: set<string>, path: seq<string>,
                        finished: seq<string>, dep: string)
    requires Searching(deps, visited, recStack, path, finished)
    requires dep in deps && dep in visited && dep !in recStack
    ensures dep in finished
  {
    assert dep in visited * deps.Keys && dep !in recStack * deps.Keys;
  }

  lemma NotYetOnPath(deps: Listing, visited: set<string>, recStack: set<string>, path: seq<string>,
                     finished: seq<string>, name: string)
    requires Searching(deps, visited, recStack, path, finished) && name in deps && name !in visited
    ensures name !in path
  {
    assert name !in visited * deps.Keys;
    assert name !in Elements(path);
  }

  /** The search so far: each absent name it came across was named by one entry, and keeps its mark on the stack. */
  ghost predicate AbsentMarked(deps: Listing, visited: set<string>, recStack: set<string>, entries: set<Entry>) {
    && (forall e :: e in entries ==> IsAbsent(deps, e) && e.0 in visited && deps[e.0][e.1] in visited)
    && (forall e, f :: e in entries && f in entries && e != f ==> !SameName(deps, e, f))
    && (forall d :: d in visited && d !in deps ==> d in recStack && exists e :: e in entries && deps[e.0][e.1] == d)
  }

  lemma MarkAbsent(deps: Listing, visited: set<string>, recStack: set<string>, entries: set<Entry>, e: Entry)
    requires AbsentMarked(deps, visited, recStack, entries) && IsAbsent(deps, e)
    requires e.0 in visited && deps[e.0][e.1] !in visited
    ensures AbsentMarked(deps, visited + {deps[e.0][e.1]}, recStack + {deps[e.0][e.1]}, entries + {e})
  {
  }

  /** An absent name seen before was named by an earlier entry. */
  lemma AbsentAgain(deps: Listing, visited: set<string>, recStack: set<string>, entries: set<Entry>, e: Entry)
    requires AbsentMarked(deps, visited, recStack, entries) && IsAbsent(deps, e)
    requires deps[e.0][e.1] in visited && e !in entries
    ensures deps[e.0][e.1] in recStack && AbsentTwice(deps)
  {
  }

  lemma EnterPresent(deps: Listing, visited: set<string>, recStack: set<string>, entries: set<Entry>, name: string)
    requires AbsentMarked(deps, visited, recStack, entries) && name in deps && name !in visited
    ensures AbsentMarked(deps, visited + {name}, recStack + {name}, entries)
    ensures forall i :: (name, i) !in entries
  {
  }

  lemma LeavePresent(deps: Listing, visited: set<string>, recStack: set<string>, entries: set<Entry>, name: string)
    requires AbsentMarked(deps, visited, recStack, entries) && name in deps
    ensures AbsentMarked(deps, visited, recStack - {name}, entries)
  {
  }

  /** Every entry of the finished programs was looked at. */
  ghost predicate AllScanned(deps: Listing, finished: set<string>, entries: set<Entry>) {
    forall e :: IsAbsent(deps, e) && e.0 in finished ==> e in entries
  }

  lemma ScannedFinish(deps: Listing, finished: set<string>, entries: set<Entry>, name: string)
    requires AllScanned(deps, finished, entries) && name in deps
    requires forall i :: 0 <= i < |deps[name]| && deps[name][i] !in deps ==> (name, i) in entries
    ensures AllScanned(deps, finished + {name}, entries)
  {
  }

  lemma ScannedOnce(deps: Listing, visited: set<string>, recStack: set<string>, finished: set<string>,
                    entries: set<Entry>)
    requires AbsentMarked(deps, visited, recStack, entries) && AllScanned(deps, finished, entries)
    requires deps.Keys <= finished
    ensures !AbsentTwice(deps)
  {
  }

  /** checkCircularDependency, with the two maps Validate shares among its calls. */
  class CycleSearch {
    const deps: Listing
    var visited: set<string>
    var recStack: set<string>
    ghost var path: seq<string>
    ghost var finished: seq<string>
    /** The entries naming absent programs that the search has followed. */
    ghost var entries: set<Entry>

    ghost predicate Valid()
      reads this
    {
      && Searching(deps, visited, recStack, path, finished)
      && AbsentMarked(deps, visited, recStack, entries)
      && AllScanned(deps, Elements(finished), entries)
    }

    constructor (deps: Listing)
      ensures this.deps == deps && Valid() && visited == {} && path == []
    {
      this.deps := deps;
      visited, recStack, path, finished, entries := {}, {}, [], [], {};
    }

    /** via is the entry that led here, if name is not configured. */
    method Check(name: string, ghost via: Entry) returns (circular: Option<(string, string)>)
      requires Valid() && name !in visited
      requires path != [] && name in deps ==> Edge(deps, path[|path| - 1], name)
      requires name !in deps ==> IsAbsent(deps, via) && deps[via.0][via.1] == name && via.0 in visited
      modifies this
      ensures circular.None? ==>
                && Valid() && path == old(path)
                && old(visited) <= visited && name in visited
                && Elements(old(finished)) <= Elements(finished)
                && (name in deps ==> name in Elements(finished))
                && old(entries) <= entries
                && (name !in deps ==> via in entries)
                && (forall e :: e in entries && e !in old(entries) ==> e == via || e.0 !in old(visited))
      ensures circular.Some? ==> Cyclic(deps) || AbsentTwice(deps)
      decreases deps.Keys - visited, 0
    {
      hide Searching, Cyclic, AbsentMarked, AllScanned, AbsentTwice;
      Enter(deps, visited, recStack, path, finished, name);
      if name in deps {
        NotYetOnPath(deps, visited, recStack, path, finished, name);
        EnterPresent(deps, visited, recStack, entries, name);
      } else {
        MarkAbsent(deps, visited, recStack, entries, via);
        MoreScanned(deps, Elements(finished), entries, entries + {via});
        entries := entries + {via};
      }
      visited := visited + {name};
      recStack := recStack + {name};
      if name !in deps {
        return None;
      }
      path := path + [name];
      circular := CheckList(name, old(path));
      if circular.Some? { return; }
      Leave(deps, visited, recStack, old(path), finished, name);
      LeavePresent(deps, visited, recStack, entries, name);
      ScannedFinish(deps, Elements(finished), entries, name);
      FinishedGrows(finished, name);
      recStack := recStack - {name};
      path, finished := old(path), finished + [name];
    }

    /** The loop over what name depends on. */
    method CheckList(name: string, ghost outer: seq<string>) returns (circular: Option<(string, string)>)
      requires Valid() && name in deps && name in visited && path == outer + [name]
      requires forall i :: (name, i) !in entries
      modifies this
      ensures circular.None? ==>
                && Valid() && path == old(path) && old(visited) <= visited
                && Elements(old(finished)) <= Elements(finished)
                && (forall d :: Edge(deps, name, d) ==> d in finished)
                && old(entries) <= entries
                && (forall i :: 0 <= i < |deps[name]| && deps[name][i] !in deps ==> (name, i) in entries)
                && (forall e :: e in entries && e !in old(entries) ==> e.0 == name || e.0 !in old(visited))
      ensures circular.Some? ==> Cyclic(deps) || AbsentTwice(deps)
      decreases deps.Keys - visited, 1
    {
      hide Searching, Cyclic, AbsentMarked, AllScanned, AbsentTwice;
      var list := deps[name];
      for i := 0 to |list|
        invariant Valid() && path == old(path) && old(visited) <= visited
        invariant Elements(old(finished)) <= Elements(finished) && old(entries) <= entries
        invariant forall d :: d in list[..i] && d in deps ==> d in Elements(finished)
        invariant forall j :: 0 <= j < i && list[j] !in deps ==> (name, j) in entries
        invariant forall e :: e in entries && e !in old(entries) ==> (e.0 == name && e.1 < i) || e.0 !in old(visited)
      {
        var dep := list[i];
        assert dep in deps[name];
        if dep !in visited {
          assert deps.Keys - visited <= old(deps.Keys - visited);
          circular := Check(dep, (name, i));
          if circular.Some? { return; }
        } else if dep in recStack {
          if dep in deps {
            ClosesCycle(deps, visited, recStack, path, finished, dep);
          } else {
            AbsentAgain(deps, visited, recStack, entries, (name, i));
          }
          return Some((name, dep));
        } else if dep in deps {
          AlreadyFinished(deps, visited, recStack, path, finished, dep);
        } else {
          AbsentAgain(deps, visited, recStack, entries, (name, i));
        }
      }
      assert list[..|list|] == list;
      circular := None;
    }
  }

  lemma MoreScanned(deps: Listing, finished: set<string>, entries: set<Entry>, more: set<Entry>)
    requires AllScanned(deps, finished, entries) && entries <= more
    ensures AllScanned(deps, finished, more)
  {
  }

  lemma FinishedGrows(finished: seq<string>, name: string)
    ensures Elements(finished + [name]) == Elements(finished) + {name}
  {
  }

  /** When every program was finished, finishing order is a rank. */
  lemma FinishedIsAcyclic(deps: Listing, finished: seq<string>)
    requires forall n :: n in deps ==> n in finished
    requires FinishedFirst(deps, finished)
    ensures !Cyclic(deps)
  {
    var rank: map<string, nat> := map n | n in deps :: FirstIndex(finished, n);
    forall n, d | Edge(deps, n, d) ensures n in rank && d in rank && rank[d] < rank[n] {
      var i := FirstIndex(finished, n);
      assert finished[i] == n && d in finished[..i];
    }
    RankedIsAcyclic(deps, rank);
  }

  ghost function FirstIndex(s: seq<string>, n: string): (i: nat)
    ensures n in s ==> i < |s| && s[i] == n
    ensures forall j :: 0 <= j < i && j < |s| ==> s[j] != n
  {
    if s == [] || s[0] == n then 0 else 1 + FirstIndex(s[1..], n)
  }

  method SortedProgramNames(programs: map<string, Program>) returns (names: seq<string>)
    ensures Sorted(names) && NoDup(names) && forall n :: n in names <==> n in programs
  {
    names := [];
    var left := programs.Keys;
    while left != {}
      invariant left <= programs.Keys && NoDup(names)
      invariant forall n :: n in names <==> n in programs && n !in left
    {
      var n :| n in left;
      names := names + [n];
      left := left - {n};
    }
    names := SortStrings(names);
  }

  method FindCycle(deps: Listing) returns (circular: Option<(string, string)>)
    ensures circular.Some? <==> Cyclic(deps) || AbsentTwice(deps)
  {
    hide Cyclic, AbsentTwice;
    var search := new CycleSearch(deps);
    var left := deps.Keys;
    while left != {}
      invariant search.deps == deps && search.Valid() && search.path == []
      invariant forall n :: n in deps && n !in left ==> n in search.visited
    {
      var name :| name in left;
      if name !in search.visited {
        circular := search.Check(name, (name, 0));
        if circular.Some? { return; }
      }
      left := left - {name};
    }
    assert forall n :: n in deps ==> n in search.visited * deps.Keys;
    assert forall n :: n in deps ==> n in Elements(search.finished);
    FinishedIsAcyclic(deps, search.finished);
    ScannedOnce(deps, search.visited, search.recStack, Elements(search.finished), search.entries);
    circular := None;
  }

  /** The complaint is about an entry of the configuration that deserves it. */
  ghost predicate Deserved(programs: map<string, Program>, v: Verdict) {
    match v
    case MissingDependency(n, d) => d !in programs && exists c :: Lists(programs, n, Dependency(d, c))
    case NoHealthCheck(n, d) =>
      d in programs && !programs[d].hasHealthCheck && Lists(programs, n, Dependency(d, Healthy))
    case NeverCompletes(n, d) =>
      d in programs && programs[d].autorestart == Always && Lists(programs, n, Dependency(d, Completed))
    case SharedLog(m, n) =>
      m in programs && n in programs && m != n && exists path :: path in LogFiles(programs[m]) * LogFiles(programs[n])
    case _ => true
  }

  ghost predicate Lists(programs: map<string, Program>, n: string, dep: Dependency) {
    n in programs && dep in programs[n].dependsOn
  }

  /** Every dependency of n exists and is waited on for something it can reach. */
  ghost predicate AllReachable(programs: map<string, Program>, list: seq<Dependency>) {
    forall dep :: dep in list ==> dep.name in programs && Reachable(programs[dep.name], dep.condition)
  }

  lemma UnreachableFails(programs: map<string, Program>, n: string, dep: Dependency)
    requires Lists(programs, n, dep)
    requires dep.name !in programs || !Reachable(programs[dep.name], dep.condition)
    ensures Dangling(DepsOf(programs)) || !ConditionsReachable(programs)
    ensures dep == Dependency(dep.name, dep.condition)
  {
    var j :| 0 <= j < |programs[n].dependsOn| && programs[n].dependsOn[j] == dep;
    assert DepsOf(programs)[n][j] == dep.name;
  }

  lemma ReachableHolds(programs: map<string, Program>)
    requires forall n :: n in programs ==> AllReachable(programs, programs[n].dependsOn)
    ensures !Dangling(DepsOf(programs)) && ConditionsReachable(programs)
  {
  }

  method CheckConditions(programs: map<string, Program>) returns (v: Verdict)
    ensures v == Valid || v.MissingDependency? || v.NoHealthCheck? || v.NeverCompletes?
    ensures v == Valid <==> !Dangling(DepsOf(programs)) && ConditionsReachable(programs)
    ensures Deserved(programs, v)
  {
    hide Dangling, ConditionsReachable, DepsOf;
    var names := SortedProgramNames(programs);
    for i := 0 to |names|
      invariant forall n :: n in names[..i] ==> n in programs && AllReachable(programs, programs[n].dependsOn)
    {
      var list := programs[names[i]].dependsOn;
      for j := 0 to |list|
        invariant AllReachable(programs, list[..j])
      {
        assert list[j] in list && Lists(programs, names[i], list[j]);
        if list[j].name !in programs || !Reachable(programs[list[j].name], list[j].condition) {
          UnreachableFails(programs, names[i], list[j]);
        }
        if list[j].name !in programs {
          return MissingDependency(names[i], list[j].name);
        }
        if list[j].condition == Healthy && !programs[list[j].name].hasHealthCheck {
          return NoHealthCheck(names[i], list[j].name);
        }
        if list[j].condition == Completed && programs[list[j].name].autorestart == Always {
          return NeverCompletes(names[i], list[j].name);
        }
      }
      assert list[..|list|] == list;
    }
    assert names[..|names|] == names;
    ReachableHolds(programs);
    v := Valid;
  }

  ghost predicate Owns(owners: map<string, string>, name: string, path: string) {
    path == "" || (path in owners && owners[path] == name)
  }

  ghost predicate OwnsBoth(owners: map<string, string>, name: string, program: Program) {
    Owns(owners, name, program.stdoutLogfile) && Owns(owners, name, program.stderrLogfile)
  }

  ghost predicate OwnersLog(programs: map<string, Program>, owners: map<string, string>) {
    forall path :: path in owners ==> owners[path] in programs && LogsTo(programs[owners[path]], path)
  }

  lemma OwnedIsDisjoint(programs: map<string, Program>, owners: map<string, string>)
    requires forall n :: n in programs ==> OwnsBoth(owners, n, programs[n])
    ensures LogsDisjoint(programs)
  {
  }

  lemma SharedIsNotDisjoint(programs: map<string, Program>, owners: map<string, string>, name: string, path: string)
    requires OwnersLog(programs, owners) && name in programs && LogsTo(programs[name], path)
    requires path in owners && owners[path] != name
    ensures !LogsDisjoint(programs) && Deserved(programs, SharedLog(owners[path], name))
  {
    assert path in LogFiles(programs[owners[path]]) * LogFiles(programs[name]);
  }

  lemma ClaimKeeps(programs: map<string, Program>, owners: map<string, string>, name: string, path: string)
    requires OwnersLog(programs, owners) && name in programs && LogsTo(programs[name], path)
    requires path in owners ==> owners[path] == name
    ensures OwnersLog(programs, owners[path := name]) && Owns(owners[path := name], name, path)
    ensures forall n, q :: Owns(owners, n, q) ==> Owns(owners[path := name], n, q)
  {
  }

  method ValidateLogPaths(programs: map<string, Program>) returns (v: Verdict)
    ensures v == Valid || v.SharedLog?
    ensures v == Valid <==> LogsDisjoint(programs)
    ensures Deserved(programs, v)
  {
    hide LogsDisjoint;
    var owners: map<string, string> := map[];
    var names := SortedProgramNames(programs);
    for i := 0 to |names|
      invariant OwnersLog(programs, owners)
      invariant forall n :: n in names[..i] ==> OwnsBoth(owners, n, programs[n])
    {
      var name := names[i];
      assert name in programs;
      var paths := [programs[name].stdoutLogfile, programs[name].stderrLogfile];
      assert i < |names| && name !in names[..i];
      for stream := 0 to 2
        invariant OwnersLog(programs, owners)
        invariant forall n :: n in names[..i] ==> OwnsBoth(owners, n, programs[n])
        invariant stream > 0 ==> Owns(owners, name, paths[0])
        invariant stream > 1 ==> Owns(owners, name, paths[1])
      {
        var path := paths[stream];
        if path != "" {
          if path in owners && owners[path] != name {
            SharedIsNotDisjoint(programs, owners, name, path);
            return SharedLog(owners[path], name);
          }
          ClaimKeeps(programs, owners, name, path);
          owners := owners[path := name];
        }
      }
    }
    assert names[..|names|] == names;
    OwnedIsDisjoint(programs, owners);
    v := Valid;
  }

  lemma DisjointFiles(programs: map<string, Program>)
    requires LogsDisjoint(programs)
    ensures forall m, n :: m in programs && n in programs && m != n ==> LogFiles(programs[m]) !! LogFiles(programs[n])
  {
    forall m, n, path | m in programs && n in programs && m != n && path in LogFiles(programs[m])
      ensures path !in LogFiles(programs[n])
    {
      assert LogsTo(programs[m], path);
    }
  }

  lemma AllExist(programs: map<string, Program>)
    requires !Dangling(DepsOf(programs)) && ConditionsReachable(programs)
    ensures forall n, dep :: n in programs && dep in programs[n].dependsOn ==>
      && dep.name in programs
      && (dep.condition == Healthy ==> programs[dep.name].hasHealthCheck)
      && (dep.condition == Completed ==> programs[dep.name].autorestart != Always)
  {
    forall n, dep | n in programs && dep in programs[n].dependsOn
      ensures dep.name in programs && Reachable(programs[dep.name], dep.condition)
    {
      var j :| 0 <= j < |programs[n].dependsOn| && programs[n].dependsOn[j] == dep;
      assert DepsOf(programs)[n][j] == dep.name;
    }
  }

  /**
   * config.go, Validate. A reported cycle is one, or a program that does not exist and is named twice:
   * an absent name keeps its mark on the stack.
   */
  method Validate(cfg: Config) returns (v: Verdict)
    ensures v == Valid <==>
            && !Cyclic(DepsOf(cfg.programs)) && !Dangling(DepsOf(cfg.programs))
            && ConditionsReachable(cfg.programs) && LogsDisjoint(cfg.programs)
            && |cfg.socket| < MAX_SOCKET_PATH_LEN
    ensures v == Valid ==> |cfg.socket| < 104
    ensures v == Valid ==> forall n, dep :: n in cfg.programs && dep in cfg.programs[n].dependsOn ==>
              && dep.name in cfg.programs
              && (dep.condition == Healthy ==> cfg.programs[dep.name].hasHealthCheck)
              && (dep.condition == Completed ==> cfg.programs[dep.name].autorestart != Always)
    ensures v == Valid ==> forall m, n :: m in cfg.programs && n in cfg.programs && m != n ==>
              LogFiles(cfg.programs[m]) !! LogFiles(cfg.programs[n])
    ensures Deserved(cfg.programs, v)
    ensures v.CircularDependency? <==> Cyclic(DepsOf(cfg.programs)) || AbsentTwice(DepsOf(cfg.programs))
  {
    var circular := FindCycle(DepsOf(cfg.programs));
    if circular.Some? {
      if AbsentTwice(DepsOf(cfg.programs)) { AbsentTwiceDangles(DepsOf(cfg.programs)); }
      return CircularDependency(circular.value.0, circular.value.1);
    }
    v := CheckConditions(cfg.programs);
    if v != Valid { return; }
    v := ValidateLogPaths(cfg.programs);
    if v != Valid { return; }
    AllExist(cfg.programs);
    DisjointFiles(cfg.programs);
    v := if |cfg.socket| >= MAX_SOCKET_PATH_LEN then SocketTooLong else Valid;
  }

  /** Two programs waiting for the same missing one are told of a cycle there is none of. */
  lemma MissingTwiceIsNoCycle(app: string, web: string, missing: string)
    requires app != web && missing != app && missing != web
    ensures var deps: Listing := map[app := [missing], web := [missing]]; AbsentTwice(deps) && !Cyclic(deps)
  {
    var deps: Listing := map[app := [missing], web := [missing]];
    assert IsAbsent(deps, (app, 0)) && IsAbsent(deps, (web, 0)) && SameName(deps, (app, 0), (web, 0));
    RankedIsAcyclic(deps, map[app := 0, web := 0]);
  }
}
