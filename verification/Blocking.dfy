/** internal/server/reconcile.go: what holds a program back, and what holds it back for good. */
module Blocking {
  import opened Common
  import opened Configuration

  datatype State = Stopped | Starting | Running | Backoff | Stopping | Exited | Fatal

  datatype Health = NoCheck | CheckStarting | CheckHealthy | CheckUnhealthy

  datatype Desired = WantRunning | WantStopped

  datatype ProcessView = ProcessView(state: State, completed: bool, health: Health, exitCode: int)

  /** What one look at the server sees. */
  datatype Snapshot = Snapshot(
    programs: map<string, Program>,
    processes: map<string, ProcessView>,
    desired: map<string, Desired>)

  datatype Reason =
    | NotConfigured(dep: string)
    | GaveUp(dep: string)
    | NotSetToStart(dep: string)
    | ExitedForGood(dep: string, exitCode: int)

  datatype Prospect = Met | Pending | Hopeless(reason: Reason)

  /** state.go, IsStopped. */
  predicate IsStopped(state: State) {
    state == Stopped || state == Exited || state == Fatal
  }

  function DependenciesOf(s: Snapshot, name: string): seq<Dependency> {
    if name in s.programs then s.programs[name].dependsOn else []
  }

  predicate HasExitedForGood(s: Snapshot, name: string, state: State) {
    state == Exited && name in s.programs && s.programs[name].autorestart == Never
  }

  /** dependenciesSatisfied, for one entry of depends_on. */
  predicate Satisfied(s: Snapshot, dep: Dependency) {
    && dep.name in s.processes
    && var p := s.processes[dep.name];
       if dep.condition == Completed then p.completed
       else p.state == Running && (dep.condition == Healthy ==> p.health == CheckHealthy)
  }

  predicate DependenciesSatisfied(s: Snapshot, name: string) {
    forall dep :: dep in DependenciesOf(s, name) ==> Satisfied(s, dep)
  }

  /** The cases of the walk, for one entry of depends_on. */
  function Judge(s: Snapshot, dep: Dependency): Prospect {
    if dep.name !in s.processes then Hopeless(NotConfigured(dep.name))
    else
      var p := s.processes[dep.name];
      if dep.condition == Completed && p.completed then Met
      else if p.state == Fatal then Hopeless(GaveUp(dep.name))
      else if dep.name in s.desired && s.desired[dep.name] == WantStopped && IsStopped(p.state) then
        Hopeless(NotSetToStart(dep.name))
      else if dep.condition == Completed && HasExitedForGood(s, dep.name, p.state) then
        Hopeless(ExitedForGood(dep.name, p.exitCode))
      else if p.state == Running then Met
      else Pending
  }

  ghost predicate PendsOn(s: Snapshot, n: string, d: string) {
    exists dep :: dep in DependenciesOf(s, n) && dep.name == d && Judge(s, dep) == Pending
  }

  ghost predicate HopelessAt(s: Snapshot, n: string, reason: Reason) {
    exists dep :: dep in DependenciesOf(s, n) && Judge(s, dep) == Hopeless(reason)
  }

  ghost predicate PendingLink(s: Snapshot, path: seq<string>, i: nat)
    requires i + 1 < |path|
  {
    PendsOn(s, path[i], path[i + 1])
  }

  /** Still-pending dependencies lead from the first program of path to a hopeless one. */
  ghost predicate LeadsTo(s: Snapshot, path: seq<string>, reason: Reason) {
    && path != []
    && (forall i :: 0 <= i < |path| - 1 ==> PendingLink(s, path, i))
    && HopelessAt(s, path[|path| - 1], reason)
  }

  // ---------------------------------------------------------------- the same from the states

  /** dep has not been completed, and as things are it will not come up. */
  ghost predicate DeadEnd(s: Snapshot, dep: Dependency) {
    if dep.name !in s.processes then true
    else
      var p := s.processes[dep.name];
      && (dep.condition == Completed ==> !p.completed)
      && (|| p.state == Fatal
          || (dep.name in s.desired && s.desired[dep.name] == WantStopped && p.state in {Stopped, Exited})
          || (dep.condition == Completed && p.state == Exited
              && dep.name in s.programs && s.programs[dep.name].autorestart == Never))
  }

  /** n depends on d, which is not up and has not completed what n waits for. */
  ghost predicate WaitsOn(s: Snapshot, n: string, d: string) {
    exists dep :: dep in DependenciesOf(s, n) && dep.name == d && d in s.processes
      && s.processes[d].state != Running && (dep.condition == Completed ==> !s.processes[d].completed)
  }

  ghost predicate HasDeadEnd(s: Snapshot, n: string) {
    exists dep :: dep in DependenciesOf(s, n) && DeadEnd(s, dep)
  }

  ghost predicate DownLink(s: Snapshot, path: seq<string>, i: nat)
    requires i + 1 < |path|
  {
    WaitsOn(s, path[i], path[i + 1])
  }

  /** Dependencies that are down lead from the first program of path to one with a dead end. */
  ghost predicate DownTo(s: Snapshot, path: seq<string>) {
    && path != []
    && (forall i :: 0 <= i < |path| - 1 ==> DownLink(s, path, i))
    && HasDeadEnd(s, path[|path| - 1])
  }

  /** The reason is true of the program it names. */
  ghost predicate IsTrue(s: Snapshot, reason: Reason) {
    match reason
    case NotConfigured(d) => d !in s.processes
    case GaveUp(d) => d in s.processes && s.processes[d].state == Fatal
    case NotSetToStart(d) =>
      && d in s.processes && s.processes[d].state in {Stopped, Exited}
      && d in s.desired && s.desired[d] == WantStopped
    case ExitedForGood(d, code) =>
      && d in s.processes && s.processes[d].state == Exited && s.processes[d].exitCode == code
      && !s.processes[d].completed && d in s.programs && s.programs[d].autorestart == Never
  }

  lemma HopelessIsDeadEnd(s: Snapshot, dep: Dependency)
    ensures Judge(s, dep).Hopeless? <==> DeadEnd(s, dep)
    ensures Judge(s, dep).Hopeless? ==> IsTrue(s, Judge(s, dep).reason)
  {
  }

  lemma PendingWaits(s: Snapshot, n: string, d: string)
    requires PendsOn(s, n, d)
    ensures WaitsOn(s, n, d)
  {
    var dep :| dep in DependenciesOf(s, n) && dep.name == d && Judge(s, dep) == Pending;
  }

  lemma WaitsIsPending(s: Snapshot, n: string, d: string)
    requires WaitsOn(s, n, d)
    ensures PendsOn(s, n, d) || exists reason :: HopelessAt(s, n, reason)
  {
    var dep :| dep in DependenciesOf(s, n) && dep.name == d && d in s.processes
      && s.processes[d].state != Running && (dep.condition == Completed ==> !s.processes[d].completed);
    if Judge(s, dep).Hopeless? { assert HopelessAt(s, n, Judge(s, dep).reason); }
  }

  lemma PathIsDown(s: Snapshot, path: seq<string>, reason: Reason)
    requires LeadsTo(s, path, reason)
    ensures DownTo(s, path) && IsTrue(s, reason)
  {
    forall i | 0 <= i < |path| - 1 ensures DownLink(s, path, i) {
      assert PendingLink(s, path, i);
      PendingWaits(s, path[i], path[i + 1]);
    }
    var dep :| dep in DependenciesOf(s, path[|path| - 1]) && Judge(s, dep) == Hopeless(reason);
    HopelessIsDeadEnd(s, dep);
  }

  /** A path of programs that are down to a dead end is one the walk cannot miss. */
  lemma {:induction false} DownIsPath(s: Snapshot, path: seq<string>) returns (p: seq<string>, reason: Reason)
    requires DownTo(s, path)
    ensures LeadsTo(s, p, reason) && p[0] == path[0]
  {
    p := [path[0]];
    if r :| HopelessAt(s, path[0], r) {
      reason := r;
    } else if |path| == 1 {
      var dep :| dep in DependenciesOf(s, path[0]) && DeadEnd(s, dep);
      HopelessIsDeadEnd(s, dep);
      assert HopelessAt(s, path[0], Judge(s, dep).reason);
    } else {
      assert DownLink(s, path, 0);
      WaitsIsPending(s, path[0], path[1]);
      var rest := path[1..];
      forall i | 0 <= i < |rest| - 1 ensures DownLink(s, rest, i) { assert DownLink(s, path, i + 1); }
      var later;
      later, reason := DownIsPath(s, rest);
      LeadsToCons(s, path[0], later, reason);
      p := [path[0]] + later;
    }
  }

  // ---------------------------------------------------------------- the walk

  lemma LeadsToCons(s: Snapshot, n: string, path: seq<string>, reason: Reason)
    requires LeadsTo(s, path, reason) && PendsOn(s, n, path[0])
    ensures LeadsTo(s, [n] + path, reason)
  {
    var longer := [n] + path;
    forall i | 0 <= i < |longer| - 1 ensures PendingLink(s, longer, i) {
      if i > 0 { assert PendingLink(s, path, i - 1); }
    }
  }

  /** n has no hopeless dependency and all it still waits for was looked at. */
  ghost predicate Cleared(s: Snapshot, n: string, seen: set<string>) {
    && (forall reason :: !HopelessAt(s, n, reason))
    && (forall d :: PendsOn(s, n, d) ==> d in seen)
  }

  lemma {:induction false} ClearedHasNoPath(s: Snapshot, seen: set<string>, path: seq<string>, reason: Reason)
    requires forall n :: n in seen ==> Cleared(s, n, seen)
    requires path != [] && path[0] in seen
    ensures !LeadsTo(s, path, reason)
  {
    if LeadsTo(s, path, reason) {
      if |path| > 1 {
        assert PendingLink(s, path, 0);
        assert LeadsTo(s, path[1..], reason) by {
          forall i | 0 <= i < |path[1..]| - 1 ensures PendingLink(s, path[1..], i) {
            assert PendingLink(s, path, i + 1);
          }
        }
        ClearedHasNoPath(s, seen, path[1..], reason);
      }
    }
  }

  /** The recursive walk; seen is the map it shares with every call below it. */
  method BlockedByDependency(s: Snapshot, name: string, seen: set<string>)
    returns (blocked: Option<Reason>, looked: set<string>, ghost path: seq<string>)
    ensures seen + {name} <= looked
    ensures blocked.Some? ==> LeadsTo(s, path, blocked.value) && path[0] == name
    ensures blocked.Some? ==> DownTo(s, path) && IsTrue(s, blocked.value)
    ensures blocked.None? ==> forall n :: n in looked && n !in seen ==> Cleared(s, n, looked)
    decreases s.programs.Keys - seen
  {
    path := [];
    if name in seen {
      return None, seen, path;
    }
    looked := seen + {name};
    var list := DependenciesOf(s, name);
    for i := 0 to |list|
      invariant seen + {name} <= looked
      invariant forall n :: n in looked && n !in seen && n != name ==> Cleared(s, n, looked)
      invariant forall dep :: dep in list[..i] ==> !Judge(s, dep).Hopeless?
      invariant forall dep :: dep in list[..i] && Judge(s, dep) == Pending ==> dep.name in looked
    {
      var dep := list[i];
      assert dep in DependenciesOf(s, name);
      match Judge(s, dep)
      case Hopeless(reason) =>
        path := [name];
        PathIsDown(s, path, reason);
        return Some(reason), looked, path;
      case Met =>
      case Pending =>
        assert PendsOn(s, name, dep.name);
        var before := looked;
        blocked, looked, path := BlockedByDependency(s, dep.name, before);
        if blocked.Some? {
          LeadsToCons(s, name, path, blocked.value);
          path := [name] + path;
          PathIsDown(s, path, blocked.value);
          return;
        }
        forall n | n in looked && n !in seen && n != name ensures Cleared(s, n, looked) {
          if n in before { assert Cleared(s, n, before); }
        }
    }
    assert list[..|list|] == list;
    assert Cleared(s, name, looked);
    blocked := None;
  }

  /** blockedIndefinitely: the walk from scratch. */
  method BlockedIndefinitely(s: Snapshot, name: string)
    returns (blocked: Option<Reason>, ghost path: seq<string>)
    ensures blocked.Some? ==> LeadsTo(s, path, blocked.value) && path[0] == name
    ensures blocked.Some? <==> exists p, reason :: LeadsTo(s, p, reason) && p[0] == name
    ensures blocked.Some? <==> exists p :: DownTo(s, p) && p[0] == name
    ensures blocked.Some? ==> IsTrue(s, blocked.value)
  {
    var looked;
    blocked, looked, path := BlockedByDependency(s, name, {});
    if blocked.None? {
      forall p, reason | p != [] && p[0] == name ensures !LeadsTo(s, p, reason) {
        ClearedHasNoPath(s, looked, p, reason);
      }
      forall p | p != [] && p[0] == name ensures !DownTo(s, p) {
        if DownTo(s, p) { var q, reason := DownIsPath(s, p); }
      }
    }
  }

  /** A program the walk gives up on is one the reconciler would not start now. */
  lemma BlockedIsUnsatisfied(s: Snapshot, path: seq<string>, reason: Reason)
    requires LeadsTo(s, path, reason)
    ensures !DependenciesSatisfied(s, path[0])
  {
    if |path| > 1 {
      assert PendingLink(s, path, 0);
    }
  }
}
